/** What lib/learner.c computes, over an unbounded map of instances instead of a ring of records. */
module LearnerModel {
  import opened Common

  datatype Closed = Closed(ballot: int, proposerId: int, value: Value)
  datatype Rec = Rec(learns: seq<Option<Learn>>, closed: Option<Closed>)
  datatype Delivery = Delivery(iid: int, ballot: int, proposerId: int, value: Value)

  /** n acceptors, a ring of `window` records, and the two watermarks of the learner. */
  datatype State = State(n: nat, window: nat, delivered: int, seen: int,
                         recs: map<int, Rec>, log: seq<Delivery>)

  function Fresh(n: nat): Rec {
    Rec(seq(n, _ => None), None)
  }

  function Init(n: nat, window: nat): State {
    State(n, window, -1, -1, map[], [])
  }

  function Get(s: State, iid: int): Rec {
    if iid in s.recs then s.recs[iid] else Fresh(s.n)
  }

  predicate InWindow(s: State, iid: int) {
    s.delivered < iid < s.delivered + s.window
  }

  /** The acceptors whose stored learn has the given ballot. */
  function Voters(learns: seq<Option<Learn>>, ballot: int): set<int> {
    set a | 0 <= a < |learns| && learns[a].Some? && learns[a].value.ballot == ballot
  }

  /** Would add_learn_to_record store the message? */
  predicate Stores(r: Rec, m: Learn) {
    && 0 <= m.acceptorId < |r.learns|
    && (r.learns[m.acceptorId].Some? ==> r.learns[m.acceptorId].value.ballot < m.ballot)
  }

  /** One learn message meeting the record of its instance. */
  function Offer(n: nat, r: Rec, m: Learn): Rec {
    if r.closed.Some? || !Stores(r, m) then r else
      var learns := r.learns[m.acceptorId := Some(m)];
      Rec(learns, if |Voters(learns, m.ballot)| >= Quorum(n)
                  then Some(Closed(m.ballot, m.proposerId, m.value)) else None)
  }

  predicate ClosedAt(s: State, iid: int) {
    Get(s, iid).closed.Some?
  }

  function DeliveryOf(s: State, iid: int): Delivery
    requires ClosedAt(s, iid)
  {
    var c := Get(s, iid).closed.value;
    Delivery(iid, c.ballot, c.proposerId, c.value)
  }

  /** The closed instances not delivered yet. */
  function Undelivered(s: State): set<int> {
    set i | i in s.recs && i > s.delivered && s.recs[i].closed.Some?
  }

  /** Delivers the instance after the last delivered one. */
  function DeliverOne(s: State): State
    requires ClosedAt(s, s.delivered + 1)
  {
    s.(delivered := s.delivered + 1, log := s.log + [DeliveryOf(s, s.delivered + 1)])
  }

  /** Delivers the maximal run of closed instances that follows the last delivered one. */
  function DeliverPrefix(s: State): (r: State)
    ensures r.delivered >= s.delivered
    ensures forall i :: s.delivered < i <= r.delivered ==> ClosedAt(s, i)
    ensures !ClosedAt(s, r.delivered + 1)
    ensures |r.log| == |s.log| + (r.delivered - s.delivered)
    ensures forall i :: 0 <= i < |s.log| ==> r.log[i] == s.log[i]
    ensures forall i {:trigger r.log[i]} :: |s.log| <= i < |r.log| ==>
              ClosedAt(s, s.delivered + 1 + i - |s.log|) && r.log[i] == DeliveryOf(s, s.delivered + 1 + i - |s.log|)
    ensures r == s.(delivered := r.delivered, log := r.log)
    decreases |Undelivered(s)|
  {
    var i := s.delivered + 1;
    if !ClosedAt(s, i) then s else
      var s' := DeliverOne(s);
      assert Undelivered(s') == Undelivered(s) - {i} && i in Undelivered(s);
      var r := DeliverPrefix(s');
      assert forall k :: s'.delivered < k <= r.delivered ==> ClosedAt(s', k) == ClosedAt(s, k);
      r
  }

  function See(s: State, iid: int): State {
    s.(seen := if iid > s.seen then iid else s.seen)
  }

  function HandleLearn(s: State, m: Learn): State {
    var s1 := See(s, m.iid);
    if !InWindow(s, m.iid) then s1 else
      var r := Get(s, m.iid);
      var r' := Offer(s.n, r, m);
      var s2 := s1.(recs := s.recs[m.iid := r']);
      if r.closed.None? && r'.closed.Some? && m.iid == s.delivered + 1 then DeliverPrefix(s2) else s2
  }

  function Run(n: nat, window: nat, ms: seq<Learn>): State {
    if ms == [] then Init(n, window) else HandleLearn(Run(n, window, ms[..|ms| - 1]), ms[|ms| - 1])
  }

  // ---------- what holds between messages ----------

  predicate RecOk(n: nat, iid: int, r: Rec) {
    && |r.learns| == n
    && (forall a :: 0 <= a < n && r.learns[a].Some? ==>
          r.learns[a].value.acceptorId == a && r.learns[a].value.iid == iid)
  }

  /** The record is closed by a quorum of stored learns of one ballot, one of which gave the value. */
  ghost predicate ClosedByQuorum(n: nat, r: Rec)
    requires r.closed.Some?
  {
    var c := r.closed.value;
    && |Voters(r.learns, c.ballot)| >= Quorum(n)
    && exists a :: a in Voters(r.learns, c.ballot)
                && r.learns[a].value.value == c.value && r.learns[a].value.proposerId == c.proposerId
  }

  ghost predicate NoQuorum(n: nat, r: Rec) {
    forall b :: |Voters(r.learns, b)| < Quorum(n)
  }

  ghost predicate Settled(n: nat, iid: int, r: Rec) {
    && RecOk(n, iid, r)
    && (if r.closed.Some? then ClosedByQuorum(n, r) else NoQuorum(n, r))
  }

  ghost predicate Consistent(s: State) {
    && s.delivered >= -1
    && (forall i :: i in s.recs ==> 0 <= i < s.delivered + s.window && Settled(s.n, i, s.recs[i]))
    && |s.log| == s.delivered + 1
    && (forall i :: 0 <= i <= s.delivered ==> ClosedAt(s, i) && s.log[i] == DeliveryOf(s, i))
  }

  ghost predicate Inv(s: State) {
    Consistent(s) && !ClosedAt(s, s.delivered + 1)
  }

  lemma FreshHasNoQuorum(n: nat, iid: int)
    ensures Settled(n, iid, Fresh(n))
  {
    forall b ensures |Voters(Fresh(n).learns, b)| < Quorum(n) {
      assert Voters(Fresh(n).learns, b) == {};
    }
  }

  lemma OfferKeepsSettled(n: nat, r: Rec, m: Learn)
    requires Settled(n, m.iid, r)
    ensures Settled(n, m.iid, Offer(n, r, m))
  {
    if r.closed.None? && Stores(r, m) {
      var learns := r.learns[m.acceptorId := Some(m)];
      assert m.acceptorId in Voters(learns, m.ballot);
      if |Voters(learns, m.ballot)| < Quorum(n) {
        forall b ensures |Voters(learns, b)| < Quorum(n) {
          if b != m.ballot {
            assert Voters(learns, b) <= Voters(r.learns, b);
            SubsetSize(Voters(learns, b), Voters(r.learns, b));
          }
        }
      }
    }
  }

  /** s with the record of m.iid after the message, before any delivery. */
  function Recorded(s: State, m: Learn): State {
    See(s, m.iid).(recs := s.recs[m.iid := Offer(s.n, Get(s, m.iid), m)])
  }

  lemma RecordingKeepsConsistent(s: State, m: Learn)
    requires Inv(s) && InWindow(s, m.iid)
    ensures Consistent(Recorded(s, m))
    ensures m.iid != s.delivered + 1 || Get(s, m.iid).closed.Some? || Offer(s.n, Get(s, m.iid), m).closed.None?
            ==> Inv(Recorded(s, m))
  {
    var t := Recorded(s, m);
    FreshHasNoQuorum(s.n, m.iid);
    OfferKeepsSettled(s.n, Get(s, m.iid), m);
    forall i | i != m.iid ensures Get(t, i) == Get(s, i) {}
    forall i | 0 <= i <= t.delivered ensures ClosedAt(t, i) && t.log[i] == DeliveryOf(t, i) {
      assert ClosedAt(s, i) && s.log[i] == DeliveryOf(s, i);
    }
  }

  lemma DeliveringOneKeepsConsistent(s: State)
    requires Consistent(s) && ClosedAt(s, s.delivered + 1)
    ensures Consistent(DeliverOne(s))
    ensures |Undelivered(DeliverOne(s))| < |Undelivered(s)|
  {
    var t := DeliverOne(s);
    assert Undelivered(t) == Undelivered(s) - {t.delivered} && t.delivered in Undelivered(s);
    forall i ensures Get(t, i) == Get(s, i) {}
    forall i | 0 <= i <= t.delivered ensures ClosedAt(t, i) && t.log[i] == DeliveryOf(t, i) {
      if i <= s.delivered {
        assert ClosedAt(s, i) && s.log[i] == DeliveryOf(s, i);
      }
    }
  }

  lemma DeliveringGivesInv(s: State)
    requires Consistent(s)
    ensures Inv(DeliverPrefix(s))
  {
    var t := DeliverPrefix(s);
    forall i ensures Get(t, i) == Get(s, i) {}
    forall i | 0 <= i <= t.delivered ensures ClosedAt(t, i) && t.log[i] == DeliveryOf(t, i) {
      if i <= s.delivered {
        assert ClosedAt(s, i) && s.log[i] == DeliveryOf(s, i);
      } else {
        assert t.log[i] == DeliveryOf(s, s.delivered + 1 + i - |s.log|);
      }
    }
  }

  lemma HandleLearnKeepsInv(s: State, m: Learn)
    requires Inv(s)
    ensures Inv(HandleLearn(s, m))
    ensures HandleLearn(s, m).n == s.n && HandleLearn(s, m).window == s.window
    ensures HandleLearn(s, m).delivered >= s.delivered
    ensures s.log <= HandleLearn(s, m).log
  {
    if InWindow(s, m.iid) {
      RecordingKeepsConsistent(s, m);
      DeliveringGivesInv(Recorded(s, m));
    } else {
      var t := HandleLearn(s, m);
      forall i ensures Get(t, i) == Get(s, i) {}
      forall i | 0 <= i <= t.delivered ensures ClosedAt(t, i) && t.log[i] == DeliveryOf(t, i) {
        assert ClosedAt(s, i) && s.log[i] == DeliveryOf(s, i);
      }
    }
  }

  /** Whatever the messages: no open record is left with a quorum, and the deliveries are 0, 1, 2, ... */
  lemma {:induction false} RunKeepsInv(n: nat, window: nat, ms: seq<Learn>)
    ensures Inv(Run(n, window, ms))
    ensures Run(n, window, ms).n == n && Run(n, window, ms).window == window
  {
    if ms == [] {
    } else {
      RunKeepsInv(n, window, ms[..|ms| - 1]);
      HandleLearnKeepsInv(Run(n, window, ms[..|ms| - 1]), ms[|ms| - 1]);
    }
  }

  /** In-order, exactly-once delivery, and instance delivered + 1 is never left closed. */
  lemma {:induction false} DeliversInOrder(n: nat, window: nat, ms: seq<Learn>)
    ensures var s := Run(n, window, ms);
            && |s.log| == s.delivered + 1
            && (forall i :: 0 <= i < |s.log| ==> s.log[i].iid == i)
            && !ClosedAt(s, s.delivered + 1)
  {
    RunKeepsInv(n, window, ms);
  }

  /** highest_seen is the highest instance heard of, or -1. */
  lemma {:induction false} SeenIsHighest(n: nat, window: nat, ms: seq<Learn>)
    ensures var seen := Run(n, window, ms).seen;
            && (forall m :: m in ms ==> m.iid <= seen)
            && (seen == -1 || exists m :: m in ms && m.iid == seen)
  {
    if ms == [] {
    } else {
      var before, m := ms[..|ms| - 1], ms[|ms| - 1];
      SeenIsHighest(n, window, before);
      assert ms == before + [m] && m in ms;
      var seen := Run(n, window, before).seen;
      if m.iid <= seen && seen != -1 {
        var k :| k in before && k.iid == seen;
        assert k in ms;
      }
    }
  }

  // ---------- one record is a fold over the messages it was offered ----------

  /** The messages of the run that met the record of iid while it was in the window and open. */
  function Offered(n: nat, window: nat, ms: seq<Learn>, iid: int): seq<Learn> {
    if ms == [] then [] else
      var s := Run(n, window, ms[..|ms| - 1]);
      var m := ms[|ms| - 1];
      Offered(n, window, ms[..|ms| - 1], iid)
      + if Reaches(s, m, iid) then [m] else []
  }

  function OfferAll(n: nat, ms: seq<Learn>): Rec {
    if ms == [] then Fresh(n) else Offer(n, OfferAll(n, ms[..|ms| - 1]), ms[|ms| - 1])
  }

  predicate Reaches(s: State, m: Learn, iid: int) {
    m.iid == iid && InWindow(s, iid) && !ClosedAt(s, iid)
  }

  lemma StepOnRecord(s: State, m: Learn, iid: int)
    ensures Get(HandleLearn(s, m), iid) == if Reaches(s, m, iid) then Offer(s.n, Get(s, iid), m) else Get(s, iid)
  {
    if InWindow(s, m.iid) {
      assert Get(DeliverPrefix(Recorded(s, m)), iid) == Get(Recorded(s, m), iid);
    }
  }

  /** A record is the result of offering it, in order, the messages that reached it. */
  lemma {:induction false} RecordIsFoldOfOffers(n: nat, window: nat, ms: seq<Learn>, iid: int)
    ensures Get(Run(n, window, ms), iid) == OfferAll(n, Offered(n, window, ms, iid))
  {
    if ms == [] {
    } else {
      var before := ms[..|ms| - 1];
      var offers := Offered(n, window, before, iid);
      RecordIsFoldOfOffers(n, window, before, iid);
      RunKeepsInv(n, window, before);
      StepOnRecord(Run(n, window, before), ms[|ms| - 1], iid);
      assert (offers + [ms[|ms| - 1]])[..|offers|] == offers;
      assert offers + [] == offers;
    }
  }

  lemma {:induction false} OffersAreMessages(n: nat, window: nat, ms: seq<Learn>, iid: int)
    ensures forall m :: m in Offered(n, window, ms, iid) ==> m in ms && m.iid == iid
  {
    if ms == [] {
    } else {
      OffersAreMessages(n, window, ms[..|ms| - 1], iid);
    }
  }

  /** Every offer but the last met an open record. */
  lemma {:induction false} OffersMeetOpenRecords(n: nat, window: nat, ms: seq<Learn>, iid: int, k: nat)
    requires k < |Offered(n, window, ms, iid)|
    ensures OfferAll(n, Offered(n, window, ms, iid)[..k]).closed.None?
  {
    var before := ms[..|ms| - 1];
    var all := Offered(n, window, ms, iid);
    var offers := Offered(n, window, before, iid);
    if k < |offers| {
      OffersMeetOpenRecords(n, window, before, iid, k);
      assert all[..k] == offers[..k];
    } else {
      RecordIsFoldOfOffers(n, window, before, iid);
      assert all[..k] == offers;
    }
  }

  /** l is the earliest among the learns of acceptor a in ms with the highest ballot. */
  ghost predicate FirstHighest(ms: seq<Learn>, a: int, l: Learn) {
    exists k :: 0 <= k < |ms| && ms[k] == l && l.acceptorId == a
      && (forall i :: 0 <= i < |ms| && ms[i].acceptorId == a ==> ms[i].ballot <= l.ballot)
      && (forall i :: 0 <= i < k && ms[i].acceptorId == a ==> ms[i].ballot < l.ballot)
  }

  lemma FirstHighestGrows(ms: seq<Learn>, a: int, l: Learn, m: Learn)
    requires FirstHighest(ms, a, l)
    ensures m.acceptorId != a || m.ballot <= l.ballot ==> FirstHighest(ms + [m], a, l)
    ensures m.acceptorId == a && m.ballot > l.ballot ==> FirstHighest(ms + [m], a, m)
  {
    var k :| 0 <= k < |ms| && ms[k] == l && l.acceptorId == a
      && (forall i :: 0 <= i < |ms| && ms[i].acceptorId == a ==> ms[i].ballot <= l.ballot)
      && (forall i :: 0 <= i < k && ms[i].acceptorId == a ==> ms[i].ballot < l.ballot);
    assert (ms + [m])[k] == l && (ms + [m])[|ms|] == m;
  }

  lemma FirstHighestStarts(ms: seq<Learn>, a: int, m: Learn)
    requires m.acceptorId == a && forall k :: k in ms ==> k.acceptorId != a
    ensures FirstHighest(ms + [m], a, m)
  {
    var all := ms + [m];
    assert all[|ms|] == m;
    forall i | 0 <= i < |ms| ensures all[i].acceptorId != a {
      assert all[i] in ms;
    }
  }

  ghost predicate HoldsHighest(r: Rec, ms: seq<Learn>, a: int)
    requires 0 <= a < |r.learns|
  {
    && (r.learns[a].None? <==> forall m :: m in ms ==> m.acceptorId != a)
    && (r.learns[a].Some? ==> FirstHighest(ms, a, r.learns[a].value))
  }

  lemma OfferStoresHighest(n: nat, r: Rec, ms: seq<Learn>, m: Learn, a: int)
    requires 0 <= a < n == |r.learns| && r.closed.None?
    requires HoldsHighest(r, ms, a)
    ensures |Offer(n, r, m).learns| == n && HoldsHighest(Offer(n, r, m), ms + [m], a)
  {
    assert m in ms + [m];
    assert Offer(n, r, m).learns[a] == if m.acceptorId == a && Stores(r, m) then Some(m) else r.learns[a];
    if r.learns[a].Some? {
      FirstHighestGrows(ms, a, r.learns[a].value, m);
      assert r.learns[a].value in ms + [m];
    } else if m.acceptorId == a {
      FirstHighestStarts(ms, a, m);
    }
  }

  /** As long as the record is open, each acceptor's slot holds its highest offer, or nothing if it made none. */
  lemma {:induction false} StoredIsHighestOffered(n: nat, ms: seq<Learn>, a: int)
    requires 0 <= a < n
    requires forall k :: 0 <= k < |ms| ==> OfferAll(n, ms[..k]).closed.None?
    ensures |OfferAll(n, ms).learns| == n && HoldsHighest(OfferAll(n, ms), ms, a)
  {
    if ms == [] {
    } else {
      var before := ms[..|ms| - 1];
      var m := ms[|ms| - 1];
      forall k | 0 <= k < |before| ensures OfferAll(n, before[..k]).closed.None? {
        assert before[..k] == ms[..k];
      }
      StoredIsHighestOffered(n, before, a);
      assert ms == before + [m];
      OfferStoresHighest(n, OfferAll(n, before), before, m, a);
    }
  }

  /** The same, for any record of any run of the learner. */
  lemma Promptness(n: nat, window: nat, ms: seq<Learn>, iid: int, a: int)
    requires 0 <= a < n
    ensures var r := Get(Run(n, window, ms), iid);
            var offers := Offered(n, window, ms, iid);
            && |r.learns| == n
            && (r.closed.None? ==> NoQuorum(n, r))
            && HoldsHighest(r, offers, a)
  {
    var offers := Offered(n, window, ms, iid);
    RunKeepsInv(n, window, ms);
    FreshHasNoQuorum(n, iid);
    RecordIsFoldOfOffers(n, window, ms, iid);
    forall k | 0 <= k < |offers| ensures OfferAll(n, offers[..k]).closed.None? {
      OffersMeetOpenRecords(n, window, ms, iid, k);
    }
    StoredIsHighestOffered(n, offers, a);
  }

  // ---------- what a delivery rests on ----------

  /** A delivered value was carried by a learn of a ballot that a quorum of acceptors sent learns for. */
  lemma DeliveryRestsOnQuorum(n: nat, window: nat, ms: seq<Learn>, iid: int) returns (ballot: int, voters: set<int>)
    requires 0 <= iid < |Run(n, window, ms).log|
    ensures |voters| >= Quorum(n) && voters <= Ids(n)
    ensures forall a :: a in voters ==> exists m :: m in ms && m.acceptorId == a && m.iid == iid && m.ballot == ballot
    ensures exists m :: m in ms && m.acceptorId in voters && m.iid == iid && m.ballot == ballot
                     && m.value == Run(n, window, ms).log[iid].value
                     && m.proposerId == Run(n, window, ms).log[iid].proposerId
    ensures Run(n, window, ms).log[iid].iid == iid
  {
    var s := Run(n, window, ms);
    RunKeepsInv(n, window, ms);
    assert ClosedAt(s, iid) && s.log[iid] == DeliveryOf(s, iid);
    var r := Get(s, iid);
    assert Settled(n, iid, s.recs[iid]);
    var c := r.closed.value;
    ballot, voters := c.ballot, Voters(r.learns, c.ballot);
    var offers := Offered(n, window, ms, iid);
    OffersAreMessages(n, window, ms, iid);
    forall a | a in voters ensures r.learns[a].value in ms {
      Promptness(n, window, ms, iid, a);
      assert FirstHighest(offers, a, r.learns[a].value);
      assert r.learns[a].value in offers;
    }
    forall a | a in voters ensures exists m :: m in ms && m.acceptorId == a && m.iid == iid && m.ballot == ballot {
      assert r.learns[a].value in ms;
    }
    var a :| a in voters && r.learns[a].value.value == c.value && r.learns[a].value.proposerId == c.proposerId;
    assert r.learns[a].value in ms;
  }

  /** A learn in the window, from a known acceptor and newer than its last one, is kept while its record is open. */
  lemma NewsIsStored(s: State, m: Learn)
    requires s.delivered < m.iid < s.delivered + s.window && Get(s, m.iid).closed.None?
    requires 0 <= m.acceptorId < |Get(s, m.iid).learns|
    requires var l := Get(s, m.iid).learns[m.acceptorId]; l.None? || l.value.ballot < m.ballot
    ensures Get(HandleLearn(s, m), m.iid).learns == Get(s, m.iid).learns[m.acceptorId := Some(m)]
  {
  }

  /** Outside the window, in a closed record, or if it is no news, a learn changes no record and delivers nothing. */
  lemma OthersAreIgnored(s: State, m: Learn, i: int)
    requires
      || m.iid <= s.delivered || m.iid >= s.delivered + s.window || Get(s, m.iid).closed.Some?
      || m.acceptorId < 0 || m.acceptorId >= |Get(s, m.iid).learns|
      || (var l := Get(s, m.iid).learns[m.acceptorId]; l.Some? && l.value.ballot >= m.ballot)
    ensures Get(HandleLearn(s, m), i) == Get(s, i) && HandleLearn(s, m).log == s.log
  {
  }
}
