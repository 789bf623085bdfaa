/** Phase 1's packets: every pending instance was asked for, in the leader's own ballots, and each packet fits. */
module LeaderRequests {
  import opened Common
  import opened LeaderModel
  import opened LeaderWindow

  /** The ballots of one leader: its first, and every MAX_PROPOSERS-th from there. */
  predicate OwnBallot(c: Config, ballot: int) {
    ballot >= FirstBallot(c.id) && (ballot - FirstBallot(c.id)) % MAX_PROPOSERS == 0
  }

  predicate Ascending(ps: seq<Prepare>) {
    forall i, j :: 0 <= i < j < |ps| ==> ps[i].iid < ps[j].iid
  }

  /** A packet within the datagram size and in the leader's ballots; the prepares of one packet ascend. */
  predicate WellPacked(c: Config, p: Packet) {
    match p
    case Prepares(ps) =>
      PreparePacketSize(|ps|) <= MAX_UDP_MSG_SIZE && Ascending(ps) && forall q :: q in ps ==> OwnBallot(c, q.ballot)
    case Anyvals(ballot, iids) => iids != [] && AnyvalPacketSize(|iids|) <= MAX_UDP_MSG_SIZE && OwnBallot(c, ballot)
    case AcceptPacket(_) => true
  }

  /** The prepare of a record, in its present ballot. */
  function Request(slot: Slot): Prepare {
    Prepare(slot.iid, slot.ballot)
  }

  predicate Requested(packets: seq<Packet>, batch: seq<Prepare>, p: Prepare) {
    p in batch || exists k :: 0 <= k < |packets| && packets[k].Prepares? && p in packets[k].prepares
  }

  ghost predicate Packed(c: Config, s: State) {
    && Shaped(c, s)
    && (forall p :: p in s.sent ==> WellPacked(c, p))
    && (forall k :: 0 <= k < c.size && s.slots[k].status != New ==> OwnBallot(c, s.slots[k].ballot))
  }

  /** Between events: every pending record's request is on the network. */
  ghost predicate Asked(c: Config, s: State) {
    && Packed(c, s)
    && (forall k :: 0 <= k < c.size && s.slots[k].status == Pending ==> Requested(s.sent, [], Request(s.slots[k])))
  }

  /** While a packet is being filled: its instances are at most `top`, and it has room for one more. */
  ghost predicate Asking(c: Config, s: State, top: int) {
    && Packed(c, s)
    && WellPacked(c, Prepares(s.batch)) && PreparePacketSize(|s.batch| + 1) <= MAX_UDP_MSG_SIZE
    && (forall p :: p in s.batch ==> p.iid <= top)
    && (forall k :: 0 <= k < c.size && s.slots[k].status == Pending ==> Requested(s.sent, s.batch, Request(s.slots[k])))
  }

  lemma RequestedStays(packets: seq<Packet>, batch: seq<Prepare>,
                       packets': seq<Packet>, batch': seq<Prepare>, p: Prepare)
    requires Requested(packets, batch, p) && packets <= packets'
    requires
      || batch <= batch'
      || (|packets'| > |packets| && packets'[|packets|].Prepares? && batch <= packets'[|packets|].prepares)
    ensures Requested(packets', batch', p)
  {
    if p in batch {
      var i :| 0 <= i < |batch| && batch[i] == p;
      if batch <= batch' {
        assert batch'[i] == p;
      } else {
        assert packets'[|packets|].prepares[i] == p;
      }
    } else {
      var k :| 0 <= k < |packets| && packets[k].Prepares? && p in packets[k].prepares;
      assert packets'[k] == packets[k];
    }
  }

  /** A record in slot k moves to a pending one above everything asked for so far, and is asked for. */
  lemma AskingOneMore(c: Config, s: State, k: nat, slot: Slot, top: int)
    requires Asking(c, s, top) && k < c.size && |slot.promises| == c.n
    requires slot.iid > top && OwnBallot(c, slot.ballot)
    ensures Asking(c, AddPrepare(s.(slots := s.slots[k := slot]), Request(slot)), slot.iid)
  {
    var t := s.(slots := s.slots[k := slot]);
    var r := AddPrepare(t, Request(slot));
    var full := s.batch + [Request(slot)];
    assert WellPacked(c, Prepares(full));
    forall p | p in r.sent ensures WellPacked(c, p) {
      if p !in s.sent { assert p == Prepares(full); }
    }
    forall j | 0 <= j < c.size && r.slots[j].status == Pending ensures Requested(r.sent, r.batch, Request(r.slots[j])) {
      if j == k {
        assert full[|s.batch|] == Request(slot);
        assert Requested(s.sent, full, Request(slot));
        if r.batch != full { assert r.sent[|s.sent|] == Prepares(full); }
      } else {
        RequestedStays(s.sent, s.batch, r.sent, r.batch, Request(s.slots[j]));
      }
    }
  }

  lemma NextIsOwn(c: Config, ballot: int)
    requires OwnBallot(c, ballot)
    ensures OwnBallot(c, NextBallot(ballot))
  {
  }

  lemma {:induction false} RestartFromAsks(c: Config, s: State, i: int)
    requires Asking(c, s, i - 1) && i <= s.lastToCheck + 1
    ensures Asking(c, RestartFrom(c, s, i), s.lastToCheck)
    decreases Remaining(i, s.lastToCheck)
  {
    if i > s.lastToCheck {
    } else {
      var k := i % c.size;
      if s.slots[k].iid == i && s.slots[k].status == Pending {
        var slot := Restarted(c.n, s.slots[k]);
        NextIsOwn(c, s.slots[k].ballot);
        AskingOneMore(c, s, k, slot, i - 1);
        RestartFromAsks(c, AddPrepare(s.(slots := s.slots[k := slot]), Request(slot)), i + 1);
      } else {
        RestartFromAsks(c, s, i + 1);
      }
    }
  }

  lemma OpeningAsks(c: Config, s: State, i: int, top: int)
    requires Asking(c, s, top) && OpenedUpTo(c, s.slots, i - 1) && 0 <= i && top < i
    ensures s.slots[i % c.size].iid < i || s.slots[i % c.size].status == New
    ensures var r := AddPrepare(Opening(c, s, i), Prepare(i, FirstBallot(c.id)));
            Asking(c, r, i) && OpenedUpTo(c, r.slots, i)
  {
    OpeningOneMore(c, s.slots, i);
    AskingOneMore(c, Opening(c, s, i).(slots := s.slots), i % c.size, OpenedSlot(c.n, i, c.id), top);
  }

  lemma {:induction false} OpenFromAsks(c: Config, s: State, i: int, to: int, top: int)
    requires Asking(c, s, top) && OpenedUpTo(c, s.slots, top) && 0 <= i <= top + 1
    ensures Asking(c, OpenFrom(c, s, i, to), Max(top, to))
    decreases Remaining(i, to)
  {
    if i > to {
    } else {
      if i <= top {
        OpenFromAsks(c, s, i + 1, to, top);
      } else {
        OpeningAsks(c, s, i, top);
        OpenFromAsks(c, AddPrepare(Opening(c, s, i), Prepare(i, FirstBallot(c.id))), i + 1, to, i);
      }
    }
  }

  /** Flushing makes what was being asked for asked for; with nothing in the packet it already is. */
  lemma FlushingAsks(c: Config, s: State, t: State, top: int)
    requires Asking(c, s, top) && t.slots == s.slots
    requires t.sent == (if s.batch == [] then s.sent else s.sent + [Prepares(s.batch)])
    ensures Asked(c, t)
  {
    forall k | 0 <= k < c.size && t.slots[k].status == Pending ensures Requested(t.sent, [], Request(t.slots[k])) {
      RequestedStays(s.sent, s.batch, t.sent, [], Request(s.slots[k]));
    }
    forall p | p in t.sent ensures WellPacked(c, p) {
      if p !in s.sent { assert p == Prepares(s.batch); }
    }
  }

  lemma FlushingKeepsAsking(c: Config, s: State, t: State, top: int)
    requires Asking(c, s, top) && t.slots == s.slots && t.batch == s.batch
    requires t.sent == s.sent || t.sent == s.sent + [Prepares(s.batch)]
    ensures Asking(c, t, top)
  {
    forall k | 0 <= k < c.size && t.slots[k].status == Pending ensures Requested(t.sent, t.batch, Request(t.slots[k])) {
      RequestedStays(s.sent, s.batch, t.sent, t.batch, Request(s.slots[k]));
    }
    forall p | p in t.sent ensures WellPacked(c, p) {
      if p !in s.sent { assert p == Prepares(s.batch); }
    }
  }

  lemma ExecutePhase1Asks(c: Config, s: State, top: int)
    requires Asking(c, s, top) && OpenedUpTo(c, s.slots, top) && -1 <= s.highestReady <= top
    ensures Asking(c, ExecutePhase1(c, s), Max(top, s.highestReady + 1 + c.window))
    ensures Asked(c, ExecutePhase1(c, s))
  {
    var from, to := s.highestReady + 1, s.highestReady + 1 + c.window;
    OpenFromAsks(c, s, from, to, top);
    var s1 := OpenFrom(c, s, from, to);
    FlushingKeepsAsking(c, s1, ExecutePhase1(c, s), Max(top, to));
    FlushingAsks(c, s1, ExecutePhase1(c, s), Max(top, to));
  }

  lemma Phase1CheckAsks(c: Config, s: State)
    requires Asked(c, s) && Conserved(c, s)
    ensures Asked(c, Phase1Check(c, s))
  {
    var s0 := s.(batch := []);
    assert Asking(c, s0, s.firstToCheck - 1) && Asking(c, s0, s.lastToCheck);
    if s.firstToCheck <= s.lastToCheck {
      RestartFromAsks(c, s0, s.firstToCheck);
    }
    RestartKeepsInstances(c, s0, s.firstToCheck);
    var s1 := RestartFrom(c, s0, s.firstToCheck);
    SameInstancesKeepOpened(c, s0.slots, s1.slots, s.lastToCheck);
    if s1.pendingCount + s1.readyCount < c.window / 2 {
      ExecutePhase1Asks(c, s1, s.lastToCheck);
      FlushingAsks(c, ExecutePhase1(c, s1), Phase1Check(c, s), Max(s.lastToCheck, s1.highestReady + 1 + c.window));
    } else {
      FlushingAsks(c, s1, Phase1Check(c, s), s.lastToCheck);
    }
  }

  lemma Phase2CheckAsks(c: Config, s: State)
    requires Asked(c, s) && CheckHolds(c, s) && Conserved(c, s)
    ensures Asked(c, Phase2Check(c, s))
  {
    if s.currentIid == s.checkedIid {
      var k := s.currentIid % c.size;
      var slot := Restarted(c.n, s.slots[k]);
      var s0 := s.(batch := []);
      assert s.slots[k].status != New;
      NextIsOwn(c, s.slots[k].ballot);
      assert Asking(c, s0, slot.iid - 1);
      AskingOneMore(c, s0, k, slot, slot.iid - 1);
      var s1 := AddPrepare(s0.(slots := s.slots[k := slot]), Request(slot));
      FlushingAsks(c, s1, Phase2Check(c, s), slot.iid);
    }
  }

  /** Steps after which nothing more is pending, and no prepare is sent. */
  lemma OthersKeepAsked(c: Config, s: State, t: State)
    requires Asked(c, s) && Shaped(c, t) && s.sent <= t.sent
    requires forall p :: p in t.sent ==> WellPacked(c, p)
    requires forall k :: 0 <= k < c.size ==>
      && (t.slots[k].status != New ==> s.slots[k].status != New && t.slots[k].ballot == s.slots[k].ballot)
      && (t.slots[k].status == Pending ==> s.slots[k].status == Pending && t.slots[k].iid == s.slots[k].iid)
    ensures Asked(c, t)
  {
    forall k | 0 <= k < c.size && t.slots[k].status == Pending ensures Requested(t.sent, [], Request(t.slots[k])) {
      RequestedStays(s.sent, [], t.sent, [], Request(s.slots[k]));
    }
  }

  lemma {:induction false} HandlePromisesKeepsAsked(c: Config, s: State, a: int, ps: seq<Promise>)
    requires Asked(c, s) && 0 <= a < c.n
    ensures Asked(c, HandlePromises(c, s, a, ps))
    decreases |ps|
  {
    if ps == [] {
    } else {
      OthersKeepAsked(c, s, HandlePromise(c, s, a, ps[0]));
      HandlePromisesKeepsAsked(c, HandlePromise(c, s, a, ps[0]), a, ps[1..]);
    }
  }

  /** The ANYVAL packet being filled has room for one more, and is empty or in one of the leader's ballots. */
  predicate AnyvalOpen(c: Config, s: State) {
    && AnyvalPacketSize(|s.anyIids| + 1) <= MAX_UDP_MSG_SIZE
    && (if s.anyIids == [] then s.anyBallot == -1 else OwnBallot(c, s.anyBallot))
  }

  lemma DecideKeepsAsked(c: Config, s: State, i: int)
    requires Asked(c, s) && AnyvalOpen(c, s) && s.slots[i % c.size].status == Ready && c.id >= 0
    ensures Asked(c, Decide(c, s, i)) && AnyvalOpen(c, Decide(c, s, i))
  {
    OthersKeepAsked(c, s, Decide(c, s, i));
  }

  lemma {:induction false} DecideFromKeepsAsked(c: Config, s: State, i: int, last: int)
    requires Asked(c, s) && AnyvalOpen(c, s) && c.id >= 0
    ensures Asked(c, DecideFrom(c, s, i, last)) && AnyvalOpen(c, DecideFrom(c, s, i, last))
    decreases Remaining(i, last)
  {
    if i > last {
    } else if s.slots[i % c.size].status != Ready {
      DecideFromKeepsAsked(c, s, i + 1, last);
    } else {
      DecideKeepsAsked(c, s, i);
      DecideFromKeepsAsked(c, Decide(c, s, i), i + 1, last);
    }
  }

  lemma HandlePromiseMsgKeepsAsked(c: Config, s: State, a: int, ps: seq<Promise>)
    requires Asked(c, s) && 0 <= a < c.n && c.id >= 0
    ensures Asked(c, HandlePromiseMsg(c, s, a, ps))
  {
    HandlePromisesKeepsAsked(c, s, a, ps);
    var s1 := HandlePromises(c, s, a, ps).(anyBallot := -1, anyIids := []);
    OthersKeepAsked(c, HandlePromises(c, s, a, ps), s1);
    DecideFromKeepsAsked(c, s1, FirstIid(ps), LastIid(ps));
    OthersKeepAsked(c, DecideFrom(c, s1, FirstIid(ps), LastIid(ps)), HandlePromiseMsg(c, s, a, ps));
  }

  /** The ANYVAL packets sent from index `from` on have no room for another instance. */
  predicate FullSince(sent: seq<Packet>, from: nat) {
    forall k :: from <= k < |sent| && sent[k].Anyvals? ==> AnyvalPacketSize(|sent[k].iids| + 1) > MAX_UDP_MSG_SIZE
  }

  /** Of the ANYVAL packets that one promise packet makes the leader send, all but the last are full. */
  lemma AnyvalsAreFull(c: Config, s: State, a: int, ps: seq<Promise>)
    requires Shaped(c, s) && 0 <= a < c.n
    ensures var t := HandlePromiseMsg(c, s, a, ps);
            && s.sent <= t.sent
            && forall j, k :: |s.sent| <= j < k < |t.sent| && t.sent[j].Anyvals? && t.sent[k].Anyvals? ==>
                 AnyvalPacketSize(|t.sent[j].iids| + 1) > MAX_UDP_MSG_SIZE
  {
    HandlePromisesKeepsSent(c, s, a, ps);
    var s1 := HandlePromises(c, s, a, ps).(anyBallot := -1, anyIids := []);
    var inv := (t: State) => s.sent <= t.sent && FullSince(t.sent, |s.sent|);
    forall t, j | Shaped(c, t) && inv(t) ensures inv(Decide(c, t, j)) {
    }
    DecideFromKeeps(c, s1, FirstIid(ps), LastIid(ps), inv);
  }

  predicate FullPrepares(p: Packet) {
    p.Prepares? && PreparePacketSize(|p.prepares| + 1) > MAX_UDP_MSG_SIZE
  }

  /** Since `before`, only full prepare packets have been sent. */
  predicate SentFull(before: seq<Packet>, sent: seq<Packet>) {
    before <= sent && forall k :: |before| <= k < |sent| ==> FullPrepares(sent[k])
  }

  lemma AddingSendsFull(before: seq<Packet>, s: State, p: Prepare)
    requires SentFull(before, s.sent)
    ensures SentFull(before, AddPrepare(s, p).sent)
  {
  }

  lemma RestartSendsFull(c: Config, s: State, i: int, before: seq<Packet>)
    requires Shaped(c, s) && SentFull(before, s.sent)
    ensures SentFull(before, RestartFrom(c, s, i).sent)
  {
    var inv := (t: State) => SentFull(before, t.sent);
    forall t, k | Shaped(c, t) && inv(t) && 0 <= k < c.size ensures inv(Restarting(c, t, k)) {
      var slot := Restarted(c.n, t.slots[k]);
      AddingSendsFull(before, t.(slots := t.slots[k := slot]), Prepare(slot.iid, slot.ballot));
    }
    RestartFromKeeps(c, s, i, inv);
  }

  lemma OpenSendsFull(c: Config, s: State, i: int, to: int, before: seq<Packet>)
    requires Shaped(c, s) && SentFull(before, s.sent)
    ensures SentFull(before, OpenFrom(c, s, i, to).sent)
  {
    var inv := (t: State) => SentFull(before, t.sent);
    forall t, j | Shaped(c, t) && inv(t) ensures inv(AddPrepare(Opening(c, t, j), Prepare(j, FirstBallot(c.id)))) {
      AddingSendsFull(before, Opening(c, t, j), Prepare(j, FirstBallot(c.id)));
    }
    OpenFromKeeps(c, s, i, to, inv);
  }

  /** Of the packets that a phase 1 tick makes the leader send, all but the last, and a copy of it, are full. */
  lemma PreparesAreFull(c: Config, s: State)
    requires Shaped(c, s)
    ensures var t := Phase1Check(c, s);
            && s.sent <= t.sent
            && forall j, k :: |s.sent| <= j < k < |t.sent| ==> FullPrepares(t.sent[j]) || t.sent[j] == t.sent[k]
  {
    var s1 := RestartFrom(c, s.(batch := []), s.firstToCheck);
    RestartSendsFull(c, s.(batch := []), s.firstToCheck, s.sent);
    OpenSendsFull(c, s1, s1.highestReady + 1, s1.highestReady + 1 + c.window, s.sent);
  }

  /**
   * In every run each pending instance's prepare, in the ballot the leader waits for, has been sent; every
   * packet fits a datagram, every prepare packet ascends, and all prepares and ANYVALs are in the leader's own
   * ballots.
   */
  lemma {:induction false} PendingMeansAsked(c: Config, es: seq<Event>)
    requires c.size > 0 && c.id >= 0 && WellSent(c, es) && InOrder(es)
    ensures Run(c, es).Some? ==> Asked(c, Run(c, es).value)
  {
    if es == [] {
      assert Asking(c, Blank(c), -1);
      ExecutePhase1Asks(c, Blank(c), -1);
    } else {
      var before := es[..|es| - 1];
      PrefixInOrder(es);
      PendingMeansAsked(c, before);
      WindowConservation(c, before);
      if Run(c, before).Some? {
        var s := Run(c, before).value;
        match es[|es| - 1]
        case Delivered(iid) => OthersKeepAsked(c, s, Deliver(s, iid));
        case Phase1Timer => Phase1CheckAsks(c, s);
        case Promises(a, ps) => HandlePromiseMsgKeepsAsked(c, s, a, ps);
        case Phase2Timer => if CheckHolds(c, s) { Phase2CheckAsks(c, s); }
      }
    }
  }

  /** The ballots of a leader are the classic ones congruent to its id; its first is the lowest. */
  lemma OwnBallotIff(c: Config, ballot: int)
    requires IsProposer(c.id)
    ensures OwnBallot(c, ballot) <==> ballot >= MIN_BALLOT && ballot % MAX_PROPOSERS == c.id
    ensures OwnBallot(c, FirstBallot(c.id))
  {
  }

  /** Leaders with different ids never share a ballot. */
  lemma BallotsAreDisjoint(c: Config, c': Config, ballot: int)
    requires 0 <= c.id < MAX_PROPOSERS && 0 <= c'.id < MAX_PROPOSERS
    requires OwnBallot(c, ballot) && OwnBallot(c', ballot)
    ensures c.id == c'.id
  {
  }

  /**
   * Whose value an ACCEPT is said to carry: for a fast report the proposer whose fixed ballot it is in, for a
   * classic one the leader whose ballot it is in.
   */
  lemma AcceptNamesOwner(slot: Slot, i: Info)
    ensures forall p :: IsProposer(p) && i.valueBallot == FixedBallot(p) ==> AcceptOf(slot, i).proposerId == p
    ensures forall c: Config :: IsProposer(c.id) && OwnBallot(c, i.valueBallot) ==> AcceptOf(slot, i).proposerId == c.id
    ensures var a := AcceptOf(slot, i); a.iid == slot.iid && a.ballot == slot.ballot && a.value == i.value
  {
  }

  /** What fits a datagram: 1123 prepares, or 2246 instances of an ANYVAL. */
  lemma Capacities(count: nat)
    ensures PreparePacketSize(count) <= 9000 <==> count <= 1123
    ensures AnyvalPacketSize(count) <= 9000 <==> count <= 2246
  {
  }
}
