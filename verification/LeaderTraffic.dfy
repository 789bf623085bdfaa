/**
 * How wide the leader's own prepare packets are. A tick of phase 1 asks again for every pending instance, and in
 * the same packet for the instances it opens; the packet spans a ring or more exactly when one of the latter
 * takes the slot of one of the former.
 */
module LeaderTraffic {
  import opened Common
  import opened LeaderModel
  import opened LeaderWindow
  import opened LeaderRequests

  /** The instances of one request lie less than a ring apart. */
  predicate NarrowRequest(c: Config, ps: seq<Prepare>) {
    forall p, q :: p in ps && q in ps ==> p.iid - q.iid < c.size
  }

  /** Every prepare packet is narrow. */
  predicate NarrowSent(c: Config, sent: seq<Packet>) {
    forall k :: 0 <= k < |sent| && sent[k].Prepares? ==> NarrowRequest(c, sent[k].prepares)
  }

  /** The window that a tick would open reaches from here. */
  function WindowTop(c: Config, s: State): int {
    s.highestReady + 1 + c.window
  }

  predicate Opens(c: Config, s: State) {
    s.pendingCount + s.readyCount < c.window / 2
  }

  /** The next tick opens instances, one of them in the slot of a record that is still pending. */
  predicate Crowded(c: Config, s: State) {
    && Opens(c, s)
    && exists k :: 0 <= k < |s.slots| && s.slots[k].status == Pending && s.slots[k].iid + c.size <= WindowTop(c, s)
  }

  // ---------- packets between two instances ----------

  predicate Between(ps: seq<Prepare>, low: int, high: int) {
    forall p :: p in ps ==> low <= p.iid <= high
  }

  /** What t sent beyond s is prepare packets, and they and the packet being filled lie between low and high. */
  predicate SendsBetween(s: State, t: State, low: int, high: int) {
    && s.sent <= t.sent
    && Between(t.batch, low, high)
    && (forall k :: |s.sent| <= k < |t.sent| ==> t.sent[k].Prepares? && Between(t.sent[k].prepares, low, high))
  }

  lemma AddBetween(s: State, t: State, u: State, p: Prepare, low: int, high: int)
    requires SendsBetween(s, t, low, high) && low <= p.iid <= high
    requires u.sent == t.sent && u.batch == t.batch
    ensures SendsBetween(s, AddPrepare(u, p), low, high)
  {
    assert Between(t.batch + [p], low, high);
  }

  lemma FlushBetween(s: State, t: State, low: int, high: int)
    requires SendsBetween(s, t, low, high)
    ensures SendsBetween(s, FlushPrepares(t), low, high)
  {
  }

  lemma {:induction false} RestartFromBetween(c: Config, s: State, t: State, i: int, low: int)
    requires Shaped(c, t) && SendsBetween(s, t, low, t.lastToCheck)
    requires forall k :: 0 <= k < c.size && t.slots[k].status == Pending ==> low <= t.slots[k].iid
    ensures SendsBetween(s, RestartFrom(c, t, i), low, t.lastToCheck)
    decreases Remaining(i, t.lastToCheck)
  {
    if i > t.lastToCheck {
    } else {
      var k := i % c.size;
      if t.slots[k].iid == i && t.slots[k].status == Pending {
        var slot := Restarted(c.n, t.slots[k]);
        var u := t.(slots := t.slots[k := slot]);
        AddBetween(s, t, u, Prepare(slot.iid, slot.ballot), low, t.lastToCheck);
        RestartFromBetween(c, s, AddPrepare(u, Prepare(slot.iid, slot.ballot)), i + 1, low);
      } else {
        RestartFromBetween(c, s, t, i + 1, low);
      }
    }
  }

  lemma OpeningBetween(c: Config, s: State, t: State, i: int, to: int, low: int)
    requires Shaped(c, t) && OpenedUpTo(c, t.slots, i - 1) && 0 <= i <= to && low <= i && SendsBetween(s, t, low, to)
    ensures t.slots[i % c.size].iid < i || t.slots[i % c.size].status == New
    ensures var r := AddPrepare(Opening(c, t, i), Prepare(i, FirstBallot(c.id)));
            OpenedUpTo(c, r.slots, i) && SendsBetween(s, r, low, to)
  {
    OpeningOneMore(c, t.slots, i);
    AddBetween(s, t, Opening(c, t, i), Prepare(i, FirstBallot(c.id)), low, to);
  }

  lemma {:induction false} OpenFromBetween(c: Config, s: State, t: State, i: int, to: int, top: int, low: int)
    requires Shaped(c, t) && OpenedUpTo(c, t.slots, top) && 0 <= i <= top + 1 && low <= top + 1
    requires SendsBetween(s, t, low, Max(top, to))
    ensures SendsBetween(s, OpenFrom(c, t, i, to), low, Max(top, to))
    decreases Remaining(i, to)
  {
    if i > to {
    } else {
      if i <= top {
        OpenFromBetween(c, s, t, i + 1, to, top, low);
      } else {
        OpeningBetween(c, s, t, i, to, low);
        OpenFromBetween(c, s, AddPrepare(Opening(c, t, i), Prepare(i, FirstBallot(c.id))), i + 1, to, i, low);
      }
    }
  }

  /** A slot holds an instance of the last ring. */
  lemma SlotIsRecent(c: Config, slots: seq<Slot>, top: int, k: nat)
    requires |slots| == c.size > 0 && OpenedUpTo(c, slots, top) && k < c.size && slots[k].status != New
    ensures slots[k].iid > top - c.size
  {
    var i := slots[k].iid;
    RemainderUnique(i + c.size, i / c.size + 1, i % c.size, c.size);
    OpenedIsHeld(c, slots, top, slots[k].iid + c.size, k);
  }

  /** The lowest instance that the next tick's packets may hold, if it is not crowded, and the highest. */
  function TickHigh(c: Config, s: State): int {
    if Opens(c, s) then Max(s.lastToCheck, WindowTop(c, s)) else s.lastToCheck
  }

  function TickLow(c: Config, s: State): int {
    TickHigh(c, s) - c.size + 1
  }

  lemma PendingIsHigh(c: Config, s: State, k: nat)
    requires Conserved(c, s) && !Crowded(c, s) && k < c.size && s.slots[k].status == Pending
    ensures TickLow(c, s) <= s.slots[k].iid <= s.lastToCheck
  {
    SlotIsRecent(c, s.slots, s.lastToCheck, k);
  }

  lemma ExecutePhase1Between(c: Config, s: State, t: State, low: int)
    requires Shaped(c, t) && OpenedUpTo(c, t.slots, t.lastToCheck) && -1 <= t.highestReady <= t.lastToCheck
    requires low <= t.lastToCheck + 1 && SendsBetween(s, t, low, t.lastToCheck)
    ensures SendsBetween(s, ExecutePhase1(c, t), low, Max(t.lastToCheck, WindowTop(c, t)))
  {
    var high := Max(t.lastToCheck, WindowTop(c, t));
    OpenFromBetween(c, s, t, t.highestReady + 1, WindowTop(c, t), t.lastToCheck, low);
    FlushBetween(s, OpenFrom(c, t, t.highestReady + 1, WindowTop(c, t)), low, high);
  }

  /** The packets of a tick that is not crowded lie within one ring. */
  lemma QuietTickBetween(c: Config, s: State)
    requires Conserved(c, s) && !Crowded(c, s) && c.window < c.size
    ensures SendsBetween(s, Phase1Check(c, s), TickLow(c, s), TickHigh(c, s))
  {
    var low := TickLow(c, s);
    var s0 := s.(batch := []);
    forall k | 0 <= k < c.size && s.slots[k].status == Pending ensures low <= s.slots[k].iid {
      PendingIsHigh(c, s, k);
    }
    RestartFromBetween(c, s, s0, s.firstToCheck, low);
    RestartKeepsInstances(c, s0, s.firstToCheck);
    var s1 := RestartFrom(c, s0, s.firstToCheck);
    SameInstancesKeepOpened(c, s0.slots, s1.slots, s.lastToCheck);
    if Opens(c, s) {
      ExecutePhase1Between(c, s, s1, low);
      FlushBetween(s, ExecutePhase1(c, s1), low, TickHigh(c, s));
    } else {
      FlushBetween(s, s1, low, TickHigh(c, s));
    }
  }

  /** However wide they are, a tick's packets lie between 0 and its new last_to_check. */
  lemma TickBetween(c: Config, s: State)
    requires Conserved(c, s)
    ensures SendsBetween(s, Phase1Check(c, s), 0, TickHigh(c, s)) && Phase1Check(c, s).lastToCheck == TickHigh(c, s)
  {
    var s0 := s.(batch := []);
    RestartFromBetween(c, s, s0, s.firstToCheck, 0);
    RestartKeepsInstances(c, s0, s.firstToCheck);
    var s1 := RestartFrom(c, s0, s.firstToCheck);
    SameInstancesKeepOpened(c, s0.slots, s1.slots, s.lastToCheck);
    if Opens(c, s) {
      ExecutePhase1Between(c, s, s1, 0);
      ExecutePhase1Accounts(c, s1);
      FlushBetween(s, ExecutePhase1(c, s1), 0, TickHigh(c, s));
    } else {
      FlushBetween(s, s1, 0, TickHigh(c, s));
    }
  }

  lemma BetweenIsNarrow(c: Config, s: State, t: State, high: int)
    requires SendsBetween(s, t, high - c.size + 1, high)
    ensures NarrowSent(c, t.sent) <==> NarrowSent(c, s.sent)
  {
    forall k | 0 <= k < |s.sent| ensures t.sent[k] == s.sent[k] {}
  }

  // ---------- packet boundaries ----------

  /** The number of prepares at which a packet is sent off. */
  const CAP: int := (MAX_UDP_MSG_SIZE - PAXOS_MSG_SIZE - INT_SIZE) / PREPARE_SIZE

  /** The prepares, cut into full packets and a rest, are all narrow. */
  predicate NarrowPieces(c: Config, ps: seq<Prepare>) {
    if |ps| < CAP then NarrowRequest(c, ps) else NarrowRequest(c, ps[..CAP]) && NarrowPieces(c, ps[CAP..])
  }

  /** The packets sent and the one being filled. */
  datatype Out = Out(sent: seq<Packet>, batch: seq<Prepare>)

  function OutOf(s: State): Out {
    Out(s.sent, s.batch)
  }

  function Put(o: Out, p: Prepare): Out {
    var full := o.batch + [p];
    if |full| < CAP then Out(o.sent, full) else Out(o.sent + [Prepares(full)], [])
  }

  function PutAll(o: Out, ps: seq<Prepare>): Out
    decreases |ps|
  {
    if ps == [] then o else PutAll(Put(o, ps[0]), ps[1..])
  }

  predicate NarrowOut(c: Config, o: Out) {
    NarrowSent(c, o.sent) && NarrowRequest(c, o.batch)
  }

  lemma AddPuts(s: State, p: Prepare)
    requires |s.batch| < CAP
    ensures OutOf(AddPrepare(s, p)) == Put(OutOf(s), p)
  {
  }

  lemma {:induction false} PutAllAppends(o: Out, ps: seq<Prepare>, qs: seq<Prepare>)
    ensures PutAll(o, ps + qs) == PutAll(PutAll(o, ps), qs)
    decreases |ps|
  {
    if ps == [] {
      assert ps + qs == qs;
    } else {
      assert (ps + qs)[1..] == ps[1..] + qs;
      PutAllAppends(Put(o, ps[0]), ps[1..], qs);
    }
  }

  /** Prepares put out one by one end up in those pieces. */
  lemma {:induction false} PutAllIsNarrowIff(c: Config, o: Out, ps: seq<Prepare>)
    requires |o.batch| < CAP
    ensures |PutAll(o, ps).batch| < CAP
    ensures NarrowOut(c, PutAll(o, ps)) <==> NarrowSent(c, o.sent) && NarrowPieces(c, o.batch + ps)
    decreases |ps|
  {
    if ps == [] {
      assert o.batch + ps == o.batch;
    } else {
      var o1, all := Put(o, ps[0]), o.batch + ps;
      PutAllIsNarrowIff(c, o1, ps[1..]);
      if |o.batch| + 1 < CAP {
        assert o1.batch + ps[1..] == all;
      } else {
        assert all[..CAP] == o.batch + [ps[0]] && all[CAP..] == ps[1..] == o1.batch + ps[1..];
        OneMoreNarrow(c, o.sent, o.batch + [ps[0]]);
      }
    }
  }

  lemma OneMoreNarrow(c: Config, sent: seq<Packet>, ps: seq<Prepare>)
    ensures NarrowSent(c, sent + [Prepares(ps)]) <==> NarrowSent(c, sent) && NarrowRequest(c, ps)
  {
    var more := sent + [Prepares(ps)];
    assert more[|sent|] == Prepares(ps);
    forall k | 0 <= k < |sent| ensures more[k] == sent[k] {}
  }

  // ---------- what a tick asks for ----------

  /** What the loop of phase1_check_cb asks for, from instance i on. */
  function RestartRequests(c: Config, slots: seq<Slot>, i: int, last: int): seq<Prepare>
    requires |slots| == c.size > 0
    decreases Remaining(i, last)
  {
    if i > last then [] else
      var k := i % c.size;
      if slots[k].iid == i && slots[k].status == Pending then
        var slot := Restarted(c.n, slots[k]);
        [Prepare(slot.iid, slot.ballot)] + RestartRequests(c, slots[k := slot], i + 1, last)
      else
        RestartRequests(c, slots, i + 1, last)
  }

  /** What the loop of execute_phase1 asks for. */
  function OpenRequests(c: Config, slots: seq<Slot>, i: int, to: int): seq<Prepare>
    requires |slots| == c.size > 0
    decreases Remaining(i, to)
  {
    if i > to then [] else
      var k := i % c.size;
      if slots[k].iid < i || slots[k].status == New then
        [Prepare(i, FirstBallot(c.id))] + OpenRequests(c, slots[k := OpenedSlot(c.n, i, c.id)], i + 1, to)
      else
        OpenRequests(c, slots, i + 1, to)
  }

  lemma {:induction false} RestartFromPuts(c: Config, s: State, i: int)
    requires Shaped(c, s) && |s.batch| < CAP
    ensures var r := RestartFrom(c, s, i);
            |r.batch| < CAP && OutOf(r) == PutAll(OutOf(s), RestartRequests(c, s.slots, i, s.lastToCheck))
    decreases Remaining(i, s.lastToCheck)
  {
    if i > s.lastToCheck {
    } else {
      var k := i % c.size;
      if s.slots[k].iid == i && s.slots[k].status == Pending {
        var slot := Restarted(c.n, s.slots[k]);
        var p, s1 := Prepare(slot.iid, slot.ballot), s.(slots := s.slots[k := slot]);
        AddPuts(s1, p);
        RestartFromPuts(c, AddPrepare(s1, p), i + 1);
        PutsFirst(OutOf(s), p, RestartRequests(c, s1.slots, i + 1, s.lastToCheck));
      } else {
        RestartFromPuts(c, s, i + 1);
      }
    }
  }

  lemma PutsFirst(o: Out, p: Prepare, ps: seq<Prepare>)
    ensures PutAll(o, [p] + ps) == PutAll(Put(o, p), ps)
  {
    assert ([p] + ps)[1..] == ps;
  }

  lemma {:induction false} OpenFromPuts(c: Config, s: State, i: int, to: int)
    requires Shaped(c, s) && |s.batch| < CAP
    ensures var r := OpenFrom(c, s, i, to);
            |r.batch| < CAP && OutOf(r) == PutAll(OutOf(s), OpenRequests(c, s.slots, i, to))
    decreases Remaining(i, to)
  {
    if i > to {
    } else {
      var k := i % c.size;
      if s.slots[k].iid < i || s.slots[k].status == New {
        var p, s1 := Prepare(i, FirstBallot(c.id)), Opening(c, s, i);
        AddPuts(s1, p);
        OpenFromPuts(c, AddPrepare(s1, p), i + 1, to);
        PutsFirst(OutOf(s), p, OpenRequests(c, s1.slots, i + 1, to));
      } else {
        OpenFromPuts(c, s, i + 1, to);
      }
    }
  }

  /** What a tick asks for, in order: the pending instances again, and those it opens. */
  function TickRequests(c: Config, s: State): seq<Prepare>
    requires Shaped(c, s)
  {
    RestartRequests(c, s.slots, s.firstToCheck, s.lastToCheck)
    + if Opens(c, s) then OpenRequests(c, s.slots, s.highestReady + 1, WindowTop(c, s)) else []
  }

  /** Restarting leaves what is to be opened. */
  lemma {:induction false} SameOpenRequests(c: Config, a: seq<Slot>, b: seq<Slot>, i: int, to: int)
    requires |a| == c.size > 0 && SameInstances(a, b)
    ensures OpenRequests(c, a, i, to) == OpenRequests(c, b, i, to)
    decreases Remaining(i, to)
  {
    if i > to {
    } else {
      var k := i % c.size;
      if a[k].iid < i || a[k].status == New {
        var slot := OpenedSlot(c.n, i, c.id);
        SameOpenRequests(c, a[k := slot], b[k := slot], i + 1, to);
      } else {
        SameOpenRequests(c, a, b, i + 1, to);
      }
    }
  }

  /** What is being filled is sent off, unless it is empty; it stays in the buffer. */
  function Flushed(o: Out): Out {
    if |o.batch| > 0 then Out(o.sent + [Prepares(o.batch)], o.batch) else o
  }

  /** Once or twice, that makes no difference. */
  lemma FlushedIsNarrowIff(c: Config, o: Out)
    ensures NarrowSent(c, Flushed(o).sent) <==> NarrowOut(c, o)
    ensures NarrowOut(c, Flushed(o)) <==> NarrowOut(c, o)
  {
    OneMoreNarrow(c, o.sent, o.batch);
  }

  lemma OpeningPuts(c: Config, s: State, s1: State)
    requires Shaped(c, s) && s1 == RestartFrom(c, s, s.firstToCheck) && Opens(c, s) && |s.batch| < CAP
    ensures OutOf(OpenFrom(c, s1, s.highestReady + 1, WindowTop(c, s))) == PutAll(OutOf(s), TickRequests(c, s))
  {
    RestartFromPuts(c, s, s.firstToCheck);
    RestartKeepsInstances(c, s, s.firstToCheck);
    OpenFromPuts(c, s1, s.highestReady + 1, WindowTop(c, s));
    SameOpenRequests(c, s.slots, s1.slots, s.highestReady + 1, WindowTop(c, s));
    PutAllAppends(OutOf(s), RestartRequests(c, s.slots, s.firstToCheck, s.lastToCheck),
                  OpenRequests(c, s.slots, s.highestReady + 1, WindowTop(c, s)));
  }

  lemma TickFlushes(c: Config, s: State)
    requires Shaped(c, s)
    ensures var o := PutAll(Out(s.sent, []), TickRequests(c, s));
            OutOf(Phase1Check(c, s)) == if Opens(c, s) then Flushed(Flushed(o)) else Flushed(o)
  {
    var s0 := s.(batch := []);
    RestartFromPuts(c, s0, s.firstToCheck);
    RestartKeepsInstances(c, s0, s.firstToCheck);
    var s1 := RestartFrom(c, s0, s.firstToCheck);
    assert TickRequests(c, s0) == TickRequests(c, s);
    if Opens(c, s) {
      OpeningPuts(c, s0, s1);
    } else {
      var restarts := RestartRequests(c, s.slots, s.firstToCheck, s.lastToCheck);
      assert restarts + [] == restarts;
    }
  }

  /** The packets of a tick are the pieces of what it asks for. */
  lemma TickPutsRequests(c: Config, s: State)
    requires Shaped(c, s)
    ensures NarrowSent(c, Phase1Check(c, s).sent) <==> NarrowOut(c, PutAll(Out(s.sent, []), TickRequests(c, s)))
  {
    var o := PutAll(Out(s.sent, []), TickRequests(c, s));
    TickFlushes(c, s);
    FlushedIsNarrowIff(c, o);
    FlushedIsNarrowIff(c, Flushed(o));
  }

  lemma {:induction false} PendingIsRequested(c: Config, slots: seq<Slot>, i: int, last: int, k: nat)
    requires |slots| == c.size > 0 && k < c.size && slots[k].status == Pending && slots[k].iid % c.size == k
    requires i <= slots[k].iid <= last
    ensures Prepare(slots[k].iid, NextBallot(slots[k].ballot)) in RestartRequests(c, slots, i, last)
    decreases Remaining(i, last)
  {
    var j := i % c.size;
    if slots[k].iid == i {
      assert j == k;
    } else if slots[j].iid == i && slots[j].status == Pending {
      assert j != k;
      PendingIsRequested(c, slots[j := Restarted(c.n, slots[j])], i + 1, last, k);
    } else {
      PendingIsRequested(c, slots, i + 1, last, k);
    }
  }

  lemma {:induction false} TopIsRequested(c: Config, slots: seq<Slot>, i: int, to: int, top: int)
    requires |slots| == c.size > 0 && OpenedUpTo(c, slots, top) && 0 <= i <= top + 1 && top < to
    ensures Prepare(to, FirstBallot(c.id)) in OpenRequests(c, slots, i, to)
    decreases Remaining(i, to)
  {
    if i <= top {
      TopIsRequested(c, slots, i + 1, to, top);
    } else {
      OpeningOneMore(c, slots, i);
      if i < to {
        TopIsRequested(c, slots[i % c.size := OpenedSlot(c.n, i, c.id)], i + 1, to, i);
      }
    }
  }

  // ---------- how much a tick asks for ----------

  /** The slots of the records that the loop still has to restart. */
  function PendingFrom(slots: seq<Slot>, i: int): set<int> {
    set k | 0 <= k < |slots| && slots[k].status == Pending && slots[k].iid >= i
  }

  lemma {:induction false} RestartsAreFew(c: Config, slots: seq<Slot>, i: int, last: int)
    requires |slots| == c.size > 0
    ensures |RestartRequests(c, slots, i, last)| <= |PendingFrom(slots, i)|
    decreases Remaining(i, last)
  {
    if i > last {
    } else {
      var k := i % c.size;
      if slots[k].iid == i && slots[k].status == Pending {
        var slots' := slots[k := Restarted(c.n, slots[k])];
        RestartsAreFew(c, slots', i + 1, last);
        assert PendingFrom(slots, i) >= PendingFrom(slots', i + 1) + {k};
        SubsetSize(PendingFrom(slots', i + 1) + {k}, PendingFrom(slots, i));
      } else {
        RestartsAreFew(c, slots, i + 1, last);
        assert PendingFrom(slots, i + 1) <= PendingFrom(slots, i);
        SubsetSize(PendingFrom(slots, i + 1), PendingFrom(slots, i));
      }
    }
  }

  lemma {:induction false} OpeningsAreFew(c: Config, slots: seq<Slot>, i: int, to: int, top: int)
    requires |slots| == c.size > 0 && OpenedUpTo(c, slots, top) && 0 <= i <= top + 1
    ensures |OpenRequests(c, slots, i, to)| <= Max(0, to - top)
    decreases Remaining(i, to)
  {
    if i > to {
    } else if i <= top {
      OpeningsAreFew(c, slots, i + 1, to, top);
    } else {
      OpeningOneMore(c, slots, i);
      OpeningsAreFew(c, slots[i % c.size := OpenedSlot(c.n, i, c.id)], i + 1, to, i);
    }
  }

  /** The pending records and the instances to be opened fit one packet. */
  predicate FitsPacket(c: Config, s: State) {
    |PendingFrom(s.slots, s.firstToCheck)| + (if Opens(c, s) then Max(0, WindowTop(c, s) - s.lastToCheck) else 0) <= CAP
  }

  lemma FittingIsOnePiece(c: Config, s: State)
    requires Conserved(c, s) && FitsPacket(c, s)
    ensures NarrowPieces(c, TickRequests(c, s)) <==> NarrowRequest(c, TickRequests(c, s))
  {
    RestartsAreFew(c, s.slots, s.firstToCheck, s.lastToCheck);
    OpeningsAreFew(c, s.slots, s.highestReady + 1, WindowTop(c, s), s.lastToCheck);
    var ps := TickRequests(c, s);
    assert |ps| <= CAP;
    if |ps| == CAP {
      assert ps[..CAP] == ps && ps[CAP..] == [];
    }
  }

  lemma WideTogether(c: Config, ps: seq<Prepare>, qs: seq<Prepare>, p: Prepare, q: Prepare)
    requires p in ps && q in qs && q.iid - p.iid >= c.size
    ensures !NarrowRequest(c, ps + qs)
  {
    assert p in ps + qs && q in ps + qs;
  }

  lemma CrowdedTickAsks(c: Config, s: State, k: nat)
    requires Conserved(c, s) && k < c.size && s.slots[k].status == Pending
    requires s.slots[k].iid + c.size <= WindowTop(c, s)
    ensures Prepare(s.slots[k].iid, NextBallot(s.slots[k].ballot))
         in RestartRequests(c, s.slots, s.firstToCheck, s.lastToCheck)
    ensures Prepare(WindowTop(c, s), FirstBallot(c.id)) in OpenRequests(c, s.slots, s.highestReady + 1, WindowTop(c, s))
  {
    SlotIsRecent(c, s.slots, s.lastToCheck, k);
    PendingIsRequested(c, s.slots, s.firstToCheck, s.lastToCheck, k);
    TopIsRequested(c, s.slots, s.highestReady + 1, WindowTop(c, s), s.lastToCheck);
  }

  /** A crowded tick asks both for the pending instance and for one a ring or more above. */
  lemma CrowdedTickIsWide(c: Config, s: State)
    requires Conserved(c, s) && Crowded(c, s)
    ensures !NarrowRequest(c, TickRequests(c, s))
  {
    var k :| 0 <= k < c.size && s.slots[k].status == Pending && s.slots[k].iid + c.size <= WindowTop(c, s);
    CrowdedTickAsks(c, s, k);
    WideTogether(c, RestartRequests(c, s.slots, s.firstToCheck, s.lastToCheck),
                 OpenRequests(c, s.slots, s.highestReady + 1, WindowTop(c, s)),
                 Prepare(s.slots[k].iid, NextBallot(s.slots[k].ballot)),
                 Prepare(WindowTop(c, s), FirstBallot(c.id)));
  }

  lemma PiecesDecide(c: Config, s: State)
    requires Shaped(c, s)
    ensures NarrowSent(c, Phase1Check(c, s).sent) <==> NarrowSent(c, s.sent) && NarrowPieces(c, TickRequests(c, s))
  {
    TickPutsRequests(c, s);
    var ps := TickRequests(c, s);
    assert Out(s.sent, []).batch + ps == ps;
    PutAllIsNarrowIff(c, Out(s.sent, []), ps);
  }

  /** Whatever was sent before, a tick that is not crowded asks in narrow pieces. */
  lemma QuietPiecesAreNarrow(c: Config, s: State)
    requires Conserved(c, s) && c.window < c.size && !Crowded(c, s)
    ensures NarrowPieces(c, TickRequests(c, s))
  {
    var s0 := s.(sent := []);
    assert TickRequests(c, s0) == TickRequests(c, s);
    PiecesDecide(c, s0);
    QuietTickBetween(c, s0);
    BetweenIsNarrow(c, s0, Phase1Check(c, s0), TickHigh(c, s0));
  }

  lemma TickCasesAgree(c: Config, s: State)
    requires Conserved(c, s) && c.window < c.size
    ensures !Crowded(c, s) ==> NarrowPieces(c, TickRequests(c, s))
    ensures FitsPacket(c, s) && Crowded(c, s) ==> !NarrowPieces(c, TickRequests(c, s))
  {
    if !Crowded(c, s) {
      QuietPiecesAreNarrow(c, s);
    } else if FitsPacket(c, s) {
      FittingIsOnePiece(c, s);
      CrowdedTickIsWide(c, s);
    }
  }

  /**
   * The packets of a tick are narrow exactly if the packet-sized pieces of what it asks for are. They are if no
   * pending record's slot is taken by an instance it opens, and, where all of it fits one packet, only then.
   */
  lemma TickIsNarrowIff(c: Config, s: State)
    requires Conserved(c, s) && c.window < c.size
    ensures NarrowSent(c, Phase1Check(c, s).sent) <==> NarrowSent(c, s.sent) && NarrowPieces(c, TickRequests(c, s))
    ensures !Crowded(c, s) ==> NarrowPieces(c, TickRequests(c, s))
    ensures FitsPacket(c, s) ==> (NarrowPieces(c, TickRequests(c, s)) <==> !Crowded(c, s))
  {
    PiecesDecide(c, s);
    TickCasesAgree(c, s);
  }

  /** Only a record left pending after its instance has been delivered can crowd a tick. */
  lemma CrowdingIsDelivered(c: Config, s: State, k: nat)
    requires Conserved(c, s) && c.window + c.window / 2 <= c.size
    requires Opens(c, s) && k < c.size && s.slots[k].iid + c.size <= WindowTop(c, s)
    ensures s.slots[k].iid < s.currentIid
  {
  }

  // ---------- every run ----------

  /** The prepares sent are those sent before. */
  predicate NoMorePrepares(a: seq<Packet>, b: seq<Packet>) {
    a <= b && forall k :: |a| <= k < |b| ==> !b[k].Prepares?
  }

  lemma {:induction false} DecideFromSendsNoPrepare(c: Config, s: State, i: int, last: int)
    requires Shaped(c, s)
    ensures NoMorePrepares(s.sent, DecideFrom(c, s, i, last).sent)
    decreases Remaining(i, last)
  {
    if i > last {
    } else {
      if s.slots[i % c.size].status != Ready {
        DecideFromSendsNoPrepare(c, s, i + 1, last);
      } else {
        var s1 := Decide(c, s, i);
        assert NoMorePrepares(s.sent, s1.sent);
        DecideFromSendsNoPrepare(c, s1, i + 1, last);
      }
    }
  }

  lemma PromisesSendNoPrepare(c: Config, s: State, a: int, ps: seq<Promise>)
    requires Shaped(c, s) && 0 <= a < c.n
    ensures NoMorePrepares(s.sent, HandlePromiseMsg(c, s, a, ps).sent)
  {
    HandlePromisesKeepsSent(c, s, a, ps);
    var s1 := HandlePromises(c, s, a, ps).(anyBallot := -1, anyIids := []);
    DecideFromSendsNoPrepare(c, s1, FirstIid(ps), LastIid(ps));
  }

  lemma NoMoreIsNarrow(c: Config, a: seq<Packet>, b: seq<Packet>)
    requires NoMorePrepares(a, b)
    ensures NarrowSent(c, b) <==> NarrowSent(c, a)
  {
    forall k | 0 <= k < |a| ensures b[k] == a[k] {}
  }

  lemma Phase2CheckIsNarrow(c: Config, s: State)
    requires Shaped(c, s) && CheckHolds(c, s)
    ensures NarrowSent(c, Phase2Check(c, s).sent) <==> NarrowSent(c, s.sent)
  {
    if s.currentIid == s.checkedIid {
      var t := Phase2Check(c, s);
      var iid := s.slots[s.currentIid % c.size].iid;
      assert SendsBetween(s, t, iid, iid);
      forall k | 0 <= k < |s.sent| ensures t.sent[k] == s.sent[k] {}
    }
  }

  lemma StepIsNarrow(c: Config, s: State, e: Event)
    requires Conserved(c, s) && FromAcceptor(c, e) && c.window < c.size && Step(c, s, e).Some?
    ensures NarrowSent(c, Step(c, s, e).value.sent)
       <==> NarrowSent(c, s.sent) && (e.Phase1Timer? ==> NarrowPieces(c, TickRequests(c, s)))
  {
    match e
    case Delivered(_) =>
    case Phase1Timer => PiecesDecide(c, s);
    case Promises(a, ps) =>
      PromisesSendNoPrepare(c, s, a, ps);
      NoMoreIsNarrow(c, s.sent, HandlePromiseMsg(c, s, a, ps).sent);
    case Phase2Timer => Phase2CheckIsNarrow(c, s);
  }

  lemma InitBetween(c: Config)
    requires c.size > 0
    ensures SendsBetween(Blank(c), Init(c), 0, c.window) && Init(c).lastToCheck == c.window
  {
    var s := Blank(c);
    OpenFromBetween(c, s, s, 0, c.window, -1, 0);
    FlushBetween(s, OpenFrom(c, s, 0, c.window), 0, Max(-1, c.window));
    InitOpensWindow(c);
  }

  lemma InitIsNarrow(c: Config)
    requires 0 < c.size && c.window < c.size
    ensures NarrowSent(c, Init(c).sent)
  {
    InitBetween(c);
  }

  /** No tick of the run asked in a piece as wide as the ring. */
  predicate NarrowTicks(c: Config, es: seq<Event>)
    requires c.size > 0 && WellSent(c, es)
  {
    es != [] ==>
      && NarrowTicks(c, es[..|es| - 1])
      && var r := Run(c, es[..|es| - 1]);
         r.Some? && es[|es| - 1].Phase1Timer? ==> NarrowPieces(c, TickRequests(c, r.value))
  }

  /** Every tick of the run found no record it would crowd out. */
  predicate QuietTicks(c: Config, es: seq<Event>)
    requires c.size > 0 && WellSent(c, es)
  {
    es != [] ==>
      && QuietTicks(c, es[..|es| - 1])
      && var r := Run(c, es[..|es| - 1]);
         r.Some? && es[|es| - 1].Phase1Timer? ==> !Crowded(c, r.value)
  }

  /** Whatever a tick of the run asked for fitted one packet. */
  predicate FittingTicks(c: Config, es: seq<Event>)
    requires c.size > 0 && WellSent(c, es)
  {
    es != [] ==>
      && FittingTicks(c, es[..|es| - 1])
      && var r := Run(c, es[..|es| - 1]);
         r.Some? && es[|es| - 1].Phase1Timer? ==> FitsPacket(c, r.value)
  }

  /**
   * A run's prepare packets are all narrow exactly if its ticks asked in narrow pieces. That is so if no tick was
   * crowded, and, as long as each tick's requests fit one packet, only then.
   */
  lemma {:induction false} RequestsAreNarrowIff(c: Config, es: seq<Event>)
    requires 0 < c.size && c.window < c.size && WellSent(c, es) && InOrder(es)
    ensures Run(c, es).Some? ==>
      && (NarrowSent(c, Run(c, es).value.sent) <==> NarrowTicks(c, es))
      && (QuietTicks(c, es) ==> NarrowTicks(c, es))
      && (FittingTicks(c, es) && NarrowTicks(c, es) ==> QuietTicks(c, es))
  {
    if es == [] {
      InitIsNarrow(c);
    } else {
      var before := es[..|es| - 1];
      PrefixInOrder(es);
      RequestsAreNarrowIff(c, before);
      WindowConservation(c, before);
      if Run(c, es).Some? {
        StepIsNarrow(c, Run(c, before).value, es[|es| - 1]);
        TickIsNarrowIff(c, Run(c, before).value);
      }
    }
  }
}
