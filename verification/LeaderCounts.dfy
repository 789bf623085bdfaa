/**
 * What the two counters of phase 1 count. As long as no tick was crowded, pending_count is the number of pending
 * records; ready_count is what is then left of the instances opened and not delivered.
 */
module LeaderCounts {
  import opened Common
  import opened LeaderModel
  import opened LeaderWindow
  import opened LeaderTraffic

  /** The slots with a pending record. */
  function PendingSlots(slots: seq<Slot>): set<int> {
    set k | 0 <= k < |slots| && slots[k].status == Pending
  }

  predicate Counted(s: State) {
    s.pendingCount == |PendingSlots(s.slots)|
  }

  lemma SlotBecomesPending(slots: seq<Slot>, k: nat, slot: Slot)
    requires k < |slots| && slots[k].status != Pending && slot.status == Pending
    ensures |PendingSlots(slots[k := slot])| == |PendingSlots(slots)| + 1
  {
    assert PendingSlots(slots[k := slot]) == PendingSlots(slots) + {k};
  }

  lemma SlotIsNoLongerPending(slots: seq<Slot>, k: nat, slot: Slot)
    requires k < |slots| && slots[k].status == Pending && slot.status != Pending
    ensures |PendingSlots(slots[k := slot])| == |PendingSlots(slots)| - 1
  {
    assert PendingSlots(slots) == PendingSlots(slots[k := slot]) + {k};
  }

  lemma SlotStaysSo(slots: seq<Slot>, k: nat, slot: Slot)
    requires k < |slots| && (slots[k].status == Pending <==> slot.status == Pending)
    ensures PendingSlots(slots[k := slot]) == PendingSlots(slots)
  {
  }

  /** No pending record lies a ring or more below `to`. */
  predicate Clear(c: Config, slots: seq<Slot>, to: int) {
    forall k :: 0 <= k < |slots| && slots[k].status == Pending ==> slots[k].iid + c.size > to
  }

  lemma OpeningCounts(c: Config, s: State, i: int, to: int)
    requires Shaped(c, s) && Counted(s) && OpenedUpTo(c, s.slots, i - 1) && 0 <= i <= to
    requires Clear(c, s.slots, to) && c.size > 0
    ensures s.slots[i % c.size].iid < i || s.slots[i % c.size].status == New
    ensures var r := AddPrepare(Opening(c, s, i), Prepare(i, FirstBallot(c.id)));
            Counted(r) && OpenedUpTo(c, r.slots, i) && (i + c.size > to ==> Clear(c, r.slots, to))
  {
    var k := i % c.size;
    OpeningOneMore(c, s.slots, i);
    if s.slots[k].status == Pending {
      RingBelow(s.slots[k].iid, i, c.size);
      assert false;
    }
    SlotBecomesPending(s.slots, k, OpenedSlot(c.n, i, c.id));
  }

  lemma RingBelow(j: int, i: int, size: int)
    requires size > 0 && j < i && j % size == i % size
    ensures j + size <= i
  {
    if i - j < size {
      SameSlot(i, j, size);
    }
  }

  lemma {:induction false} OpenFromCounts(c: Config, s: State, i: int, to: int, top: int)
    requires Shaped(c, s) && Counted(s) && OpenedUpTo(c, s.slots, top) && 0 <= i <= top + 1
    requires Clear(c, s.slots, to) && to - top <= c.size
    ensures Counted(OpenFrom(c, s, i, to))
    decreases Remaining(i, to)
  {
    if i > to {
    } else if i <= top {
      OpenFromCounts(c, s, i + 1, to, top);
    } else {
      OpeningCounts(c, s, i, to);
      OpenFromCounts(c, AddPrepare(Opening(c, s, i), Prepare(i, FirstBallot(c.id))), i + 1, to, i);
    }
  }

  lemma {:induction false} RestartFromCounts(c: Config, s: State, i: int)
    requires Shaped(c, s)
    ensures PendingSlots(RestartFrom(c, s, i).slots) == PendingSlots(s.slots)
    decreases Remaining(i, s.lastToCheck)
  {
    if i > s.lastToCheck {
    } else {
      var k := i % c.size;
      if s.slots[k].iid == i && s.slots[k].status == Pending {
        var slot := Restarted(c.n, s.slots[k]);
        SlotStaysSo(s.slots, k, slot);
        RestartFromCounts(c, AddPrepare(s.(slots := s.slots[k := slot]), Prepare(slot.iid, slot.ballot)), i + 1);
      } else {
        RestartFromCounts(c, s, i + 1);
      }
    }
  }

  lemma TickCounts(c: Config, s: State)
    requires Conserved(c, s) && Counted(s) && !Crowded(c, s) && c.window < c.size
    ensures Counted(Phase1Check(c, s))
  {
    var s0 := s.(batch := []);
    RestartFromCounts(c, s0, s.firstToCheck);
    RestartKeepsInstances(c, s0, s.firstToCheck);
    var s1 := RestartFrom(c, s0, s.firstToCheck);
    SameInstancesKeepOpened(c, s0.slots, s1.slots, s.lastToCheck);
    if Opens(c, s) {
      StaysClear(c, s, s1);
      OpenFromCounts(c, s1, s.highestReady + 1, WindowTop(c, s), s.lastToCheck);
    }
  }

  lemma StaysClear(c: Config, s: State, s1: State)
    requires Opens(c, s) && !Crowded(c, s) && SameInstances(s.slots, s1.slots)
    requires PendingSlots(s1.slots) == PendingSlots(s.slots)
    ensures Clear(c, s1.slots, WindowTop(c, s))
  {
    forall k | 0 <= k < |s1.slots| && s1.slots[k].status == Pending ensures s1.slots[k].iid + c.size > WindowTop(c, s) {
      assert k in PendingSlots(s1.slots);
      assert s.slots[k].status == Pending;
    }
  }

  lemma PromiseCounts(c: Config, s: State, a: int, p: Promise)
    requires Shaped(c, s) && Counted(s) && 0 <= a < c.n
    ensures Counted(HandlePromise(c, s, a, p))
  {
    var k := p.iid % c.size;
    var slot := TakePromise(c.n, s.slots[k], a, p);
    if s.slots[k].status == Pending && slot.status == Ready {
      SlotIsNoLongerPending(s.slots, k, slot);
    } else {
      SlotStaysSo(s.slots, k, slot);
    }
  }

  lemma {:induction false} PromisesCount(c: Config, s: State, a: int, ps: seq<Promise>)
    requires Shaped(c, s) && Counted(s) && 0 <= a < c.n
    ensures Counted(HandlePromises(c, s, a, ps))
    decreases |ps|
  {
    if ps == [] {
    } else {
      PromiseCounts(c, s, a, ps[0]);
      PromisesCount(c, HandlePromise(c, s, a, ps[0]), a, ps[1..]);
    }
  }

  lemma {:induction false} DecideFromCounts(c: Config, s: State, i: int, last: int)
    requires Shaped(c, s) && Counted(s)
    ensures Counted(DecideFrom(c, s, i, last))
    decreases Remaining(i, last)
  {
    if i > last {
    } else if s.slots[i % c.size].status != Ready {
      DecideFromCounts(c, s, i + 1, last);
    } else {
      SlotStaysSo(s.slots, i % c.size, s.slots[i % c.size].(status := Finished));
      DecideFromCounts(c, Decide(c, s, i), i + 1, last);
    }
  }

  lemma Phase2CheckCounts(c: Config, s: State)
    requires Shaped(c, s) && Counted(s) && CheckHolds(c, s)
    ensures Counted(Phase2Check(c, s))
  {
    if s.currentIid == s.checkedIid {
      var k := s.currentIid % c.size;
      var slot := Restarted(c.n, s.slots[k]);
      if s.slots[k].status == Finished {
        SlotBecomesPending(s.slots, k, slot);
      } else {
        SlotStaysSo(s.slots, k, slot);
      }
    }
  }

  lemma StepCounts(c: Config, s: State, e: Event)
    requires Conserved(c, s) && Counted(s) && FromAcceptor(c, e) && c.window < c.size
    requires e.Phase1Timer? ==> !Crowded(c, s)
    ensures Step(c, s, e).Some? ==> Counted(Step(c, s, e).value)
  {
    match e
    case Delivered(_) =>
    case Phase1Timer => TickCounts(c, s);
    case Promises(a, ps) =>
      PromisesCount(c, s, a, ps);
      DecideFromCounts(c, HandlePromises(c, s, a, ps).(anyBallot := -1, anyIids := []), FirstIid(ps), LastIid(ps));
    case Phase2Timer => if CheckHolds(c, s) { Phase2CheckCounts(c, s); }
  }

  lemma InitCounts(c: Config)
    requires 0 < c.size && c.window < c.size
    ensures Counted(Init(c))
  {
    var s := Blank(c);
    assert PendingSlots(s.slots) == {};
    OpenFromCounts(c, s, 0, c.window, -1);
  }

  /** The counters, exactly: what is pending, and what is opened, not delivered and not pending. */
  lemma {:induction false} CountersAreExact(c: Config, es: seq<Event>)
    requires 0 < c.size && c.window < c.size && WellSent(c, es) && InOrder(es) && QuietTicks(c, es)
    ensures Run(c, es).Some? ==>
      var s := Run(c, es).value;
      && s.pendingCount == |PendingSlots(s.slots)|
      && s.readyCount == s.lastToCheck + 1 - Deliveries(es) - |PendingSlots(s.slots)|
  {
    WindowConservation(c, es);
    if es == [] {
      InitCounts(c);
    } else {
      var before := es[..|es| - 1];
      PrefixInOrder(es);
      CountersAreExact(c, before);
      WindowConservation(c, before);
      if Run(c, before).Some? {
        StepCounts(c, Run(c, before).value, es[|es| - 1]);
      }
    }
  }
}
