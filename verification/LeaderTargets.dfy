/**
 * Which instance a decision goes out for. execute_phase2 tests the status of a slot and not its instance,
 * so a record without a value is decided for the first instance of the range that shares its slot.
 */
module LeaderTargets {
  import opened Common
  import opened LeaderModel
  import opened LeaderWindow
  import opened LeaderDecisions

  /** The first instance from `first` on that has the slot of iid. */
  function FirstVisit(first: int, iid: int, size: int): int
    requires size > 0
  {
    first + (iid - first) % size
  }

  /** The decision a pass from `first` on takes for a ready record. */
  function DecisionFor(c: Config, slot: Slot, first: int): Decision
    requires c.size > 0
  {
    Decision(if Choose(slot.promises).None? then FirstVisit(first, slot.iid, c.size) else slot.iid, slot)
  }

  /** d is the decision that a pass from `first` on takes for one of the ready records. */
  predicate DueFor(c: Config, slots: seq<Slot>, first: int, d: Decision)
    requires c.size > 0
  {
    exists k :: 0 <= k < |slots| && slots[k].status == Ready && d == DecisionFor(c, slots[k], first)
  }

  /** The decisions taken by the loop of execute_phase2, from instance i on. */
  function Taken(c: Config, s: State, i: int, last: int): seq<Decision>
    requires Shaped(c, s)
    decreases Remaining(i, last)
  {
    if i > last then []
    else if s.slots[i % c.size].status != Ready then Taken(c, s, i + 1, last)
    else [Decide(c, s, i).decisions[|s.decisions|]] + Taken(c, Decide(c, s, i), i + 1, last)
  }

  lemma {:induction false} TakenIsAdded(c: Config, s: State, i: int, last: int)
    requires Shaped(c, s)
    ensures DecideFrom(c, s, i, last).decisions == s.decisions + Taken(c, s, i, last)
    decreases Remaining(i, last)
  {
    if i > last {
    } else {
      if s.slots[i % c.size].status != Ready {
        TakenIsAdded(c, s, i + 1, last);
      } else {
        TakenIsAdded(c, Decide(c, s, i), i + 1, last);
      }
    }
  }

  /** Counting the start of the range up changes the first visit only when the start itself is one. */
  lemma VisitMovesOn(first: int, iid: int, size: int)
    requires size > 0
    ensures first % size != iid % size ==> FirstVisit(first + 1, iid, size) == FirstVisit(first, iid, size)
    ensures first % size == iid % size ==> FirstVisit(first, iid, size) == first
  {
    var x := iid - first;
    var r := x % size;
    assert x == size * (x / size) + r;
    if r != 0 {
      RemainderUnique(x - 1, x / size, r - 1, size);
    }
    assert first == size * (first / size) + first % size;
    var q := first / size + x / size;
    assert size * q == size * (first / size) + size * (x / size);
    if r == 0 {
      RemainderUnique(iid, q, first % size, size);
    } else if first % size == iid % size {
      assert iid == size * (iid / size) + iid % size;
      assert x == size * (iid / size - first / size);
      RemainderUnique(x, iid / size - first / size, 0, size);
    }
  }

  /** The first visit is the instance itself exactly if that lies less than a ring above the start. */
  lemma VisitIsOwn(first: int, iid: int, size: int)
    requires size > 0 && first <= iid
    ensures FirstVisit(first, iid, size) == iid <==> iid - first < size
  {
    if iid - first < size {
      RemainderUnique(iid - first, 0, iid - first, size);
    }
  }

  /** A pass over a range takes exactly the decisions due for the ready records, each for its first visit. */
  lemma {:induction false} TakenIsDue(c: Config, s: State, i: int, last: int, d: Decision)
    requires Sound(c, s) && ReadyWithin(s, i, last)
    ensures d in Taken(c, s, i, last) <==> DueFor(c, s.slots, i, d)
    decreases Remaining(i, last)
  {
    if i > last {
    } else {
      PassingNarrows(c, s, i, last);
      if s.slots[i % c.size].status != Ready {
        TakenIsDue(c, s, i + 1, last, d);
        UnvisitedStayDue(c, s, i, d);
      } else {
        DecideIsSound(c, s, i);
        TakenIsDue(c, Decide(c, s, i), i + 1, last, d);
        VisitedIsDue(c, s, i, d);
      }
    }
  }

  /** Another slot's record is due for the same decision one instance later. */
  lemma DueLater(c: Config, s: State, i: int, k: nat)
    requires Sound(c, s) && k < c.size && s.slots[k].status != New && k != i % c.size
    ensures DecisionFor(c, s.slots[k], i) == DecisionFor(c, s.slots[k], i + 1)
  {
    VisitMovesOn(i, s.slots[k].iid, c.size);
  }

  lemma UnvisitedStayDue(c: Config, s: State, i: int, d: Decision)
    requires Sound(c, s) && s.slots[i % c.size].status != Ready
    ensures DueFor(c, s.slots, i, d) <==> DueFor(c, s.slots, i + 1, d)
  {
    forall k | 0 <= k < c.size && s.slots[k].status == Ready
      ensures DecisionFor(c, s.slots[k], i) == DecisionFor(c, s.slots[k], i + 1)
    {
      DueLater(c, s, i, k);
    }
  }

  lemma VisitedIsDue(c: Config, s: State, i: int, d: Decision)
    requires Sound(c, s) && s.slots[i % c.size].status == Ready
    ensures var t := Decide(c, s, i);
            DueFor(c, s.slots, i, d) <==> d == t.decisions[|s.decisions|] || DueFor(c, t.slots, i + 1, d)
  {
    var k0, t := i % c.size, Decide(c, s, i);
    VisitMovesOn(i, s.slots[k0].iid, c.size);
    assert t.decisions[|s.decisions|] == DecisionFor(c, s.slots[k0], i);
    forall k | 0 <= k < c.size && k != k0 && s.slots[k].status == Ready
      ensures t.slots[k] == s.slots[k] && DecisionFor(c, t.slots[k], i + 1) == DecisionFor(c, s.slots[k], i)
    {
      DueLater(c, s, i, k);
    }
    assert t.slots[k0].status != Ready;
    if DueFor(c, t.slots, i + 1, d) {
      var k :| 0 <= k < c.size && t.slots[k].status == Ready && d == DecisionFor(c, t.slots[k], i + 1);
      assert s.slots[k].status == Ready;
    }
    if DueFor(c, s.slots, i, d) {
      var k :| 0 <= k < c.size && s.slots[k].status == Ready && d == DecisionFor(c, s.slots[k], i);
      assert k != k0 ==> t.slots[k].status == Ready;
    }
  }

  // ---------- the decisions of one promise packet ----------

  predicate Aligned(d: Decision) {
    d.target == d.slot.iid
  }

  /** The decisions that handling the promise packet adds. */
  function NewDecisions(c: Config, s: State, a: int, ps: seq<Promise>): seq<Decision>
    requires Shaped(c, s) && 0 <= a < c.n
  {
    Taken(c, HandlePromises(c, s, a, ps).(anyBallot := -1, anyIids := []), FirstIid(ps), LastIid(ps))
  }

  lemma NewDecisionsAreAdded(c: Config, s: State, a: int, ps: seq<Promise>)
    requires Shaped(c, s) && 0 <= a < c.n
    ensures HandlePromiseMsg(c, s, a, ps).decisions == s.decisions + NewDecisions(c, s, a, ps)
  {
    HandlePromisesKeepsSent(c, s, a, ps);
    TakenIsAdded(c, HandlePromises(c, s, a, ps).(anyBallot := -1, anyIids := []), FirstIid(ps), LastIid(ps));
  }

  /** A promise packet adds the decision due for each record it makes ready, and no other. */
  lemma PacketDecides(c: Config, s: State, a: int, ps: seq<Promise>, d: Decision)
    requires Sound(c, s) && NoneReady(s) && 0 <= a < c.n && Spanned(ps)
    ensures d in NewDecisions(c, s, a, ps) <==> DueFor(c, HandlePromises(c, s, a, ps).slots, FirstIid(ps), d)
  {
    HandlePromisesIsSound(c, s, a, ps, FirstIid(ps), LastIid(ps));
    var s1 := HandlePromises(c, s, a, ps);
    var s2 := s1.(anyBallot := -1, anyIids := []);
    SameSlotsSameSound(c, s1, s2);
    TakenIsDue(c, s2, FirstIid(ps), LastIid(ps), d);
  }

  /** The record lies less than a ring above the start of the batch, or carries its own instance in an ACCEPT. */
  predicate NearOrValued(c: Config, slot: Slot, first: int) {
    Choose(slot.promises).None? ==> slot.iid - first < c.size
  }

  lemma RecordAlignedIff(c: Config, s: State, a: int, ps: seq<Promise>, k: nat)
    requires Sound(c, s) && NoneReady(s) && 0 <= a < c.n && Spanned(ps)
    requires k < c.size && HandlePromises(c, s, a, ps).slots[k].status == Ready
    ensures var slot := HandlePromises(c, s, a, ps).slots[k];
            Aligned(DecisionFor(c, slot, FirstIid(ps))) <==> NearOrValued(c, slot, FirstIid(ps))
  {
    HandlePromisesIsSound(c, s, a, ps, FirstIid(ps), LastIid(ps));
    VisitIsOwn(FirstIid(ps), HandlePromises(c, s, a, ps).slots[k].iid, c.size);
  }

  /**
   * When exactly the decisions of a promise packet go out for the instances of their records: every record
   * the packet makes ready without a value must lie less than a ring above the packet's first instance.
   */
  lemma DecisionsAlignedIff(c: Config, s: State, a: int, ps: seq<Promise>)
    requires Sound(c, s) && NoneReady(s) && 0 <= a < c.n && Spanned(ps)
    ensures var s1 := HandlePromises(c, s, a, ps);
            (forall d :: d in NewDecisions(c, s, a, ps) ==> Aligned(d))
            <==> (forall k :: 0 <= k < c.size && s1.slots[k].status == Ready ==>
                    NearOrValued(c, s1.slots[k], FirstIid(ps)))
  {
    var s1, first := HandlePromises(c, s, a, ps), FirstIid(ps);
    forall k | 0 <= k < c.size && s1.slots[k].status == Ready
      ensures DecisionFor(c, s1.slots[k], first) in NewDecisions(c, s, a, ps)
      ensures Aligned(DecisionFor(c, s1.slots[k], first)) <==> NearOrValued(c, s1.slots[k], first)
    {
      RecordAlignedIff(c, s, a, ps, k);
      PacketDecides(c, s, a, ps, DecisionFor(c, s1.slots[k], first));
    }
    forall d | d in NewDecisions(c, s, a, ps)
      ensures exists k :: 0 <= k < c.size && s1.slots[k].status == Ready && d == DecisionFor(c, s1.slots[k], first)
    {
      PacketDecides(c, s, a, ps, d);
    }
  }

  // ---------- narrow packets ----------

  /** The promise batch of one packet, if it spans less than the ring. */
  predicate Narrow(c: Config, ps: seq<Promise>) {
    Spanned(ps) && LastIid(ps) - FirstIid(ps) < c.size
  }

  predicate NarrowBatches(c: Config, es: seq<Event>) {
    forall i :: 0 <= i < |es| && es[i].Promises? ==> Narrow(c, es[i].promises)
  }

  ghost predicate AllAligned(s: State) {
    forall d :: d in s.decisions ==> Aligned(d)
  }

  lemma NarrowPacketAligns(c: Config, s: State, a: int, ps: seq<Promise>)
    requires Sound(c, s) && NoneReady(s) && AllAligned(s) && 0 <= a < c.n && Narrow(c, ps)
    ensures AllAligned(HandlePromiseMsg(c, s, a, ps))
  {
    HandlePromisesIsSound(c, s, a, ps, FirstIid(ps), LastIid(ps));
    DecisionsAlignedIff(c, s, a, ps);
    NewDecisionsAreAdded(c, s, a, ps);
  }

  /** As long as promise packets are narrow, every decision of every run is for the instance of its record. */
  lemma {:induction false} NarrowRunsAlign(c: Config, es: seq<Event>)
    requires c.size > 0 && WellSent(c, es) && InOrder(es) && NarrowBatches(c, es)
    ensures Run(c, es).Some? ==> AllAligned(Run(c, es).value)
  {
    if es == [] {
      OpenFromFrame(c, Blank(c), 0, c.window);
    } else {
      var before := es[..|es| - 1];
      PrefixInOrder(es);
      NarrowRunsAlign(c, before);
      OneBackedDecisionPerBallot(c, before);
      if Run(c, before).Some? {
        var s := Run(c, before).value;
        match es[|es| - 1]
        case Delivered(_) =>
        case Phase1Timer => Phase1KeepsHighest(c, s);
        case Promises(a, ps) => NarrowPacketAligns(c, s, a, ps);
        case Phase2Timer =>
      }
    }
  }
}
