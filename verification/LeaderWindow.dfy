/** The phase 1 window of the leader: its counters, its bound, and the assertion of phase2_check_cb. */
module LeaderWindow {
  import opened Common
  import opened LeaderModel

  // ---------- runs of the leader ----------

  datatype Event =
    | Delivered(iid: int)
    | Phase1Timer
    | Promises(acceptorId: int, promises: seq<Promise>)
    | Phase2Timer

  predicate FromAcceptor(c: Config, e: Event) {
    e.Promises? ==> 0 <= e.acceptorId < c.n
  }

  /** One handler call; None is the failed assertion of phase2_check_cb, which ends the process. */
  function Step(c: Config, s: State, e: Event): (r: Option<State>)
    requires Shaped(c, s) && FromAcceptor(c, e)
    ensures r.Some? ==> Shaped(c, r.value)
  {
    match e
    case Delivered(iid) => Some(Deliver(s, iid))
    case Phase1Timer => Some(Phase1Check(c, s))
    case Promises(a, ps) => Some(HandlePromiseMsg(c, s, a, ps))
    case Phase2Timer => if CheckHolds(c, s) then Some(Phase2Check(c, s)) else None
  }

  predicate WellSent(c: Config, es: seq<Event>) {
    forall i :: 0 <= i < |es| ==> FromAcceptor(c, es[i])
  }

  function Run(c: Config, es: seq<Event>): (r: Option<State>)
    requires c.size > 0 && WellSent(c, es)
    ensures r.Some? ==> Shaped(c, r.value)
  {
    if es == [] then Some(Init(c)) else
      match Run(c, es[..|es| - 1])
      case None => None
      case Some(s) => Step(c, s, es[|es| - 1])
  }

  function Deliveries(es: seq<Event>): nat {
    if es == [] then 0 else Deliveries(es[..|es| - 1]) + if es[|es| - 1].Delivered? then 1 else 0
  }

  /** The learner reports instances 0, 1, 2, ... */
  predicate InOrder(es: seq<Event>) {
    forall i :: 0 <= i < |es| && es[i].Delivered? ==> es[i].iid == Deliveries(es[..i])
  }

  lemma PrefixInOrder(es: seq<Event>)
    requires InOrder(es) && es != []
    ensures InOrder(es[..|es| - 1])
  {
    var before := es[..|es| - 1];
    forall i | 0 <= i < |before| ensures before[..i] == es[..i] {}
  }

  lemma OneMoreInOrder(es: seq<Event>, e: Event)
    requires InOrder(es) && (e.Delivered? ==> e.iid == Deliveries(es))
    ensures InOrder(es + [e]) && Deliveries(es + [e]) == Deliveries(es) + if e.Delivered? then 1 else 0
  {
    var more := es + [e];
    assert more[..|es|] == es;
    forall i | 0 <= i < |more| && more[i].Delivered? ensures more[i].iid == Deliveries(more[..i]) {
      assert more[..i] == es[..i];
    }
  }

  lemma RunOneMore(c: Config, es: seq<Event>, e: Event)
    requires c.size > 0 && WellSent(c, es) && FromAcceptor(c, e)
    ensures WellSent(c, es + [e])
    ensures Run(c, es + [e]) == match Run(c, es) case None => None case Some(s) => Step(c, s, e)
  {
    assert (es + [e])[..|es|] == es;
  }

  // ---------- what each turn of a loop keeps, the loop keeps ----------

  lemma {:induction false} OpenFromKeeps(c: Config, s: State, i: int, to: int, inv: State -> bool)
    requires Shaped(c, s) && inv(s)
    requires forall t, j :: Shaped(c, t) && inv(t) ==> inv(AddPrepare(Opening(c, t, j), Prepare(j, FirstBallot(c.id))))
    ensures inv(OpenFrom(c, s, i, to))
    decreases Remaining(i, to)
  {
    if i > to {
    } else {
      var k := i % c.size;
      if s.slots[k].iid < i || s.slots[k].status == New {
        OpenFromKeeps(c, AddPrepare(Opening(c, s, i), Prepare(i, FirstBallot(c.id))), i + 1, to, inv);
      } else {
        OpenFromKeeps(c, s, i + 1, to, inv);
      }
    }
  }

  /** Slot k restarted, and its prepare written. */
  function Restarting(c: Config, s: State, k: nat): State
    requires Shaped(c, s) && k < c.size
  {
    var slot := Restarted(c.n, s.slots[k]);
    AddPrepare(s.(slots := s.slots[k := slot]), Prepare(slot.iid, slot.ballot))
  }

  lemma {:induction false} RestartFromKeeps(c: Config, s: State, i: int, inv: State -> bool)
    requires Shaped(c, s) && inv(s)
    requires forall t, k :: Shaped(c, t) && inv(t) && 0 <= k < c.size ==> inv(Restarting(c, t, k))
    ensures inv(RestartFrom(c, s, i))
    decreases Remaining(i, s.lastToCheck)
  {
    if i > s.lastToCheck {
    } else {
      var k := i % c.size;
      if s.slots[k].iid == i && s.slots[k].status == Pending {
        RestartFromKeeps(c, Restarting(c, s, k), i + 1, inv);
      } else {
        RestartFromKeeps(c, s, i + 1, inv);
      }
    }
  }

  lemma {:induction false} DecideFromKeeps(c: Config, s: State, i: int, last: int, inv: State -> bool)
    requires Shaped(c, s) && inv(s)
    requires forall t, j :: Shaped(c, t) && inv(t) ==> inv(Decide(c, t, j))
    ensures inv(DecideFrom(c, s, i, last))
    decreases Remaining(i, last)
  {
    if i > last {
    } else if s.slots[i % c.size].status != Ready {
      DecideFromKeeps(c, s, i + 1, last, inv);
    } else {
      DecideFromKeeps(c, Decide(c, s, i), i + 1, last, inv);
    }
  }

  // ---------- the invariant ----------

  /** Instances 0..top have been opened; each slot holds the highest of its own, if any. */
  predicate OpenedUpTo(c: Config, slots: seq<Slot>, top: int)
    requires |slots| == c.size > 0
  {
    && (forall k :: 0 <= k < c.size ==>
          if slots[k].status == New then slots[k].iid == 0
          else 0 <= slots[k].iid <= top && slots[k].iid % c.size == k)
    && (forall i :: 0 <= i <= top ==> slots[i % c.size].status != New && slots[i % c.size].iid >= i)
  }

  /** Conservation: pending and ready instances together are those opened and not delivered. */
  ghost predicate Conserved(c: Config, s: State) {
    && Shaped(c, s)
    && -1 <= s.highestReady <= s.lastToCheck && s.lastToCheck >= 0 && s.currentIid >= 0
    && s.firstToCheck <= 0
    && OpenedUpTo(c, s.slots, s.lastToCheck)
    && s.pendingCount + s.readyCount == s.lastToCheck + 1 - s.currentIid
  }

  /** The number of open undelivered instances never exceeds one and a half windows. */
  predicate Bounded(c: Config, s: State) {
    c.window >= 2 ==> s.lastToCheck + 1 - s.currentIid <= c.window + c.window / 2
  }

  /** The slots keep their instances, and none becomes new or stops being new. */
  predicate SameInstances(a: seq<Slot>, b: seq<Slot>) {
    && |a| == |b|
    && forall k :: 0 <= k < |a| ==> a[k].iid == b[k].iid && (a[k].status == New <==> b[k].status == New)
  }

  predicate SameCounters(s: State, t: State) {
    && t.currentIid == s.currentIid && t.highestReady == s.highestReady && t.lastToCheck == s.lastToCheck
    && t.firstToCheck == s.firstToCheck
    && t.pendingCount == s.pendingCount && t.readyCount == s.readyCount
  }

  lemma SameInstancesKeepOpened(c: Config, a: seq<Slot>, b: seq<Slot>, top: int)
    requires |a| == c.size > 0 && OpenedUpTo(c, a, top) && SameInstances(a, b)
    ensures OpenedUpTo(c, b, top)
  {
  }

  /** A turn on an instance that is open already, and a turn on the next one. */
  lemma OpenTurn(c: Config, s: State, i: int, to: int, top: int)
    requires Shaped(c, s) && OpenedUpTo(c, s.slots, top) && 0 <= i <= top + 1 && i <= to
    ensures i <= top ==> OpenFrom(c, s, i, to) == OpenFrom(c, s, i + 1, to)
    ensures i == top + 1 ==>
      var t := AddPrepare(Opening(c, s, i), Prepare(i, FirstBallot(c.id)));
      && OpenFrom(c, s, i, to) == OpenFrom(c, t, i + 1, to)
      && Shaped(c, t) && OpenedUpTo(c, t.slots, i) && t.pendingCount == s.pendingCount + 1
  {
    if i == top + 1 {
      OpeningOneMore(c, s.slots, i);
    }
  }

  /** execute_phase1 opens exactly the instances above those already open. */
  lemma {:induction false} OpenFromOpens(c: Config, s: State, i: int, to: int, top: int)
    requires Shaped(c, s) && OpenedUpTo(c, s.slots, top)
    requires 0 <= i <= top + 1
    ensures var r := OpenFrom(c, s, i, to);
            && OpenedUpTo(c, r.slots, Max(top, to))
            && r.pendingCount == s.pendingCount + Max(top, to) - top
    decreases Remaining(i, to)
  {
    if i > to {
    } else {
      OpenTurn(c, s, i, to, top);
      if i <= top {
        OpenFromOpens(c, s, i + 1, to, top);
      } else {
        OpenFromOpens(c, AddPrepare(Opening(c, s, i), Prepare(i, FirstBallot(c.id))), i + 1, to, i);
      }
    }
  }

  /** execute_phase1's loop changes nothing else. */
  lemma {:induction false} OpenFromFrame(c: Config, s: State, i: int, to: int)
    requires Shaped(c, s)
    ensures var r := OpenFrom(c, s, i, to);
            r == s.(slots := r.slots, pendingCount := r.pendingCount, batch := r.batch, sent := r.sent)
    decreases Remaining(i, to)
  {
    if i > to {
    } else {
      var k := i % c.size;
      if s.slots[k].iid < i || s.slots[k].status == New {
        OpenFromFrame(c, AddPrepare(Opening(c, s, i), Prepare(i, FirstBallot(c.id))), i + 1, to);
      } else {
        OpenFromFrame(c, s, i + 1, to);
      }
    }
  }

  lemma OpeningOneMore(c: Config, slots: seq<Slot>, i: int)
    requires |slots| == c.size > 0 && OpenedUpTo(c, slots, i - 1) && i >= 0
    ensures slots[i % c.size].iid < i || slots[i % c.size].status == New
    ensures OpenedUpTo(c, slots[i % c.size := OpenedSlot(c.n, i, c.id)], i)
  {
  }

  /** The accounts of execute_phase1, once the loop has run. */
  lemma ExecutePhase1Accounts(c: Config, s: State)
    requires Shaped(c, s) && OpenedUpTo(c, s.slots, s.lastToCheck) && -1 <= s.highestReady <= s.lastToCheck
    ensures var r, last := ExecutePhase1(c, s), Max(s.lastToCheck, s.highestReady + 1 + c.window);
            && OpenedUpTo(c, r.slots, last) && r.lastToCheck == last
            && r.pendingCount == s.pendingCount + last - s.lastToCheck && r.readyCount == s.readyCount
            && r.currentIid == s.currentIid && r.highestReady == s.highestReady
            && r.firstToCheck <= s.firstToCheck
  {
    OpenFromOpens(c, s, s.highestReady + 1, s.highestReady + 1 + c.window, s.lastToCheck);
    OpenFromFrame(c, s, s.highestReady + 1, s.highestReady + 1 + c.window);
  }

  lemma ExecutePhase1Conserves(c: Config, s: State)
    requires Conserved(c, s) && Bounded(c, s)
    requires s.pendingCount + s.readyCount < c.window / 2
    ensures Conserved(c, ExecutePhase1(c, s)) && Bounded(c, ExecutePhase1(c, s))
    ensures ExecutePhase1(c, s).currentIid == s.currentIid
  {
    ExecutePhase1Accounts(c, s);
  }

  lemma InitConserves(c: Config)
    requires c.size > 0
    ensures Conserved(c, Init(c)) && Bounded(c, Init(c))
    ensures Init(c).currentIid == 0
  {
    OpenFromOpens(c, Blank(c), 0, c.window, -1);
    OpenFromFrame(c, Blank(c), 0, c.window);
  }

  lemma {:induction false} RestartKeepsInstances(c: Config, s: State, i: int)
    requires Shaped(c, s)
    ensures var r := RestartFrom(c, s, i);
            SameInstances(s.slots, r.slots) && SameCounters(s, r)
            && r == s.(slots := r.slots, batch := r.batch, sent := r.sent)
    decreases Remaining(i, s.lastToCheck)
  {
    if i > s.lastToCheck {
    } else {
      var k := i % c.size;
      if s.slots[k].iid == i && s.slots[k].status == Pending {
        var slot := Restarted(c.n, s.slots[k]);
        RestartKeepsInstances(c, AddPrepare(s.(slots := s.slots[k := slot]), Prepare(slot.iid, slot.ballot)), i + 1);
      } else {
        RestartKeepsInstances(c, s, i + 1);
      }
    }
  }

  /** The loop of phase1_check_cb restarts every pending record of its range, once, and touches no other. */
  lemma {:induction false} RestartFromRestarts(c: Config, s: State, i: int, k: nat)
    requires Shaped(c, s) && k < c.size
    requires s.slots[k].status != New ==> s.slots[k].iid % c.size == k
    ensures RestartFrom(c, s, i).slots[k]
         == if s.slots[k].status == Pending && i <= s.slots[k].iid <= s.lastToCheck
            then Restarted(c.n, s.slots[k]) else s.slots[k]
    decreases Remaining(i, s.lastToCheck)
  {
    if i > s.lastToCheck {
    } else {
      var j := i % c.size;
      assert s.slots[k].status == Pending && s.slots[k].iid == i ==> j == k;
      if s.slots[j].iid == i && s.slots[j].status == Pending {
        var slot := Restarted(c.n, s.slots[j]);
        var t := AddPrepare(s.(slots := s.slots[j := slot]), Prepare(slot.iid, slot.ballot));
        assert t.slots[k] == if j == k then slot else s.slots[k];
        RestartFromRestarts(c, t, i + 1, k);
      } else {
        RestartFromRestarts(c, s, i + 1, k);
      }
    }
  }

  /** Opening replaces a record only by one of a higher instance. */
  lemma {:induction false} OpenFromRaises(c: Config, s: State, i: int, to: int, k: nat)
    requires Shaped(c, s) && k < c.size
    ensures var r := OpenFrom(c, s, i, to).slots[k];
            r == s.slots[k] || s.slots[k].status == New || r.iid > s.slots[k].iid
    decreases Remaining(i, to)
  {
    if i > to {
    } else {
      var j := i % c.size;
      if s.slots[j].iid < i || s.slots[j].status == New {
        OpenFromRaises(c, AddPrepare(Opening(c, s, i), Prepare(i, FirstBallot(c.id))), i + 1, to, k);
      } else {
        OpenFromRaises(c, s, i + 1, to, k);
      }
    }
  }

  /** A phase 1 tick gives every pending instance its next ballot, unless a higher instance takes its slot. */
  lemma TickRestartsPending(c: Config, s: State, k: nat)
    requires Conserved(c, s) && k < c.size && s.slots[k].status != New
    ensures var r := Phase1Check(c, s).slots[k];
            || r.iid > s.slots[k].iid
            || r == if s.slots[k].status == Pending then Restarted(c.n, s.slots[k]) else s.slots[k]
  {
    var s0 := s.(batch := []);
    RestartFromRestarts(c, s0, s.firstToCheck, k);
    var s1 := RestartFrom(c, s0, s.firstToCheck);
    OpenFromRaises(c, s1, s1.highestReady + 1, s1.highestReady + 1 + c.window, k);
  }

  /**
   * A phase 1 tick leaves the window alone while half of it is open; else it opens everything up to a window above
   * the instance after highest_ready.
   */
  lemma TickRefills(c: Config, s: State)
    requires Conserved(c, s)
    ensures var t, open := Phase1Check(c, s), s.lastToCheck + 1 - s.currentIid;
            && t.pendingCount + t.readyCount == t.lastToCheck + 1 - s.currentIid
            && t.lastToCheck == (if 2 * open + 1 < c.window then Max(s.lastToCheck, s.highestReady + 1 + c.window)
                                 else s.lastToCheck)
            && t.readyCount == s.readyCount && t.highestReady == s.highestReady
  {
    var s0 := s.(batch := []);
    var s1 := RestartFrom(c, s0, s.firstToCheck);
    RestartKeepsInstances(c, s0, s.firstToCheck);
    SameInstancesKeepOpened(c, s0.slots, s1.slots, s.lastToCheck);
    if s1.pendingCount + s1.readyCount < c.window / 2 {
      ExecutePhase1Accounts(c, s1);
    }
  }

  /** Promises never widen the range of phase1_check_cb: what becomes ready is in it. */
  lemma PromisesKeepRange(c: Config, s: State, a: int, p: Promise)
    requires Conserved(c, s) && 0 <= a < c.n
    ensures var t := HandlePromise(c, s, a, p); t.firstToCheck == s.firstToCheck && t.lastToCheck == s.lastToCheck
  {
  }

  lemma Phase1CheckConserves(c: Config, s: State)
    requires Conserved(c, s) && Bounded(c, s)
    ensures Conserved(c, Phase1Check(c, s)) && Bounded(c, Phase1Check(c, s))
    ensures Phase1Check(c, s).currentIid == s.currentIid
  {
    var s0 := s.(batch := []);
    var s1 := RestartFrom(c, s0, s.firstToCheck);
    RestartKeepsInstances(c, s0, s.firstToCheck);
    SameInstancesKeepOpened(c, s0.slots, s1.slots, s.lastToCheck);
    if s1.pendingCount + s1.readyCount < c.window / 2 {
      ExecutePhase1Conserves(c, s1);
    }
  }

  lemma HandlePromiseConserves(c: Config, s: State, a: int, p: Promise)
    requires Conserved(c, s) && 0 <= a < c.n
    ensures var r := HandlePromise(c, s, a, p);
            Conserved(c, r) && SameInstances(s.slots, r.slots)
            && r.lastToCheck == s.lastToCheck && r.currentIid == s.currentIid
  {
    var r := HandlePromise(c, s, a, p);
    SameInstancesKeepOpened(c, s.slots, r.slots, s.lastToCheck);
  }

  lemma {:induction false} HandlePromisesConserves(c: Config, s: State, a: int, ps: seq<Promise>)
    requires Conserved(c, s) && 0 <= a < c.n
    ensures var r := HandlePromises(c, s, a, ps);
            Conserved(c, r) && SameInstances(s.slots, r.slots)
            && r.lastToCheck == s.lastToCheck && r.currentIid == s.currentIid
    decreases |ps|
  {
    if ps == [] {
    } else {
      HandlePromiseConserves(c, s, a, ps[0]);
      HandlePromisesConserves(c, HandlePromise(c, s, a, ps[0]), a, ps[1..]);
    }
  }

  /** Taking in promises sends nothing and decides nothing. */
  lemma {:induction false} HandlePromisesKeepsSent(c: Config, s: State, a: int, ps: seq<Promise>)
    requires Shaped(c, s) && 0 <= a < c.n
    ensures HandlePromises(c, s, a, ps).sent == s.sent && HandlePromises(c, s, a, ps).decisions == s.decisions
    decreases |ps|
  {
    if ps == [] {
    } else {
      HandlePromisesKeepsSent(c, HandlePromise(c, s, a, ps[0]), a, ps[1..]);
    }
  }

  lemma {:induction false} DecideKeepsInstances(c: Config, s: State, i: int, last: int)
    requires Shaped(c, s)
    ensures SameInstances(s.slots, DecideFrom(c, s, i, last).slots) && SameCounters(s, DecideFrom(c, s, i, last))
    decreases Remaining(i, last)
  {
    if i > last {
    } else {
      DecideKeepsInstances(c, if s.slots[i % c.size].status != Ready then s else Decide(c, s, i), i + 1, last);
    }
  }

  lemma ExecutePhase2Conserves(c: Config, s: State, first: int, last: int)
    requires Conserved(c, s)
    ensures Conserved(c, ExecutePhase2(c, s, first, last)) && SameCounters(s, ExecutePhase2(c, s, first, last))
  {
    var s0 := s.(anyBallot := -1, anyIids := []);
    DecideKeepsInstances(c, s0, first, last);
    SameInstancesKeepOpened(c, s0.slots, DecideFrom(c, s0, first, last).slots, s.lastToCheck);
  }

  lemma Phase2CheckConserves(c: Config, s: State)
    requires Conserved(c, s) && Bounded(c, s) && CheckHolds(c, s)
    ensures Conserved(c, Phase2Check(c, s)) && Bounded(c, Phase2Check(c, s))
    ensures Phase2Check(c, s).currentIid == s.currentIid
  {
    SameInstancesKeepOpened(c, s.slots, Phase2Check(c, s).slots, s.lastToCheck);
  }

  /** Every handler keeps the window's accounts. */
  lemma StepConserves(c: Config, s: State, e: Event)
    requires Conserved(c, s) && Bounded(c, s) && FromAcceptor(c, e)
    requires e.Delivered? ==> e.iid == s.currentIid
    ensures var r := Step(c, s, e);
            r.Some? ==> Conserved(c, r.value) && Bounded(c, r.value)
                        && r.value.currentIid == s.currentIid + if e.Delivered? then 1 else 0
  {
    match e
    case Delivered(_) =>
    case Phase1Timer => Phase1CheckConserves(c, s);
    case Promises(a, ps) =>
      HandlePromisesConserves(c, s, a, ps);
      var s1 := HandlePromises(c, s, a, ps);
      ExecutePhase2Conserves(c, s1, FirstIid(ps), LastIid(ps));
    case Phase2Timer => if CheckHolds(c, s) { Phase2CheckConserves(c, s); }
  }

  /** In every run with in-order deliveries the accounts hold between events. */
  lemma {:induction false} WindowConservation(c: Config, es: seq<Event>)
    requires c.size > 0 && WellSent(c, es) && InOrder(es)
    ensures var r := Run(c, es);
            r.Some? ==> Conserved(c, r.value) && Bounded(c, r.value) && r.value.currentIid == Deliveries(es)
  {
    if es == [] {
      InitConserves(c);
    } else {
      var before := es[..|es| - 1];
      PrefixInOrder(es);
      WindowConservation(c, before);
      if Run(c, before).Some? {
        StepConserves(c, Run(c, before).value, es[|es| - 1]);
      }
    }
  }

  // ---------- no live overwrite ----------

  /** If one and a half windows fit the ring, every open undelivered instance is still in its slot. */
  lemma NoLiveOverwrite(c: Config, s: State, i: int)
    requires Conserved(c, s) && Bounded(c, s)
    requires c.window >= 2 && c.window + c.window / 2 <= c.size
    requires s.currentIid <= i <= s.lastToCheck
    ensures s.slots[i % c.size].iid == i
  {
    SameSlot(s.slots[i % c.size].iid, i, c.size);
  }

  /**
   * The assertion of phase2_check_cb: when it is reached it holds exactly if the current instance has been
   * opened and no later one has taken its slot, that is, exactly if some instances are pending or ready and they
   * fit the ring.
   */
  lemma CheckHoldsIff(c: Config, s: State)
    requires Conserved(c, s) && s.currentIid == s.checkedIid
    ensures CheckHolds(c, s) <==> s.currentIid <= s.lastToCheck < s.currentIid + c.size
    ensures CheckHolds(c, s) <==> 0 < s.pendingCount + s.readyCount <= c.size
  {
    SlotHoldsIff(c, s.slots, s.lastToCheck, s.currentIid);
  }

  /** The slot of an instance holds it exactly if it has been opened and the next one of the slot has not. */
  lemma SlotHoldsIff(c: Config, slots: seq<Slot>, top: int, i: nat)
    requires |slots| == c.size > 0 && top >= 0 && OpenedUpTo(c, slots, top)
    ensures slots[i % c.size].iid == i <==> i <= top < i + c.size
  {
    if i <= top < i + c.size {
      SameSlot(slots[i % c.size].iid, i, c.size);
    }
    RemainderUnique(i + c.size, i / c.size + 1, i % c.size, c.size);
    OpenedIsHeld(c, slots, top, i + c.size, i % c.size);
    OpenedIsHeld(c, slots, top, 0, 0);
  }

  lemma OpenedIsHeld(c: Config, slots: seq<Slot>, top: int, i: nat, k: nat)
    requires |slots| == c.size > 0 && OpenedUpTo(c, slots, top) && k == i % c.size
    ensures i <= top ==> slots[k].iid >= i && slots[k].status != New
  {
  }

  // ---------- the assertion can fail ----------

  /** Delivering everything the leader opened, from another leader's decisions, and then two ticks. */
  function OvertakenRun(c: Config): seq<Event> {
    seq(c.window + 1, i => Delivered(i)) + [Phase2Timer] + [Phase2Timer]
  }

  lemma InitOpensWindow(c: Config)
    requires c.size > 0
    ensures Init(c).lastToCheck == c.window && Init(c).checkedIid == 0
  {
    OpenFromFrame(c, Blank(c), 0, c.window);
  }

  lemma {:induction false} DeliverMany(c: Config, k: nat)
    requires c.size > 0
    ensures var es := seq(k, i => Delivered(i));
            && InOrder(es) && Deliveries(es) == k
            && Run(c, es).Some? && Run(c, es).value.lastToCheck == c.window && Run(c, es).value.checkedIid == 0
  {
    if k == 0 {
      InitOpensWindow(c);
    } else {
      DeliverMany(c, k - 1);
      var es, before := seq(k, i => Delivered(i)), seq(k - 1, i => Delivered(i));
      assert es[..k - 1] == before;
      forall i | 0 <= i < k && es[i].Delivered? ensures es[i].iid == Deliveries(es[..i]) {
        if i < k - 1 {
          assert es[..i] == before[..i] && before[i].iid == Deliveries(before[..i]);
        }
      }
    }
  }

  /** A leader that is overtaken by another one aborts at its second tick. */
  lemma OvertakenLeaderAborts(c: Config)
    requires c.size > 0
    ensures InOrder(OvertakenRun(c)) && Run(c, OvertakenRun(c)) == None
  {
    var es := seq(c.window + 1, i => Delivered(i));
    DeliverMany(c, c.window + 1);
    WindowConservation(c, es);
    OneMoreInOrder(es, Phase2Timer);
    OneMoreInOrder(es + [Phase2Timer], Phase2Timer);
    RunOneMore(c, es, Phase2Timer);
    RunOneMore(c, es + [Phase2Timer], Phase2Timer);
    var s := Run(c, es).value;
    assert CheckHolds(c, s);
    Phase2CheckConserves(c, s);
    CheckHoldsIff(c, Phase2Check(c, s));
  }
}
