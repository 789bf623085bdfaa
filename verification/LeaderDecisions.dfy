/** Phase 2: each ballot of an instance gets at most one decision, and a quorum of promises backs it. */
module LeaderDecisions {
  import opened Common
  import opened LeaderModel
  import opened LeaderWindow

  // ---------- what backs a record ----------

  /** The entry of acceptor a was sent by it, for the record's instance and ballot. */
  ghost predicate Backed(heard: set<Heard>, slot: Slot, a: int)
    requires 0 <= a < |slot.promises|
  {
    exists p :: Heard(a, p) in heard && p.iid == slot.iid && p.ballot == slot.ballot && InfoOf(p) == slot.promises[a]
  }

  ghost predicate SlotBacked(c: Config, heard: set<Heard>, slot: Slot) {
    && |slot.promises| == c.n
    && slot.promiseCount == |Promisers(slot)|
    && (forall a :: a in Promisers(slot) ==> Backed(heard, slot, a))
    && (slot.status == Ready ==> |Promisers(slot)| >= Quorum(c.n))
    && (slot.status == Pending ==> |Promisers(slot)| < Quorum(c.n))
  }

  /** A decision was taken on the promises of a quorum for its record's instance and ballot. */
  ghost predicate DecisionBacked(c: Config, heard: set<Heard>, d: Decision) {
    && d.slot.status == Ready
    && SlotBacked(c, heard, d.slot)
  }

  /** The instance of the record, at its ballot, is over with. */
  predicate Past(c: Config, slots: seq<Slot>, d: Slot)
    requires |slots| == c.size > 0
  {
    var slot := slots[d.iid % c.size];
    && slot.status != New
    && (slot.iid > d.iid
        || (slot.iid == d.iid
            && (slot.ballot > d.ballot || (slot.ballot == d.ballot && slot.status == Finished))))
  }

  /** The instance and ballot of a record. */
  function SlotKey(slot: Slot): (int, int) {
    (slot.iid, slot.ballot)
  }

  ghost predicate Sound(c: Config, s: State) {
    && Shaped(c, s)
    && (forall k :: 0 <= k < c.size && s.slots[k].status != New ==>
          s.slots[k].iid >= 0 && s.slots[k].iid % c.size == k && SlotBacked(c, s.heard, s.slots[k]))
    && (forall d :: d in s.decisions ==> DecisionBacked(c, s.heard, d) && Past(c, s.slots, d.slot))
    && (forall i, j :: 0 <= i < j < |s.decisions| ==>
          SlotKey(s.decisions[i].slot) != SlotKey(s.decisions[j].slot))
  }

  predicate NoneReady(s: State) {
    forall k :: 0 <= k < |s.slots| ==> s.slots[k].status != Ready
  }

  // ---------- slots replaced one at a time ----------

  lemma BackingStays(c: Config, heard: set<Heard>, more: set<Heard>, slot: Slot)
    requires SlotBacked(c, heard, slot) && heard <= more
    ensures SlotBacked(c, more, slot)
  {
    forall a | a in Promisers(slot) ensures Backed(more, slot, a) {
      var p :| Heard(a, p) in heard && p.iid == slot.iid && p.ballot == slot.ballot && InfoOf(p) == slot.promises[a];
      assert Heard(a, p) in more;
    }
  }

  lemma ClearedIsBacked(c: Config, heard: set<Heard>, slot: Slot)
    requires slot.promises == seq(c.n, _ => NO_INFO) && slot.promiseCount == 0 && slot.status != Ready
    ensures SlotBacked(c, heard, slot)
  {
    assert Promisers(slot) == {};
  }

  /** Replacing the record of slot k by a later one that is itself backed. */
  lemma ReplacingIsSound(c: Config, s: State, k: nat, slot: Slot)
    requires Sound(c, s) && k < c.size
    requires slot.status != New && slot.iid >= 0 && slot.iid % c.size == k && SlotBacked(c, s.heard, slot)
    requires s.slots[k].status != New ==>
      || slot.iid > s.slots[k].iid
      || (slot.iid == s.slots[k].iid
          && (slot.ballot > s.slots[k].ballot
              || (slot.ballot == s.slots[k].ballot && (s.slots[k].status == Finished ==> slot.status == Finished))))
    ensures Sound(c, s.(slots := s.slots[k := slot]))
  {
  }

  /** Only the slots, the history and the decisions matter. */
  lemma SameSlotsSameSound(c: Config, s: State, t: State)
    requires Sound(c, s) && t.slots == s.slots && t.heard == s.heard && t.decisions == s.decisions
    ensures Sound(c, t)
  {
  }

  // ---------- phase 1 ----------

  lemma {:induction false} OpenFromIsSound(c: Config, s: State, i: int, to: int)
    requires Sound(c, s) && NoneReady(s) && i >= 0
    ensures Sound(c, OpenFrom(c, s, i, to)) && NoneReady(OpenFrom(c, s, i, to))
    decreases Remaining(i, to)
  {
    if i > to {
    } else {
      var k := i % c.size;
      if s.slots[k].iid < i || s.slots[k].status == New {
        var slot := OpenedSlot(c.n, i, c.id);
        ClearedIsBacked(c, s.heard, slot);
        ReplacingIsSound(c, s, k, slot);
        var s2 := AddPrepare(Opening(c, s, i), Prepare(i, FirstBallot(c.id)));
        SameSlotsSameSound(c, s.(slots := s.slots[k := slot]), s2);
        OpenFromIsSound(c, s2, i + 1, to);
      } else {
        OpenFromIsSound(c, s, i + 1, to);
      }
    }
  }

  lemma {:induction false} RestartFromIsSound(c: Config, s: State, i: int)
    requires Sound(c, s) && NoneReady(s)
    ensures Sound(c, RestartFrom(c, s, i)) && NoneReady(RestartFrom(c, s, i))
    decreases Remaining(i, s.lastToCheck)
  {
    if i > s.lastToCheck {
    } else {
      var k := i % c.size;
      if s.slots[k].iid == i && s.slots[k].status == Pending {
        var slot := Restarted(c.n, s.slots[k]);
        ClearedIsBacked(c, s.heard, slot);
        ReplacingIsSound(c, s, k, slot);
        var s1 := AddPrepare(s.(slots := s.slots[k := slot]), Prepare(slot.iid, slot.ballot));
        SameSlotsSameSound(c, s.(slots := s.slots[k := slot]), s1);
        RestartFromIsSound(c, s1, i + 1);
      } else {
        RestartFromIsSound(c, s, i + 1);
      }
    }
  }

  lemma ExecutePhase1IsSound(c: Config, s: State)
    requires Sound(c, s) && NoneReady(s) && s.highestReady >= -1
    ensures Sound(c, ExecutePhase1(c, s)) && NoneReady(ExecutePhase1(c, s))
  {
    OpenFromIsSound(c, s, s.highestReady + 1, s.highestReady + 1 + c.window);
    SameSlotsSameSound(c, OpenFrom(c, s, s.highestReady + 1, s.highestReady + 1 + c.window), ExecutePhase1(c, s));
  }

  lemma Phase1CheckIsSound(c: Config, s: State)
    requires Sound(c, s) && NoneReady(s) && s.highestReady >= -1
    ensures Sound(c, Phase1Check(c, s)) && NoneReady(Phase1Check(c, s))
  {
    var s0 := s.(batch := []);
    SameSlotsSameSound(c, s, s0);
    RestartFromIsSound(c, s0, s.firstToCheck);
    RestartKeepsInstances(c, s0, s.firstToCheck);
    var s1 := RestartFrom(c, s0, s.firstToCheck);
    if s1.pendingCount + s1.readyCount < c.window / 2 {
      ExecutePhase1IsSound(c, s1);
      SameSlotsSameSound(c, ExecutePhase1(c, s1), Phase1Check(c, s));
    } else {
      SameSlotsSameSound(c, s1, Phase1Check(c, s));
    }
  }

  // ---------- promises ----------

  lemma TakePromiseIsBacked(c: Config, heard: set<Heard>, slot: Slot, a: int, p: Promise)
    requires SlotBacked(c, heard, slot) && 0 <= a < c.n && Heard(a, p) in heard
    requires slot.status != New && slot.iid >= 0
    ensures SlotBacked(c, heard, TakePromise(c.n, slot, a, p))
  {
    if Wanted(slot, a, p) {
      var slot' := TakePromise(c.n, slot, a, p);
      var i := InfoOf(p);
      PromisersGrow(slot, slot', a, i);
      forall b | b in Promisers(slot') ensures Backed(heard, slot', b) {
        if b == a {
          assert InfoOf(p) == slot'.promises[b];
        } else {
          BackedStays(heard, slot, slot', b);
        }
      }
    }
  }

  /** A pending record takes the promise for its instance and ballot of an acceptor it has none of, and no other. */
  lemma TakesWhatItWaitsFor(n: nat, slot: Slot, a: int, p: Promise)
    requires 0 <= a < |slot.promises| && slot.iid >= 0
    ensures var r := TakePromise(n, slot, a, p);
            if slot.status == Pending && p.iid == slot.iid && p.ballot == slot.ballot && a !in Promisers(slot)
            then Promisers(r) == Promisers(slot) + {a} && r.promises[a] == InfoOf(p)
            else r == slot
  {
    if Wanted(slot, a, p) {
      PromisersGrow(slot, TakePromise(n, slot, a, p), a, InfoOf(p));
    }
  }

  lemma BackedStays(heard: set<Heard>, slot: Slot, slot': Slot, a: int)
    requires 0 <= a < |slot.promises| && |slot'.promises| == |slot.promises|
    requires slot'.iid == slot.iid && slot'.ballot == slot.ballot && slot'.promises[a] == slot.promises[a]
    requires Backed(heard, slot, a)
    ensures Backed(heard, slot', a)
  {
    var p :| Heard(a, p) in heard && p.iid == slot.iid && p.ballot == slot.ballot && InfoOf(p) == slot.promises[a];
    assert InfoOf(p) == slot'.promises[a];
  }

  lemma HandlePromiseIsSound(c: Config, s: State, a: int, p: Promise)
    requires Sound(c, s) && 0 <= a < c.n
    ensures Sound(c, HandlePromise(c, s, a, p))
  {
    var s1 := s.(heard := s.heard + {Heard(a, p)});
    forall k | 0 <= k < c.size && s.slots[k].status != New ensures SlotBacked(c, s1.heard, s.slots[k]) {
      BackingStays(c, s.heard, s1.heard, s.slots[k]);
    }
    forall d | d in s.decisions ensures DecisionBacked(c, s1.heard, d) {
      BackingStays(c, s.heard, s1.heard, d.slot);
    }
    assert Sound(c, s1);
    var k := p.iid % c.size;
    var slot := TakePromise(c.n, s.slots[k], a, p);
    if s.slots[k].status == New {
      SameSlotsSameSound(c, s1, HandlePromise(c, s, a, p));
    } else {
      TakePromiseIsBacked(c, s1.heard, s.slots[k], a, p);
      ReplacingIsSound(c, s1, k, slot);
      SameSlotsSameSound(c, s1.(slots := s1.slots[k := slot]), HandlePromise(c, s, a, p));
    }
  }

  /** Every ready record belongs to an instance between first and last. */
  predicate ReadyWithin(s: State, first: int, last: int) {
    forall k :: 0 <= k < |s.slots| && s.slots[k].status == Ready ==> first <= s.slots[k].iid <= last
  }

  lemma {:induction false} HandlePromisesIsSound(c: Config, s: State, a: int, ps: seq<Promise>, first: int, last: int)
    requires Sound(c, s) && 0 <= a < c.n && ReadyWithin(s, first, last)
    requires forall p :: p in ps ==> first <= p.iid <= last
    ensures Sound(c, HandlePromises(c, s, a, ps)) && ReadyWithin(HandlePromises(c, s, a, ps), first, last)
    decreases |ps|
  {
    if ps == [] {
    } else {
      HandlePromiseIsSound(c, s, a, ps[0]);
      assert ps[0] in ps;
      HandlePromisesIsSound(c, HandlePromise(c, s, a, ps[0]), a, ps[1..], first, last);
    }
  }

  // ---------- decisions ----------

  lemma DecideIsSound(c: Config, s: State, i: int)
    requires Sound(c, s) && s.slots[i % c.size].status == Ready
    ensures Sound(c, Decide(c, s, i))
  {
    var k := i % c.size;
    var slot := s.slots[k];
    var done := slot.(status := Finished);
    var t := Decide(c, s, i);
    var d := t.decisions[|s.decisions|];
    assert Promisers(done) == Promisers(slot);
    forall a | a in Promisers(done) ensures Backed(s.heard, done, a) {
      BackedStays(s.heard, slot, done, a);
    }
    forall e | e in s.decisions ensures SlotKey(e.slot) != SlotKey(slot) {
      assert Past(c, s.slots, e.slot);
    }
    ReplacingIsSound(c, s, k, done);
    DecidingOneMore(c, s.(slots := s.slots[k := done]), d);
    SameSlotsSameSound(c, s.(slots := s.slots[k := done], decisions := s.decisions + [d]), t);
  }

  lemma DecidingOneMore(c: Config, s: State, d: Decision)
    requires Sound(c, s) && DecisionBacked(c, s.heard, d) && Past(c, s.slots, d.slot)
    requires forall e :: e in s.decisions ==> SlotKey(e.slot) != SlotKey(d.slot)
    ensures Sound(c, s.(decisions := s.decisions + [d]))
  {
  }

  /** Whether or not slot i is decided, what stays ready belongs to the instances above i. */
  lemma PassingNarrows(c: Config, s: State, i: int, last: int)
    requires Sound(c, s) && ReadyWithin(s, i, last)
    ensures s.slots[i % c.size].status != Ready ==> ReadyWithin(s, i + 1, last)
    ensures s.slots[i % c.size].status == Ready ==> ReadyWithin(Decide(c, s, i), i + 1, last)
  {
    var k := i % c.size;
    forall j | 0 <= j < c.size && j != k && s.slots[j].status == Ready ensures s.slots[j].iid > i {
      assert s.slots[j].iid % c.size == j;
    }
  }

  /** execute_phase2 decides every record that is ready within its range, however wide that is. */
  lemma {:induction false} DecideFromIsSound(c: Config, s: State, i: int, last: int)
    requires Sound(c, s) && ReadyWithin(s, i, last)
    ensures Sound(c, DecideFrom(c, s, i, last)) && NoneReady(DecideFrom(c, s, i, last))
    decreases Remaining(i, last)
  {
    if i > last {
    } else {
      PassingNarrows(c, s, i, last);
      if s.slots[i % c.size].status != Ready {
        DecideFromIsSound(c, s, i + 1, last);
      } else {
        DecideIsSound(c, s, i);
        DecideFromIsSound(c, Decide(c, s, i), i + 1, last);
      }
    }
  }

  /** No promise of the batch lies outside the range from the first to the last one. */
  predicate Spanned(ps: seq<Promise>) {
    forall p :: p in ps ==> ps[0].iid <= p.iid <= ps[|ps| - 1].iid
  }

  lemma HandlePromiseMsgIsSound(c: Config, s: State, a: int, ps: seq<Promise>)
    requires Sound(c, s) && NoneReady(s) && 0 <= a < c.n && Spanned(ps)
    ensures Sound(c, HandlePromiseMsg(c, s, a, ps)) && NoneReady(HandlePromiseMsg(c, s, a, ps))
  {
    HandlePromisesIsSound(c, s, a, ps, FirstIid(ps), LastIid(ps));
    var s1 := HandlePromises(c, s, a, ps);
    var s2 := s1.(anyBallot := -1, anyIids := []);
    SameSlotsSameSound(c, s1, s2);
    DecideFromIsSound(c, s2, FirstIid(ps), LastIid(ps));
    SameSlotsSameSound(c, DecideFrom(c, s2, FirstIid(ps), LastIid(ps)), HandlePromiseMsg(c, s, a, ps));
  }

  lemma Phase2CheckIsSound(c: Config, s: State)
    requires Sound(c, s) && NoneReady(s) && CheckHolds(c, s)
    requires Conserved(c, s)
    ensures Sound(c, Phase2Check(c, s)) && NoneReady(Phase2Check(c, s))
  {
    if s.currentIid != s.checkedIid {
      SameSlotsSameSound(c, s, Phase2Check(c, s));
    } else {
      var k := s.currentIid % c.size;
      var slot := Restarted(c.n, s.slots[k]);
      ClearedIsBacked(c, s.heard, slot);
      ReplacingIsSound(c, s, k, slot);
      SameSlotsSameSound(c, s.(slots := s.slots[k := slot]), Phase2Check(c, s));
    }
  }

  // ---------- every run ----------

  predicate SpannedBatches(es: seq<Event>) {
    forall i :: 0 <= i < |es| && es[i].Promises? ==> Spanned(es[i].promises)
  }

  lemma InitIsSound(c: Config)
    requires c.size > 0
    ensures Sound(c, Init(c)) && NoneReady(Init(c))
  {
    ExecutePhase1IsSound(c, Blank(c));
  }

  lemma StepIsSound(c: Config, s: State, e: Event)
    requires Sound(c, s) && NoneReady(s) && Conserved(c, s) && FromAcceptor(c, e)
    requires e.Promises? ==> Spanned(e.promises)
    ensures Step(c, s, e).Some? ==> Sound(c, Step(c, s, e).value) && NoneReady(Step(c, s, e).value)
  {
    match e
    case Delivered(iid) => SameSlotsSameSound(c, s, Deliver(s, iid));
    case Phase1Timer => Phase1CheckIsSound(c, s);
    case Promises(a, ps) => HandlePromiseMsgIsSound(c, s, a, ps);
    case Phase2Timer => if CheckHolds(c, s) { Phase2CheckIsSound(c, s); }
  }

  /**
   * Whatever promises and timers arrive, as long as each promise batch stays within its first and last
   * instance: nothing is left ready, each instance gets at most one decision per ballot, and a quorum of
   * promises for it was heard.
   */
  lemma {:induction false} OneBackedDecisionPerBallot(c: Config, es: seq<Event>)
    requires c.size > 0 && WellSent(c, es) && InOrder(es) && SpannedBatches(es)
    ensures var r := Run(c, es); r.Some? ==> Sound(c, r.value) && NoneReady(r.value)
  {
    if es == [] {
      InitIsSound(c);
    } else {
      var before := es[..|es| - 1];
      PrefixInOrder(es);
      OneBackedDecisionPerBallot(c, before);
      WindowConservation(c, before);
      if Run(c, before).Some? {
        StepIsSound(c, Run(c, before).value, es[|es| - 1]);
      }
    }
  }

  // ---------- highest_ready ----------

  /** Every ready or decided instance is at most highest_ready, and some such instance is highest_ready. */
  ghost predicate HighestKnown(s: State) {
    && (forall k :: 0 <= k < |s.slots| && s.slots[k].status == Ready ==> s.slots[k].iid <= s.highestReady)
    && (forall d :: d in s.decisions ==> d.slot.iid <= s.highestReady)
    && (s.highestReady == -1
        || (exists k :: 0 <= k < |s.slots| && s.slots[k].status == Ready && s.slots[k].iid == s.highestReady)
        || (exists d :: d in s.decisions && d.slot.iid == s.highestReady))
  }

  lemma PromiseKeepsHighest(c: Config, s: State, a: int, p: Promise)
    requires Shaped(c, s) && 0 <= a < c.n && HighestKnown(s)
    ensures HighestKnown(HandlePromise(c, s, a, p))
  {
    var k, t := p.iid % c.size, HandlePromise(c, s, a, p);
    if s.slots[k].status == Pending && t.slots[k].status == Ready && s.highestReady < t.slots[k].iid {
      assert t.slots[k].iid == t.highestReady;
    } else if j :| 0 <= j < |s.slots| && s.slots[j].status == Ready && s.slots[j].iid == s.highestReady {
      assert t.slots[j] == s.slots[j];
    }
  }

  lemma {:induction false} PromisesKeepHighest(c: Config, s: State, a: int, ps: seq<Promise>)
    requires Shaped(c, s) && 0 <= a < c.n && HighestKnown(s)
    ensures HighestKnown(HandlePromises(c, s, a, ps))
    decreases |ps|
  {
    if ps == [] {
    } else {
      PromiseKeepsHighest(c, s, a, ps[0]);
      PromisesKeepHighest(c, HandlePromise(c, s, a, ps[0]), a, ps[1..]);
    }
  }

  lemma DecideKeepsHighest(c: Config, s: State, i: int)
    requires Shaped(c, s) && HighestKnown(s) && s.slots[i % c.size].status == Ready
    ensures HighestKnown(Decide(c, s, i))
  {
    var k := i % c.size;
    var t := Decide(c, s, i);
    var d := t.decisions[|s.decisions|];
    assert d in t.decisions && d.slot == s.slots[k];
    if j :| 0 <= j < |s.slots| && s.slots[j].status == Ready && s.slots[j].iid == s.highestReady {
      if j != k { assert t.slots[j] == s.slots[j]; }
    } else if e :| e in s.decisions && e.slot.iid == s.highestReady {
      assert e in t.decisions;
    }
  }

  lemma {:induction false} DecideFromKeepsHighest(c: Config, s: State, i: int, last: int)
    requires Shaped(c, s) && HighestKnown(s)
    ensures HighestKnown(DecideFrom(c, s, i, last))
    decreases Remaining(i, last)
  {
    if i > last {
    } else {
      if s.slots[i % c.size].status != Ready {
        DecideFromKeepsHighest(c, s, i + 1, last);
      } else {
        DecideKeepsHighest(c, s, i);
        DecideFromKeepsHighest(c, Decide(c, s, i), i + 1, last);
      }
    }
  }

  /** With nothing ready, only the decisions matter. */
  lemma UnreadyKeepsHighest(s: State, t: State)
    requires HighestKnown(s) && NoneReady(s) && NoneReady(t)
    requires t.decisions == s.decisions && t.highestReady == s.highestReady
    ensures HighestKnown(t)
  {
  }

  lemma Phase1KeepsHighest(c: Config, s: State)
    requires Shaped(c, s)
    ensures Phase1Check(c, s).decisions == s.decisions && Phase1Check(c, s).highestReady == s.highestReady
  {
    var s0 := s.(batch := []);
    RestartKeepsInstances(c, s0, s.firstToCheck);
    var s1 := RestartFrom(c, s0, s.firstToCheck);
    OpenFromFrame(c, s1, s1.highestReady + 1, s1.highestReady + 1 + c.window);
  }

  /** Between events highest_ready is the highest instance ever decided, or -1: the window starts right above it. */
  lemma {:induction false} HighestReadyIsHighestDecided(c: Config, es: seq<Event>)
    requires c.size > 0 && WellSent(c, es) && InOrder(es) && SpannedBatches(es)
    ensures var r := Run(c, es);
            r.Some? ==>
              && HighestKnown(r.value)
              && (r.value.highestReady == -1
                  || exists d :: d in r.value.decisions && d.slot.iid == r.value.highestReady)
              && (forall d :: d in r.value.decisions ==> d.slot.iid <= r.value.highestReady)
  {
    OneBackedDecisionPerBallot(c, es);
    if es == [] {
      OpenFromOpens(c, Blank(c), 0, c.window, -1);
      OpenFromFrame(c, Blank(c), 0, c.window);
    } else {
      var before := es[..|es| - 1];
      PrefixInOrder(es);
      HighestReadyIsHighestDecided(c, before);
      OneBackedDecisionPerBallot(c, before);
      WindowConservation(c, before);
      if Run(c, before).Some? && Run(c, es).Some? {
        StepKeepsHighest(c, Run(c, before).value, es[|es| - 1]);
      }
    }
  }

  lemma StepKeepsHighest(c: Config, s: State, e: Event)
    requires Conserved(c, s) && HighestKnown(s) && NoneReady(s) && FromAcceptor(c, e)
    requires Step(c, s, e).Some? && NoneReady(Step(c, s, e).value)
    ensures HighestKnown(Step(c, s, e).value)
  {
    match e
    case Delivered(_) => UnreadyKeepsHighest(s, Step(c, s, e).value);
    case Phase1Timer =>
      Phase1KeepsHighest(c, s);
      UnreadyKeepsHighest(s, Step(c, s, e).value);
    case Promises(a, ps) =>
      PromisesKeepHighest(c, s, a, ps);
      var s1 := HandlePromises(c, s, a, ps).(anyBallot := -1, anyIids := []);
      DecideFromKeepsHighest(c, s1, FirstIid(ps), LastIid(ps));
    case Phase2Timer => UnreadyKeepsHighest(s, Step(c, s, e).value);
  }
}
