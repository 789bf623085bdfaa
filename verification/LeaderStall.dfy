/** phase2_check_cb: an instance on which nothing moved since the last tick is asked for again. */
module LeaderStall {
  import opened Common
  import opened LeaderModel
  import opened LeaderWindow
  import opened LeaderDecisions

  /** The record slot' is slot gone back to phase 1, in the ballot that follows. */
  predicate BackToPhase1(slot: Slot, slot': Slot) {
    && slot'.iid == slot.iid && slot'.ballot == slot.ballot + MAX_PROPOSERS
    && slot'.status == (if slot.status == Finished then Pending else slot.status)
    && slot'.promiseCount == 0
    && |slot'.promises| == |slot.promises| && (forall a :: 0 <= a < |slot'.promises| ==> slot'.promises[a].iid == -1)
  }

  /** From s to t the record of the instance goes back to phase 1, one packet asks for it, and nothing else happens. */
  predicate AsksAgain(s: State, t: State, iid: int) {
    exists k :: 0 <= k < |s.slots| && AsksAgainAt(s, t, iid, k)
  }

  predicate AsksAgainAt(s: State, t: State, iid: int, k: int)
    requires 0 <= k < |s.slots|
  {
    && s.slots[k].iid == iid && s.slots[k].status != New
    && |t.slots| == |s.slots| && BackToPhase1(s.slots[k], t.slots[k])
    && (forall j :: 0 <= j < |s.slots| && j != k ==> t.slots[j] == s.slots[j])
    && t.sent == s.sent + [Prepares([Prepare(iid, t.slots[k].ballot)])]
  }

  /** A tick without progress since the last one asks again for the current instance. */
  lemma StalledTickAsksAgain(c: Config, s: State)
    requires Conserved(c, s) && CheckHolds(c, s) && s.currentIid == s.checkedIid
    ensures AsksAgain(s, Phase2Check(c, s), s.currentIid)
    ensures Phase2Check(c, s).currentIid == Phase2Check(c, s).checkedIid == s.currentIid
  {
    var k, t := s.currentIid % c.size, Phase2Check(c, s);
    var slot := Restarted(c.n, s.slots[k]);
    assert t.sent[|s.sent|] == Prepares([Prepare(slot.iid, slot.ballot)]);
    assert AsksAgainAt(s, t, s.currentIid, k);
  }

  /** Neither promises nor the first timer touch what the second timer compares. */
  lemma OthersKeepChecked(c: Config, s: State, e: Event)
    requires Shaped(c, s) && FromAcceptor(c, e) && (e.Phase1Timer? || e.Promises?)
    ensures var t := Step(c, s, e).value; t.currentIid == s.currentIid && t.checkedIid == s.checkedIid
  {
    match e
    case Phase1Timer =>
      var s0 := s.(batch := []);
      RestartKeepsInstances(c, s0, s.firstToCheck);
      var s1 := RestartFrom(c, s0, s.firstToCheck);
      OpenFromFrame(c, s1, s1.highestReady + 1, s1.highestReady + 1 + c.window);
    case Promises(a, ps) =>
      PromisesKeepChecked(c, s, a, ps);
      var s1 := HandlePromises(c, s, a, ps).(anyBallot := -1, anyIids := []);
      var inv := (t: State) => t.currentIid == s.currentIid && t.checkedIid == s.checkedIid;
      forall t, j | Shaped(c, t) && inv(t) ensures inv(Decide(c, t, j)) {
      }
      DecideFromKeeps(c, s1, FirstIid(ps), LastIid(ps), inv);
  }

  lemma {:induction false} PromisesKeepChecked(c: Config, s: State, a: int, ps: seq<Promise>)
    requires Shaped(c, s) && 0 <= a < c.n
    ensures var t := HandlePromises(c, s, a, ps); t.currentIid == s.currentIid && t.checkedIid == s.checkedIid
    decreases |ps|
  {
    if ps == [] {
    } else {
      PromisesKeepChecked(c, HandlePromise(c, s, a, ps[0]), a, ps[1..]);
    }
  }

  /** Nothing is delivered, and the second timer does not tick. */
  predicate Between(es: seq<Event>) {
    forall i :: 0 <= i < |es| ==> es[i].Phase1Timer? || es[i].Promises?
  }

  lemma {:induction false} BetweenKeepsChecked(c: Config, es: seq<Event>, mid: seq<Event>)
    requires c.size > 0 && WellSent(c, es) && WellSent(c, mid) && InOrder(es) && Between(mid)
    requires Run(c, es).Some? && Run(c, es).value.currentIid == Run(c, es).value.checkedIid
    ensures WellSent(c, es + mid) && InOrder(es + mid) && Deliveries(es + mid) == Deliveries(es)
    ensures Run(c, es + mid).Some?
    ensures Run(c, es + mid).value.currentIid == Run(c, es + mid).value.checkedIid
  {
    if mid == [] {
      assert es + mid == es;
    } else {
      var front, e := mid[..|mid| - 1], mid[|mid| - 1];
      BetweenKeepsChecked(c, es, front);
      assert es + mid == (es + front) + [e];
      OneMoreInOrder(es + front, e);
      RunOneMore(c, es + front, e);
      OthersKeepChecked(c, Run(c, es + front).value, e);
    }
  }

  /** A tick after progress sends nothing and changes no record; it notes the current instance. */
  lemma ProgressIsNoted(c: Config, s: State)
    requires Shaped(c, s) && s.currentIid != s.checkedIid
    ensures CheckHolds(c, s)
    ensures var t := Phase2Check(c, s);
            t.sent == s.sent && t.slots == s.slots && t.currentIid == t.checkedIid == s.currentIid
  {
  }

  /**
   * Of any two ticks of the second timer between which nothing is delivered, the later asks again for the
   * instance that is due, unless the assertion fails: that instance is the number of deliveries so far.
   */
  lemma StalledInstanceIsAskedAgain(c: Config, es: seq<Event>, mid: seq<Event>)
    requires c.size > 0 && WellSent(c, es) && WellSent(c, mid) && InOrder(es) && Between(mid)
    requires Run(c, es + [Phase2Timer]).Some?
    ensures var before := es + [Phase2Timer] + mid;
            && WellSent(c, before) && InOrder(before) && Run(c, before).Some?
            && var s, r := Run(c, before).value, Run(c, before + [Phase2Timer]);
               if CheckHolds(c, s) then r.Some? && AsksAgain(s, r.value, Deliveries(es)) else r == None
  {
    var first := es + [Phase2Timer];
    var before := first + mid;
    OneMoreInOrder(es, Phase2Timer);
    RunOneMore(c, es, Phase2Timer);
    WindowConservation(c, es);
    TickNotes(c, Run(c, es).value);
    BetweenKeepsChecked(c, first, mid);
    WindowConservation(c, before);
    RunOneMore(c, before, Phase2Timer);
    if CheckHolds(c, Run(c, before).value) {
      StalledTickAsksAgain(c, Run(c, before).value);
    }
  }

  lemma TickNotes(c: Config, s: State)
    requires Conserved(c, s) && CheckHolds(c, s)
    ensures Phase2Check(c, s).currentIid == Phase2Check(c, s).checkedIid == s.currentIid
  {
    if s.currentIid == s.checkedIid {
      StalledTickAsksAgain(c, s);
    }
  }
}
