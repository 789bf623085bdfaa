/** Agreement: no two learners ever deliver different values for an instance. */
module Agreement {
  import opened Common
  import A = AcceptorRecord
  import L = LeaderModel
  import M = LearnerModel
  import opened Protocol

  // ---------- validity ----------

  predicate Submitted(s: State, v: Value) {
    exists p :: 0 <= p < |s.values| && s.values[p] == Some(v)
  }

  /** Every value in a message is one a proposer submitted. */
  predicate CarriesSubmitted(sys: System, s: State, m: Msg) {
    match m
    case MPrepare(p) => p.iid == sys.inst
    case MAccept(a) => Submitted(s, a.value) && a.iid == sys.inst && a.ballot >= MAX_PROPOSERS
    case MPromise(_, p) => p.valueBallot > -1 ==> Submitted(s, p.value)
    case MLearn(l) => Submitted(s, l.value) || l.value == []
    case MAnyval(_) => true
  }

  predicate HoldsSubmitted(sys: System, s: State, r: A.Record) {
    && r.iid <= sys.inst
    && (r.iid == sys.inst && r.value.Some? ==> Submitted(s, r.value.value))
    && (r.iid == sys.inst ==> if r.value.Some? then r.valueBallot >= MAX_PROPOSERS else r.valueBallot == -1)
  }

  predicate HeardSubmitted(sys: System, s: State, slot: L.Slot) {
    slot.status != L.New ==>
      && slot.iid == sys.inst && slot.ballot >= MIN_BALLOT
      && (forall a :: 0 <= a < |slot.promises| && L.Reports(slot.promises[a]) ==> Submitted(s, slot.promises[a].value))
  }

  ghost predicate OnlySubmitted(sys: System, s: State) {
    && Shaped(sys, s)
    && (forall m :: m in s.net ==> CarriesSubmitted(sys, s, m))
    && (forall a :: 0 <= a < sys.n ==> HoldsSubmitted(sys, s, s.accs[a]))
    && (forall l :: 0 <= l < MAX_PROPOSERS ==> HeardSubmitted(sys, s, s.leaders[l]))
  }

  lemma SubmitKeepsOnlySubmitted(sys: System, s: State, p: int, v: Value)
    requires OnlySubmitted(sys, s) && Enabled(sys, s, Submit(p, v))
    ensures OnlySubmitted(sys, Apply(sys, s, Submit(p, v)))
  {
    var t := Apply(sys, s, Submit(p, v));
    assert t.values[p] == Some(v);
    forall w | Submitted(s, w) ensures Submitted(t, w) {
      var q :| 0 <= q < |s.values| && s.values[q] == Some(w);
      assert t.values[q] == Some(w);
    }
    assert CarriesSubmitted(sys, t, MAccept(FastAccept(sys, p, v)));
    forall m | m in s.net ensures CarriesSubmitted(sys, t, m) {
      assert CarriesSubmitted(sys, s, m);
    }
  }

  lemma LeaderKeepsOnlySubmitted(sys: System, s: State, e: Event)
    requires OnlySubmitted(sys, s) && Enabled(sys, s, e)
    requires e.Open? || e.Restart? || e.TakePromise? || e.Decide?
    ensures OnlySubmitted(sys, Apply(sys, s, e))
  {
    assert HeardSubmitted(sys, s, s.leaders[e.leader]);
    var t := Apply(sys, s, e);
    if e.TakePromise? {
      assert CarriesSubmitted(sys, s, MPromise(e.acc, e.promise));
    }
    assert HeardSubmitted(sys, t, t.leaders[e.leader]);
  }

  lemma AcceptorKeepsOnlySubmitted(sys: System, s: State, e: Event)
    requires OnlySubmitted(sys, s) && Enabled(sys, s, e)
    requires e.OnPrepare? || e.OnAccept? || e.OnAnyval? || e.OnLsync? || e.Reuse? || e.Evict? || e.Fetch?
    ensures OnlySubmitted(sys, Apply(sys, s, e))
  {
    assert HoldsSubmitted(sys, s, s.accs[e.acc]);
    var t := Apply(sys, s, e);
    if e.OnPrepare? {
      assert CarriesSubmitted(sys, s, MPrepare(e.prepare));
    } else if e.OnAccept? {
      assert CarriesSubmitted(sys, s, MAccept(e.accept));
    }
    assert HoldsSubmitted(sys, t, t.accs[e.acc]);
  }

  lemma StepKeepsOnlySubmitted(sys: System, s: State, e: Event)
    requires OnlySubmitted(sys, s)
    ensures OnlySubmitted(sys, Apply(sys, s, e))
  {
    if Enabled(sys, s, e) {
      match e
      case Submit(p, v) => SubmitKeepsOnlySubmitted(sys, s, p, v);
      case Open(_) => LeaderKeepsOnlySubmitted(sys, s, e);
      case Restart(_) => LeaderKeepsOnlySubmitted(sys, s, e);
      case TakePromise(_, _, _) => LeaderKeepsOnlySubmitted(sys, s, e);
      case Decide(_, _) => LeaderKeepsOnlySubmitted(sys, s, e);
      case Stray(_) =>
      case _ => AcceptorKeepsOnlySubmitted(sys, s, e);
    }
  }

  lemma {:induction false} RunsKeepOnlySubmitted(sys: System, es: seq<Event>)
    ensures OnlySubmitted(sys, Exec(sys, es))
  {
    if es == [] {
    } else {
      RunsKeepOnlySubmitted(sys, es[..|es| - 1]);
      StepKeepsOnlySubmitted(sys, Exec(sys, es[..|es| - 1]), es[|es| - 1]);
    }
  }

  /** Every learn on the network carries a submitted value. */
  ghost predicate LearnsSubmitted(s: State) {
    forall l :: MLearn(l) in s.net ==> Submitted(s, l.value)
  }

  lemma StepLearnsOnlySubmitted(sys: System, h: Provisos, s: State, e: Event)
    requires OnlySubmitted(sys, s) && LearnsSubmitted(s) && h.lsyncHeld && Permitted(sys, h, s, e)
    ensures LearnsSubmitted(Apply(sys, s, e))
  {
    if Enabled(sys, s, e) {
      var t := Apply(sys, s, e);
      match e
      case Submit(p, v) =>
        forall w | Submitted(s, w) ensures Submitted(t, w) {
          var q :| 0 <= q < |s.values| && s.values[q] == Some(w);
          assert q != p ==> t.values[q] == Some(w);
          assert q == p ==> t.values[p] == Some(w);
        }
      case OnAccept(_, m) => assert CarriesSubmitted(sys, s, MAccept(m));
      case OnLsync(a) => assert HoldsSubmitted(sys, s, s.accs[a]);
      case _ =>
    }
  }

  lemma {:induction false} RunsLearnOnlySubmitted(sys: System, h: Provisos, es: seq<Event>)
    requires h.lsyncHeld && Legal(sys, h, es)
    ensures LearnsSubmitted(Exec(sys, es))
  {
    if es == [] {
    } else {
      var before := es[..|es| - 1];
      RunsLearnOnlySubmitted(sys, h, before);
      RunsKeepOnlySubmitted(sys, before);
      StepLearnsOnlySubmitted(sys, h, Exec(sys, before), es[|es| - 1]);
    }
  }

  // ---------- the safety invariant ----------

  /** Acceptor a took value v in ballot b at some point. */
  predicate Voted(s: State, a: int, b: int, v: Value)
    requires 0 <= a < |s.votes|
  {
    exists m :: m in s.votes[a] && m.ballot == b && m.value == v
  }

  /** Acceptor a took value v in some ballot. */
  predicate VotedValue(s: State, a: int, v: Value)
    requires 0 <= a < |s.votes|
  {
    exists m :: m in s.votes[a] && m.value == v
  }

  /** The record holds a value for the instance. */
  predicate Holds(sys: System, r: A.Record) {
    r.iid == sys.inst && r.value.Some?
  }

  /**
   * An acceptor's record against its votes: once it serves the instance, ANYVAL is enabled only before the
   * first vote, ballots rise from the first vote on, and so every vote but the first is a classic one.
   */
  predicate AccOk(sys: System, r: A.Record, vs: seq<Accept>) {
    && r.iid <= sys.inst
    && (Holds(sys, r) <==> vs != [])
    && (Holds(sys, r) ==>
          && !r.anyEnabled
          && r.valueBallot == vs[|vs| - 1].ballot <= r.ballot
          && r.value.value == vs[|vs| - 1].value)
    && (r.iid == sys.inst && r.value.None? ==> r.valueBallot == -1)
    && (forall i, j :: 0 <= i < j < |vs| ==> vs[i].ballot <= vs[j].ballot && vs[j].ballot >= MIN_BALLOT)
  }

  /** A promise that reports a value: no vote of that acceptor below the promise is above the report. */
  ghost predicate PromiseOk(sys: System, s: State, a: int, p: Promise)
    requires Shaped(sys, s)
  {
    && IsAcceptor(sys, a) && p.iid == sys.inst
    && (p.valueBallot != -1 ==>
          && Voted(s, a, p.valueBallot, p.value)
          && p.valueBallot < p.ballot <= s.accs[a].ballot
          && Holds(sys, s.accs[a])
          && (forall m :: m in s.votes[a] && m.ballot < p.ballot ==> m.ballot <= p.valueBallot))
  }

  /** A leader's accept carries a value that some acceptor reported for its ballot. */
  ghost predicate Backed(s: State, m: Accept) {
    exists a, p :: MPromise(a, p) in s.net && p.ballot == m.ballot && p.valueBallot != -1 && p.value == m.value
  }

  ghost predicate AcceptOk(sys: System, s: State, m: Accept)
    requires Shaped(sys, s)
  {
    && m.iid == sys.inst
    && if m.ballot < MIN_BALLOT then
         var p := m.ballot - MAX_PROPOSERS;
         IsProposer(p) && s.values[p] == Some(m.value) && m == FastAccept(sys, p, m.value)
       else
         var slot := s.leaders[m.ballot % MAX_PROPOSERS];
         && Backed(s, m)
         && slot.status != L.New
         && (m.ballot < slot.ballot || (m.ballot == slot.ballot && slot.status == L.Finished))
  }

  ghost predicate LeaderOk(sys: System, s: State, l: int)
    requires Shaped(sys, s) && IsProposer(l)
  {
    var slot := s.leaders[l];
    slot.status != L.New ==>
      && slot.iid == sys.inst && slot.ballot >= MIN_BALLOT && slot.ballot % MAX_PROPOSERS == l
      && (forall a :: 0 <= a < sys.n && L.Reports(slot.promises[a]) ==>
            MPromise(a, Promise(sys.inst, slot.ballot, slot.promises[a].valueBallot, slot.promises[a].value)) in s.net)
  }

  ghost predicate MsgOk(sys: System, h: Provisos, s: State, m: Msg)
    requires Shaped(sys, s)
  {
    match m
    case MPrepare(p) => p.iid == sys.inst
    case MPromise(a, p) => PromiseOk(sys, s, a, p)
    case MAccept(a) => AcceptOk(sys, s, a)
    case MAnyval(_) => true
    case MLearn(l) =>
      && IsAcceptor(sys, l.acceptorId) && l.iid == sys.inst
      && (h.lsyncHeld ==> VotedValue(s, l.acceptorId, l.value))
      && (h.lsyncHeld && h.lsyncCurrent ==> Voted(s, l.acceptorId, l.ballot, l.value))
  }

  ghost predicate OneAcceptPerBallot(s: State) {
    forall m, m' :: MAccept(m) in s.net && MAccept(m') in s.net && m.ballot == m'.ballot ==> m == m'
  }

  ghost predicate Safe(sys: System, h: Provisos, s: State) {
    && Shaped(sys, s)
    && (forall a :: 0 <= a < sys.n ==> AccOk(sys, s.accs[a], s.votes[a]))
    && (forall a, m :: 0 <= a < sys.n && m in s.votes[a] ==> MAccept(m) in s.net)
    && (forall m :: m in s.net ==> MsgOk(sys, h, s, m))
    && (forall l :: 0 <= l < MAX_PROPOSERS ==> LeaderOk(sys, s, l))
    && OneAcceptPerBallot(s)
  }

  /**
   * No leader's accept is out for the instance while an acceptor's slot still serves an earlier one with
   * ANYVAL enabled. Such an accept would be taken without clearing the flag.
   */
  ghost predicate Guarded(sys: System, s: State)
    requires Shaped(sys, s)
  {
    forall m, a :: MAccept(m) in s.net && m.ballot >= MIN_BALLOT && 0 <= a < sys.n && s.accs[a].iid < sys.inst
      ==> !s.accs[a].anyEnabled
  }

  ghost predicate GuardedRun(sys: System, es: seq<Event>) {
    es == [] || (GuardedRun(sys, es[..|es| - 1]) && Guarded(sys, Exec(sys, es[..|es| - 1])))
  }

  /** A message depends on the values submitted only through the fast accepts. */
  lemma OtherMessagesStayOk(sys: System, h: Provisos, s: State, t: State, m: Msg)
    requires Shaped(sys, s) && Shaped(sys, t)
    requires t.accs == s.accs && t.votes == s.votes && t.leaders == s.leaders && s.net <= t.net
    requires MsgOk(sys, h, s, m)
    requires m.MAccept? && m.accept.ballot < MIN_BALLOT ==> AcceptOk(sys, t, m.accept)
    ensures MsgOk(sys, h, t, m)
  {
    if m.MAccept? && m.accept.ballot >= MIN_BALLOT { BackingStays(s, t, m.accept); }
    if m.MPromise? { assert PromiseOk(sys, s, m.acceptorId, m.promise); }
  }

  lemma SubmitKeepsMessages(sys: System, h: Provisos, s: State, p: int, v: Value, m: Msg)
    requires Safe(sys, h, s) && Enabled(sys, s, Submit(p, v)) && m in s.net
    ensures MsgOk(sys, h, Apply(sys, s, Submit(p, v)), m)
    ensures m.MAccept? && m.accept.ballot == FixedBallot(p) ==> m.accept == FastAccept(sys, p, v)
  {
    var t := Apply(sys, s, Submit(p, v));
    assert MsgOk(sys, h, s, m);
    OtherMessagesStayOk(sys, h, s, t, m);
  }

  lemma SubmitIsSafe(sys: System, h: Provisos, s: State, p: int, v: Value)
    requires Safe(sys, h, s) && Enabled(sys, s, Submit(p, v))
    ensures Safe(sys, h, Apply(sys, s, Submit(p, v)))
  {
    var t := Apply(sys, s, Submit(p, v));
    var fast := FastAccept(sys, p, v);
    forall m | m in s.net ensures MsgOk(sys, h, t, m) {
      SubmitKeepsMessages(sys, h, s, p, v, m);
    }
    assert AcceptOk(sys, t, fast);
    forall m | MAccept(m) in s.net && m.ballot == fast.ballot ensures m == fast {
      SubmitKeepsMessages(sys, h, s, p, v, MAccept(m));
    }
    forall l | 0 <= l < MAX_PROPOSERS ensures LeaderOk(sys, t, l) {
      assert LeaderOk(sys, s, l);
    }
  }

  lemma BackingStays(s: State, t: State, m: Accept)
    requires Backed(s, m) && s.net <= t.net
    ensures Backed(t, m)
  {
    var a, p :| MPromise(a, p) in s.net && p.ballot == m.ballot && p.valueBallot != -1 && p.value == m.value;
    assert MPromise(a, p) in t.net;
  }

  /** What a step of a leader alone must provide. */
  lemma LeaderStepIsSafe(sys: System, h: Provisos, s: State, l: int, slot: L.Slot, sent: Msg)
    requires Safe(sys, h, s) && IsProposer(l) && |slot.promises| == sys.n
    requires var was := s.leaders[l];
             && (was.status != L.New ==> slot.status != L.New)
             && (was.status != L.New ==>
                   slot.ballot > was.ballot
                   || (slot.ballot == was.ballot && (was.status == L.Finished ==> slot.status == L.Finished)))
    requires var t := s.(leaders := s.leaders[l := slot], net := s.net + {sent});
             LeaderOk(sys, t, l) && MsgOk(sys, h, t, sent)
    requires sent.MAccept? ==> forall m :: MAccept(m) in s.net ==> m.ballot != sent.accept.ballot
    ensures Safe(sys, h, s.(leaders := s.leaders[l := slot], net := s.net + {sent}))
  {
    var t := s.(leaders := s.leaders[l := slot], net := s.net + {sent});
    forall m | m in s.net ensures MsgOk(sys, h, t, m) {
      assert MsgOk(sys, h, s, m);
      if m.MAccept? && Backed(s, m.accept) { BackingStays(s, t, m.accept); }
    }
    forall k | 0 <= k < MAX_PROPOSERS ensures LeaderOk(sys, t, k) {
      assert LeaderOk(sys, s, k);
    }
  }

  lemma OpenOrRestartIsSafe(sys: System, h: Provisos, s: State, e: Event)
    requires Safe(sys, h, s) && Enabled(sys, s, e) && (e.Open? || e.Restart?)
    ensures Safe(sys, h, Apply(sys, s, e))
  {
    var l := e.leader;
    assert LeaderOk(sys, s, l);
    var slot := if e.Open? then L.OpenedSlot(sys.n, sys.inst, l) else L.Restarted(sys.n, s.leaders[l]);
    var sent := MPrepare(Prepare(sys.inst, slot.ballot));
    assert Apply(sys, s, e) == s.(leaders := s.leaders[l := slot], net := s.net + {sent});
    LeaderStepIsSafe(sys, h, s, l, slot, sent);
  }

  lemma TakePromiseIsSafe(sys: System, h: Provisos, s: State, l: int, a: int, p: Promise)
    requires Safe(sys, h, s) && Enabled(sys, s, TakePromise(l, a, p))
    ensures Safe(sys, h, Apply(sys, s, TakePromise(l, a, p)))
  {
    var slot := L.TakePromise(sys.n, s.leaders[l], a, p);
    assert LeaderOk(sys, s, l);
    assert MsgOk(sys, h, s, MPromise(a, p));
    var t := s.(leaders := s.leaders[l := slot], net := s.net + {MPromise(a, p)});
    assert Apply(sys, s, TakePromise(l, a, p)) == t;
    assert MsgOk(sys, h, t, MPromise(a, p)) by { assert PromiseOk(sys, s, a, p); }
    if L.Wanted(s.leaders[l], a, p) {
      assert L.Reports(slot.promises[a]) ==>
        p == Promise(sys.inst, slot.ballot, slot.promises[a].valueBallot, slot.promises[a].value);
    }
    LeaderStepIsSafe(sys, h, s, l, slot, MPromise(a, p));
  }

  lemma ChoiceIsBackedAndNew(sys: System, h: Provisos, s: State, l: int, choice: L.Info)
    requires Safe(sys, h, s) && IsProposer(l) && s.leaders[l].status == L.Ready
    requires L.Choose(s.leaders[l].promises) == Some(choice)
    ensures Backed(s, L.AcceptOf(s.leaders[l], choice))
    ensures forall m :: MAccept(m) in s.net ==> m.ballot != s.leaders[l].ballot
  {
    var slot := s.leaders[l];
    assert LeaderOk(sys, s, l);
    var a :| 0 <= a < sys.n && slot.promises[a] == choice && L.Reports(slot.promises[a]);
    assert MPromise(a, Promise(sys.inst, slot.ballot, choice.valueBallot, choice.value)) in s.net;
    forall m | MAccept(m) in s.net ensures m.ballot != slot.ballot {
      assert MsgOk(sys, h, s, MAccept(m));
    }
  }

  lemma DecideIsSafe(sys: System, h: Provisos, s: State, l: int, anyBallot: int)
    requires Safe(sys, h, s) && Enabled(sys, s, Decide(l, anyBallot))
    ensures Safe(sys, h, Apply(sys, s, Decide(l, anyBallot)))
  {
    var was := s.leaders[l];
    var slot := was.(status := L.Finished);
    assert LeaderOk(sys, s, l);
    var choice := L.Choose(was.promises);
    var m := if choice.None? then MAnyval(anyBallot) else MAccept(L.AcceptOf(was, choice.value));
    var t := s.(leaders := s.leaders[l := slot], net := s.net + {m});
    assert t == Apply(sys, s, Decide(l, anyBallot));
    if choice.Some? {
      ChoiceIsBackedAndNew(sys, h, s, l, choice.value);
      BackingStays(s, t, m.accept);
    }
    assert LeaderOk(sys, t, l);
    LeaderStepIsSafe(sys, h, s, l, slot, m);
  }

  /** May the acceptor's record r become r', its votes vs becoming vs'? */
  predicate Follows(sys: System, r: A.Record, vs: seq<Accept>, r': A.Record, vs': seq<Accept>) {
    && vs <= vs'
    && (Holds(sys, r) ==>
          && Holds(sys, r') && r'.ballot >= r.ballot
          && forall i :: |vs| <= i < |vs'| ==> vs'[i].ballot >= r.ballot)
  }

  /** A message stays sound when one acceptor moves on. */
  lemma AcceptorStepKeepsMessage(sys: System, h: Provisos, s: State, t: State, a: int, m: Msg)
    requires Shaped(sys, s) && Shaped(sys, t) && IsAcceptor(sys, a)
    requires t.leaders == s.leaders && t.values == s.values && s.net <= t.net
    requires forall k :: 0 <= k < sys.n && k != a ==> t.accs[k] == s.accs[k] && t.votes[k] == s.votes[k]
    requires Follows(sys, s.accs[a], s.votes[a], t.accs[a], t.votes[a])
    requires MsgOk(sys, h, s, m)
    ensures MsgOk(sys, h, t, m)
  {
    match m
    case MAccept(accept) => if Backed(s, accept) { BackingStays(s, t, accept); }
    case MLearn(l) =>
      if h.lsyncHeld {
        var m :| m in s.votes[l.acceptorId] && m.value == l.value;
        VotesStay(s, t, l.acceptorId, m.ballot, l.value);
        if h.lsyncCurrent { VotesStay(s, t, l.acceptorId, l.ballot, l.value); }
      }
    case MPromise(k, p) => if p.valueBallot != -1 { VotesStay(s, t, k, p.valueBallot, p.value); }
    case _ =>
  }

  /** What a step of an acceptor alone must provide. */
  lemma AcceptorStepIsSafe(sys: System, h: Provisos, s: State, a: int, r: A.Record, vs: seq<Accept>, sent: Msg)
    requires Safe(sys, h, s) && IsAcceptor(sys, a)
    requires forall m :: m in vs ==> MAccept(m) in s.net
    requires AccOk(sys, r, vs)
    requires !sent.MAccept?
    requires MsgOk(sys, h, s.(accs := s.accs[a := r], votes := s.votes[a := vs], net := s.net + {sent}), sent)
    requires Follows(sys, s.accs[a], s.votes[a], r, vs)
    ensures Safe(sys, h, s.(accs := s.accs[a := r], votes := s.votes[a := vs], net := s.net + {sent}))
  {
    var t := s.(accs := s.accs[a := r], votes := s.votes[a := vs], net := s.net + {sent});
    forall m | m in s.net ensures MsgOk(sys, h, t, m) {
      AcceptorStepKeepsMessage(sys, h, s, t, a, m);
    }
    forall k | 0 <= k < MAX_PROPOSERS ensures LeaderOk(sys, t, k) {
      assert LeaderOk(sys, s, k);
    }
  }

  lemma VotesStay(s: State, t: State, a: int, b: int, v: Value)
    requires 0 <= a < |s.votes| && a < |t.votes|
    requires s.votes[a] <= t.votes[a]
    requires Voted(s, a, b, v)
    ensures Voted(t, a, b, v)
  {
    var m :| m in s.votes[a] && m.ballot == b && m.value == v;
    var i :| 0 <= i < |s.votes[a]| && s.votes[a][i] == m;
    assert t.votes[a][i] == m;
  }

  lemma PrepareKeepsAccOk(sys: System, r: A.Record, vs: seq<Accept>, p: Prepare)
    requires AccOk(sys, r, vs) && p.iid == sys.inst && A.AdmitsPrepare(r, p)
    ensures var r' := A.Prepared(r, p);
            && AccOk(sys, r', vs)
            && r'.iid == sys.inst && r'.ballot == p.ballot
            && (Holds(sys, r) <==> r'.value.Some?)
            && (Holds(sys, r) ==> r'.valueBallot == r.valueBallot < p.ballot && p.ballot >= r.ballot)
            && (!Holds(sys, r) ==> r'.valueBallot == -1)
  {
  }

  lemma AcceptKeepsAccOk(sys: System, r: A.Record, vs: seq<Accept>, m: Accept)
    requires AccOk(sys, r, vs) && m.iid == sys.inst && A.AdmitsAccept(r, m)
    requires r.iid < sys.inst && m.ballot >= MIN_BALLOT ==> !r.anyEnabled
    ensures AccOk(sys, A.Accepted(r, m), vs + [m])
    ensures Holds(sys, r) ==> m.ballot >= r.ballot
  {
  }

  lemma LastVote(sys: System, s: State, a: int)
    requires Shaped(sys, s) && IsAcceptor(sys, a) && AccOk(sys, s.accs[a], s.votes[a]) && Holds(sys, s.accs[a])
    ensures Voted(s, a, s.accs[a].valueBallot, s.accs[a].value.value)
    ensures forall m :: m in s.votes[a] ==> m.ballot <= s.accs[a].valueBallot
  {
    assert s.votes[a][|s.votes[a]| - 1] in s.votes[a];
  }

  lemma OnPrepareIsSafe(sys: System, h: Provisos, s: State, a: int, p: Prepare)
    requires Safe(sys, h, s) && Enabled(sys, s, OnPrepare(a, p))
    ensures Safe(sys, h, Apply(sys, s, OnPrepare(a, p)))
  {
    assert MsgOk(sys, h, s, MPrepare(p));
    if A.AdmitsPrepare(s.accs[a], p) {
      PrepareKeepsAccOk(sys, s.accs[a], s.votes[a], p);
      var r := A.Prepared(s.accs[a], p);
      var t := Apply(sys, s, OnPrepare(a, p));
      var promise := MPromise(a, A.PromiseOf(r));
      assert t == s.(accs := s.accs[a := r], votes := s.votes[a := s.votes[a]], net := s.net + {promise});
      if Holds(sys, r) {
        LastVote(sys, t, a);
      }
      assert MsgOk(sys, h, t, promise);
      AcceptorStepIsSafe(sys, h, s, a, r, s.votes[a], promise);
    }
  }

  lemma OnAcceptIsSafe(sys: System, h: Provisos, s: State, a: int, m: Accept)
    requires Safe(sys, h, s) && Guarded(sys, s) && Enabled(sys, s, OnAccept(a, m))
    ensures Safe(sys, h, Apply(sys, s, OnAccept(a, m)))
  {
    assert MsgOk(sys, h, s, MAccept(m));
    if A.AdmitsAccept(s.accs[a], m) {
      assert s.accs[a].iid < sys.inst && m.ballot >= MIN_BALLOT ==> !s.accs[a].anyEnabled;
      AcceptKeepsAccOk(sys, s.accs[a], s.votes[a], m);
      var r := A.Accepted(s.accs[a], m);
      var t := Apply(sys, s, OnAccept(a, m));
      var vs := s.votes[a] + [m];
      var learn := MLearn(A.LearnOf(a, r));
      assert t == s.(accs := s.accs[a := r], votes := s.votes[a := vs], net := s.net + {learn});
      assert m in vs;
      assert MsgOk(sys, h, t, learn);
      AcceptorStepIsSafe(sys, h, s, a, r, vs, learn);
    }
  }

  lemma OnAnyvalIsSafe(sys: System, h: Provisos, s: State, a: int, ballot: int)
    requires Safe(sys, h, s) && Enabled(sys, s, OnAnyval(a, ballot))
    requires h.anyvalSpares && Permitted(sys, h, s, OnAnyval(a, ballot))
    ensures Safe(sys, h, Apply(sys, s, OnAnyval(a, ballot)))
  {
    assert AccOk(sys, s.accs[a], s.votes[a]);
    var r := A.Opened(s.accs[a], sys.inst, ballot);
    assert Apply(sys, s, OnAnyval(a, ballot))
      == s.(accs := s.accs[a := r], votes := s.votes[a := s.votes[a]], net := s.net + {MAnyval(ballot)});
    AcceptorStepIsSafe(sys, h, s, a, r, s.votes[a], MAnyval(ballot));
  }

  lemma OnLsyncIsSafe(sys: System, h: Provisos, s: State, a: int)
    requires Safe(sys, h, s) && Enabled(sys, s, OnLsync(a)) && Permitted(sys, h, s, OnLsync(a))
    ensures Safe(sys, h, Apply(sys, s, OnLsync(a)))
  {
    assert AccOk(sys, s.accs[a], s.votes[a]);
    if AnswersLsync(sys, s, a) {
      var sent := MLearn(A.LearnOf(a, s.accs[a]));
      var t := Apply(sys, s, OnLsync(a));
      assert t == s.(accs := s.accs[a := s.accs[a]], votes := s.votes[a := s.votes[a]], net := s.net + {sent});
      if s.accs[a].value.Some? { LastVote(sys, t, a); }
      AcceptorStepIsSafe(sys, h, s, a, s.accs[a], s.votes[a], sent);
    }
  }

  lemma StrayIsSafe(sys: System, h: Provisos, s: State, b: int)
    requires Safe(sys, h, s)
    ensures Safe(sys, h, Apply(sys, s, Stray(b)))
  {
    var t := Apply(sys, s, Stray(b));
    forall m | m in s.net ensures MsgOk(sys, h, t, m) {
      assert MsgOk(sys, h, s, m);
      OtherMessagesStayOk(sys, h, s, t, m);
    }
    forall l | 0 <= l < MAX_PROPOSERS ensures LeaderOk(sys, t, l) {
      assert LeaderOk(sys, s, l);
    }
  }

  /** A slot reused, a record evicted or fetched: the acceptor's votes and its hold on a value stay. */
  lemma MovedRecordIsSafe(sys: System, h: Provisos, s: State, e: Event)
    requires Safe(sys, h, s) && Enabled(sys, s, e) && (e.Reuse? || e.Evict? || e.Fetch?)
    requires h.fetchSpares && Permitted(sys, h, s, e)
    ensures Safe(sys, h, Apply(sys, s, e))
  {
    var t, a := Apply(sys, s, e), e.acc;
    assert AccOk(sys, s.accs[a], s.votes[a]);
    assert t.accs == s.accs[a := t.accs[a]] && t.votes == s.votes;
    forall m | m in s.net ensures MsgOk(sys, h, t, m) {
      assert MsgOk(sys, h, s, m);
      AcceptorStepKeepsMessage(sys, h, s, t, a, m);
    }
    forall l | 0 <= l < MAX_PROPOSERS ensures LeaderOk(sys, t, l) {
      assert LeaderOk(sys, s, l);
    }
  }

  lemma StepIsSafe(sys: System, h: Provisos, s: State, e: Event)
    requires h.Spare() && Safe(sys, h, s) && Guarded(sys, s) && Permitted(sys, h, s, e)
    ensures Safe(sys, h, Apply(sys, s, e))
  {
    if Enabled(sys, s, e) {
      match e
      case Submit(p, v) => SubmitIsSafe(sys, h, s, p, v);
      case Open(_) => OpenOrRestartIsSafe(sys, h, s, e);
      case Restart(_) => OpenOrRestartIsSafe(sys, h, s, e);
      case TakePromise(l, a, p) => TakePromiseIsSafe(sys, h, s, l, a, p);
      case Decide(l, b) => DecideIsSafe(sys, h, s, l, b);
      case OnPrepare(a, p) => OnPrepareIsSafe(sys, h, s, a, p);
      case OnAccept(a, m) => OnAcceptIsSafe(sys, h, s, a, m);
      case OnAnyval(a, b) => OnAnyvalIsSafe(sys, h, s, a, b);
      case OnLsync(a) => OnLsyncIsSafe(sys, h, s, a);
      case Stray(b) => StrayIsSafe(sys, h, s, b);
      case _ => MovedRecordIsSafe(sys, h, s, e);
    }
  }

  lemma {:induction false} RunsAreSafe(sys: System, h: Provisos, es: seq<Event>)
    requires h.Spare() && Legal(sys, h, es) && GuardedRun(sys, es)
    ensures Safe(sys, h, Exec(sys, es))
  {
    if es == [] {
    } else {
      RunsAreSafe(sys, h, es[..|es| - 1]);
      StepIsSafe(sys, h, Exec(sys, es[..|es| - 1]), es[|es| - 1]);
    }
  }

  // ---------- what guards a run ----------

  lemma {:induction false} NetGrows(sys: System, es: seq<Event>, k: nat)
    requires k <= |es|
    ensures Exec(sys, es[..k]).net <= Exec(sys, es).net
  {
    if k < |es| {
      assert es[..|es| - 1][..k] == es[..k];
      NetGrows(sys, es[..|es| - 1], k);
    } else {
      assert es[..k] == es;
    }
  }

  /** A run is guarded if no leader sends an accept in it, */
  ghost predicate NoLeaderAccept(s: State) {
    forall m :: MAccept(m) in s.net ==> m.ballot < MIN_BALLOT
  }

  lemma {:induction false} FastRunIsGuarded(sys: System, es: seq<Event>)
    requires NoLeaderAccept(Exec(sys, es))
    ensures GuardedRun(sys, es)
  {
    if es == [] {
    } else {
      NetGrows(sys, es, |es| - 1);
      FastRunIsGuarded(sys, es[..|es| - 1]);
    }
  }

  /** or if no slot is left with ANYVAL enabled by an earlier instance, */
  predicate Tidy(es: seq<Event>) {
    forall i :: 0 <= i < |es| && es[i].Reuse? ==> !es[i].record.anyEnabled
  }

  ghost predicate EarlierDisabled(sys: System, s: State)
    requires Shaped(sys, s)
  {
    forall a :: 0 <= a < sys.n && s.accs[a].iid < sys.inst ==> !s.accs[a].anyEnabled
  }

  lemma {:induction false} TidyRunIsGuarded(sys: System, es: seq<Event>)
    requires Tidy(es)
    ensures GuardedRun(sys, es) && EarlierDisabled(sys, Exec(sys, es))
  {
    if es == [] {
    } else {
      var before := es[..|es| - 1];
      TidyRunIsGuarded(sys, before);
      RunsKeepOnlySubmitted(sys, before);
      StepKeepsDisabled(sys, Exec(sys, before), es[|es| - 1]);
    }
  }

  lemma StepKeepsDisabled(sys: System, s: State, e: Event)
    requires OnlySubmitted(sys, s) && EarlierDisabled(sys, s)
    requires e.Reuse? ==> !e.record.anyEnabled
    ensures EarlierDisabled(sys, Apply(sys, s, e))
  {
    if Enabled(sys, s, e) && e.OnPrepare? {
      assert CarriesSubmitted(sys, s, MPrepare(e.prepare));
    }
  }

  /** or if a quorum is everybody: then every acceptor has promised before a leader's accept is out. */
  ghost predicate Polled(sys: System, s: State)
    requires Shaped(sys, s)
  {
    && (forall a, p :: MPromise(a, p) in s.net ==> IsAcceptor(sys, a) && s.accs[a].iid == sys.inst)
    && (forall l :: 0 <= l < MAX_PROPOSERS ==> RecordPolled(sys, s, s.leaders[l]))
    && (forall m, a :: MAccept(m) in s.net && m.ballot >= MIN_BALLOT && 0 <= a < sys.n ==> s.accs[a].iid == sys.inst)
  }

  ghost predicate RecordPolled(sys: System, s: State, slot: L.Slot)
    requires Shaped(sys, s) && |slot.promises| == sys.n
  {
    slot.status != L.New ==>
      && slot.promiseCount == |L.Promisers(slot)|
      && (forall a :: a in L.Promisers(slot) ==> s.accs[a].iid == sys.inst)
      && (slot.status == L.Ready && L.Choose(slot.promises).Some? ==> |L.Promisers(slot)| >= Quorum(sys.n))
  }

  lemma ClearedIsPolled(sys: System, s: State, slot: L.Slot)
    requires Shaped(sys, s) && slot.promises == seq(sys.n, _ => L.NO_INFO) && slot.promiseCount == 0
    ensures RecordPolled(sys, s, slot)
  {
    assert L.Promisers(slot) == {};
  }

  lemma TakePromiseKeepsPolled(sys: System, s: State, slot: L.Slot, a: int, p: Promise)
    requires Shaped(sys, s) && |slot.promises| == sys.n && IsAcceptor(sys, a)
    requires RecordPolled(sys, s, slot) && s.accs[a].iid == sys.inst
    requires slot.status != L.New ==> slot.iid == sys.inst
    ensures RecordPolled(sys, s, L.TakePromise(sys.n, slot, a, p))
  {
    if L.Wanted(slot, a, p) {
      L.PromisersGrow(slot, L.TakePromise(sys.n, slot, a, p), a, L.InfoOf(p));
    }
  }

  lemma DecideKeepsPolled(sys: System, s: State, l: int, b: int)
    requires sys.n <= 3 && OnlySubmitted(sys, s) && Polled(sys, s) && Enabled(sys, s, Decide(l, b))
    ensures Polled(sys, Apply(sys, s, Decide(l, b)))
  {
    var slot := s.leaders[l];
    var done := slot.(status := L.Finished);
    assert RecordPolled(sys, s, slot) && HeardSubmitted(sys, s, slot);
    assert L.Promisers(done) == L.Promisers(slot);
    if L.Choose(slot.promises).Some? {
      SmallQuorumIsAll(sys.n, L.Promisers(slot));
    }
  }

  lemma AcceptorKeepsPolled(sys: System, s: State, e: Event)
    requires OnlySubmitted(sys, s) && Polled(sys, s) && Enabled(sys, s, e)
    requires e.OnPrepare? || e.OnAccept? || e.OnAnyval?
    ensures Polled(sys, Apply(sys, s, e))
  {
    assert HoldsSubmitted(sys, s, s.accs[e.acc]);
    match e
    case OnPrepare(_, p) => assert CarriesSubmitted(sys, s, MPrepare(p));
    case OnAccept(_, m) => assert CarriesSubmitted(sys, s, MAccept(m));
    case OnAnyval(_, _) =>
  }

  lemma StepKeepsPolled(sys: System, s: State, e: Event)
    requires sys.n <= 3 && OnlySubmitted(sys, s) && Polled(sys, s)
    ensures Polled(sys, Apply(sys, s, e))
  {
    if Enabled(sys, s, e) {
      var t := Apply(sys, s, e);
      match e
      case Open(l) => ClearedIsPolled(sys, s, t.leaders[l]);
      case Restart(l) => ClearedIsPolled(sys, s, t.leaders[l]);
      case TakePromise(l, a, p) =>
        assert HeardSubmitted(sys, s, s.leaders[l]);
        TakePromiseKeepsPolled(sys, s, s.leaders[l], a, p);
      case Decide(l, b) => DecideKeepsPolled(sys, s, l, b);
      case OnPrepare(_, _) => AcceptorKeepsPolled(sys, s, e);
      case OnAccept(_, _) => AcceptorKeepsPolled(sys, s, e);
      case OnAnyval(_, _) => AcceptorKeepsPolled(sys, s, e);
      case _ =>
    }
  }

  lemma {:induction false} SmallRunIsGuarded(sys: System, es: seq<Event>)
    requires sys.n <= 3
    ensures GuardedRun(sys, es) && Polled(sys, Exec(sys, es))
  {
    if es == [] {
    } else {
      var before := es[..|es| - 1];
      SmallRunIsGuarded(sys, before);
      RunsKeepOnlySubmitted(sys, before);
      StepKeepsPolled(sys, Exec(sys, before), es[|es| - 1]);
    }
  }

  // ---------- recovery ----------

  lemma OneValuePerBallot(sys: System, h: Provisos, s: State, a: int, a': int, b: int, v: Value, v': Value)
    requires Safe(sys, h, s) && IsAcceptor(sys, a) && IsAcceptor(sys, a')
    requires Voted(s, a, b, v) && Voted(s, a', b, v')
    ensures v == v'
  {
    var m :| m in s.votes[a] && m.ballot == b && m.value == v;
    var m' :| m' in s.votes[a'] && m'.ballot == b && m'.value == v';
    assert MAccept(m) in s.net && MAccept(m') in s.net;
  }

  lemma LaterOfTwo(sys: System, r: A.Record, vs: seq<Accept>, m: Accept, m': Accept)
    requires AccOk(sys, r, vs) && m in vs && m' in vs && m.ballot < m'.ballot
    ensures m'.ballot >= MIN_BALLOT
  {
    var i :| 0 <= i < |vs| && vs[i] == m;
    var j :| 0 <= j < |vs| && vs[j] == m';
  }

  /** Of two votes of one acceptor, the one of the higher ballot is classic. */
  lemma SecondVoteIsClassic(sys: System, s: State, a: int, b: int, v: Value, b': int, v': Value)
    requires Shaped(sys, s) && IsAcceptor(sys, a) && AccOk(sys, s.accs[a], s.votes[a])
    requires Voted(s, a, b, v) && Voted(s, a, b', v') && b < b'
    ensures b' >= MIN_BALLOT
  {
    var m :| m in s.votes[a] && m.ballot == b && m.value == v;
    var m' :| m' in s.votes[a] && m'.ballot == b' && m'.value == v';
    LaterOfTwo(sys, s.accs[a], s.votes[a], m, m');
  }

  /** A value all acceptors voted for in a ballot is the value of every leader's accept in a higher one. */
  lemma {:induction false} RecoveredIsChosen(sys: System, h: Provisos, s: State, b: int, v: Value, m: Accept)
    requires Safe(sys, h, s)
    requires forall a :: 0 <= a < sys.n ==> Voted(s, a, b, v)
    requires MAccept(m) in s.net && m.ballot >= MIN_BALLOT && m.ballot > b
    ensures m.value == v
    decreases m.ballot
  {
    assert MsgOk(sys, h, s, MAccept(m));
    var a, p :| MPromise(a, p) in s.net && p.ballot == m.ballot && p.valueBallot != -1 && p.value == m.value;
    assert MsgOk(sys, h, s, MPromise(a, p));
    assert Voted(s, a, b, v);
    if p.valueBallot == b {
      OneValuePerBallot(sys, h, s, a, a, b, v, p.value);
    } else {
      SecondVoteIsClassic(sys, s, a, b, v, p.valueBallot, p.value);
      var m' :| m' in s.votes[a] && m'.ballot == p.valueBallot && m'.value == p.value;
      RecoveredIsChosen(sys, h, s, b, v, m');
    }
  }

  /**
   * In every run that spares held values, and in which a quorum is everybody or no slot is left with ANYVAL
   * enabled by an earlier instance: once all acceptors have voted for v in a ballot, every accept a
   * leader sends for the instance in a higher ballot carries v, before or after.
   */
  lemma RecoveryPreservesChoice(sys: System, h: Provisos, es: seq<Event>, b: int, v: Value, m: Accept)
    requires h.Spare() && Legal(sys, h, es) && (sys.n <= 3 || Tidy(es))
    requires forall a :: 0 <= a < sys.n ==> Voted(Exec(sys, es), a, b, v)
    requires MAccept(m) in Exec(sys, es).net && m.ballot >= MIN_BALLOT && m.ballot > b
    ensures m.value == v
  {
    if sys.n <= 3 { SmallRunIsGuarded(sys, es); } else { TidyRunIsGuarded(sys, es); }
    RunsAreSafe(sys, h, es);
    RecoveredIsChosen(sys, h, Exec(sys, es), b, v, m);
  }

  lemma AllVotesAgree(sys: System, h: Provisos, s: State, b: int, v: Value, b': int, v': Value)
    requires Safe(sys, h, s) && sys.n >= 1 && b <= b'
    requires forall a :: 0 <= a < sys.n ==> Voted(s, a, b, v) && Voted(s, a, b', v')
    ensures v == v'
  {
    assert Voted(s, 0, b, v) && Voted(s, 0, b', v');
    if b == b' {
      OneValuePerBallot(sys, h, s, 0, 0, b, v, v');
    } else {
      SecondVoteIsClassic(sys, s, 0, b, v, b', v');
      var m' :| m' in s.votes[0] && m'.ballot == b' && m'.value == v';
      RecoveredIsChosen(sys, h, s, b, v, m');
    }
  }

  // ---------- learners ----------

  /** The learner saw only messages of the instance that were sent in it. */
  ghost predicate DrawnFrom(sys: System, s: State, ms: seq<Learn>) {
    forall m :: m in ms && m.iid == sys.inst ==> MLearn(m) in s.net
  }

  /** What a learner delivered was voted for, in one ballot, by a quorum. */
  lemma DeliveredIsVotedByQuorum(sys: System, h: Provisos, s: State, window: nat, ms: seq<Learn>)
    returns (b: int, q: set<int>)
    requires h.lsyncHeld && h.lsyncCurrent && Safe(sys, h, s) && DrawnFrom(sys, s, ms)
    requires sys.inst < |M.Run(sys.n, window, ms).log|
    ensures |q| >= Quorum(sys.n) && q <= Ids(sys.n)
    ensures forall a :: a in q ==> Voted(s, a, b, M.Run(sys.n, window, ms).log[sys.inst].value)
  {
    var value := M.Run(sys.n, window, ms).log[sys.inst].value;
    b, q := M.DeliveryRestsOnQuorum(sys.n, window, ms, sys.inst);
    var l :| l in ms && l.acceptorId in q && l.iid == sys.inst && l.ballot == b && l.value == value;
    assert MsgOk(sys, h, s, MLearn(l));
    forall a | a in q ensures Voted(s, a, b, value) {
      var m :| m in ms && m.acceptorId == a && m.iid == sys.inst && m.ballot == b;
      assert MsgOk(sys, h, s, MLearn(m));
      OneValuePerBallot(sys, h, s, a, l.acceptorId, b, m.value, value);
    }
  }

  /** Do two learners that both delivered the instance agree on it? */
  ghost predicate Agree(sys: System, s: State, w: nat, ms: seq<Learn>, w': nat, ms': seq<Learn>) {
    && DrawnFrom(sys, s, ms) && DrawnFrom(sys, s, ms')
    && sys.inst < |M.Run(sys.n, w, ms).log| && sys.inst < |M.Run(sys.n, w', ms').log|
    ==> M.Run(sys.n, w, ms).log[sys.inst].value == M.Run(sys.n, w', ms').log[sys.inst].value
  }

  /** End-to-end agreement for up to three acceptors. */
  lemma EndToEndAgreement(sys: System, es: seq<Event>, w: nat, ms: seq<Learn>, w': nat, ms': seq<Learn>)
    requires sys.n <= 3
    requires Legal(sys, ALL, es)
    ensures Agree(sys, Exec(sys, es), w, ms, w', ms')
  {
    var s := Exec(sys, es);
    SmallRunIsGuarded(sys, es);
    RunsAreSafe(sys, ALL, es);
    if DrawnFrom(sys, s, ms) && DrawnFrom(sys, s, ms')
      && sys.inst < |M.Run(sys.n, w, ms).log| && sys.inst < |M.Run(sys.n, w', ms').log|
    {
      var b, q := DeliveredIsVotedByQuorum(sys, ALL, s, w, ms);
      var b', q' := DeliveredIsVotedByQuorum(sys, ALL, s, w', ms');
      SmallQuorumIsAll(sys.n, q);
      SmallQuorumIsAll(sys.n, q');
      var v, v' := M.Run(sys.n, w, ms).log[sys.inst].value, M.Run(sys.n, w', ms').log[sys.inst].value;
      if b <= b' {
        AllVotesAgree(sys, ALL, s, b, v, b', v');
      } else {
        AllVotesAgree(sys, ALL, s, b', v', b, v);
      }
    }
  }

  /** A single acceptor needs only that no ANYVAL erases its value: all it ever votes for is one value. */
  lemma OneAcceptorAgreement(sys: System, h: Provisos, es: seq<Event>, w: nat, ms: seq<Learn>, w': nat, ms': seq<Learn>)
    requires sys.n == 1 && h.Spare() && h.lsyncHeld && Legal(sys, h, es)
    ensures Agree(sys, Exec(sys, es), w, ms, w', ms')
  {
    var s := Exec(sys, es);
    SmallRunIsGuarded(sys, es);
    RunsAreSafe(sys, h, es);
    if DrawnFrom(sys, s, ms) && DrawnFrom(sys, s, ms')
      && sys.inst < |M.Run(sys.n, w, ms).log| && sys.inst < |M.Run(sys.n, w', ms').log|
    {
      var m := SoleVote(sys, h, s, w, ms);
      var m' := SoleVote(sys, h, s, w', ms');
      SoleVotesAgree(sys, h, s, m, m');
    }
  }

  lemma SoleVotesAgree(sys: System, h: Provisos, s: State, m: Accept, m': Accept)
    requires sys.n == 1 && Safe(sys, h, s)
    requires Voted(s, 0, m.ballot, m.value) && Voted(s, 0, m'.ballot, m'.value)
    ensures m.value == m'.value
    decreases m.ballot > m'.ballot
  {
    if m.ballot > m'.ballot {
      SoleVotesAgree(sys, h, s, m', m);
    } else {
      forall a | 0 <= a < sys.n ensures Voted(s, a, m.ballot, m.value) && Voted(s, a, m'.ballot, m'.value) {
        assert a == 0;
      }
      AllVotesAgree(sys, h, s, m.ballot, m.value, m'.ballot, m'.value);
    }
  }

  /** What a learner of a single acceptor delivers is one of its votes. */
  lemma SoleVote(sys: System, h: Provisos, s: State, w: nat, ms: seq<Learn>) returns (m: Accept)
    requires sys.n == 1 && h.lsyncHeld && Safe(sys, h, s) && DrawnFrom(sys, s, ms)
    requires sys.inst < |M.Run(sys.n, w, ms).log|
    ensures m in s.votes[0] && m.value == M.Run(sys.n, w, ms).log[sys.inst].value
    ensures Voted(s, 0, m.ballot, m.value)
  {
    var b, q := M.DeliveryRestsOnQuorum(sys.n, w, ms, sys.inst);
    var l :| l in ms && l.acceptorId in q && l.iid == sys.inst && l.ballot == b
      && l.value == M.Run(sys.n, w, ms).log[sys.inst].value;
    assert MsgOk(sys, h, s, MLearn(l));
    m :| m in s.votes[0] && m.value == l.value;
  }

  /** The fast path agrees for any number of acceptors, as long as no leader sends an ACCEPT for the instance. */
  lemma FastPathAgreement(sys: System, es: seq<Event>, w: nat, ms: seq<Learn>, w': nat, ms': seq<Learn>)
    requires Legal(sys, ALL, es)
    requires NoLeaderAccept(Exec(sys, es))
    ensures Agree(sys, Exec(sys, es), w, ms, w', ms')
  {
    var s := Exec(sys, es);
    FastRunIsGuarded(sys, es);
    RunsAreSafe(sys, ALL, es);
    if DrawnFrom(sys, s, ms) && DrawnFrom(sys, s, ms')
      && sys.inst < |M.Run(sys.n, w, ms).log| && sys.inst < |M.Run(sys.n, w', ms').log|
    {
      var b, q := DeliveredIsVotedByQuorum(sys, ALL, s, w, ms);
      var b', q' := DeliveredIsVotedByQuorum(sys, ALL, s, w', ms');
      ThreeQuorumsIntersect(sys.n, q, q', q');
      var a :| a in q && a in q';
      var v, v' := M.Run(sys.n, w, ms).log[sys.inst].value, M.Run(sys.n, w', ms').log[sys.inst].value;
      if b < b' {
        SecondVoteIsClassic(sys, s, a, b, v, b', v');
      } else if b' < b {
        SecondVoteIsClassic(sys, s, a, b', v', b, v);
      } else {
        OneValuePerBallot(sys, ALL, s, a, a, b, v, v');
      }
    }
  }

  /** Some learn of the instance on the network carries the value a learner delivered. */
  lemma DeliveredWasLearned(sys: System, s: State, w: nat, ms: seq<Learn>) returns (l: Learn)
    requires DrawnFrom(sys, s, ms) && sys.inst < |M.Run(sys.n, w, ms).log|
    ensures MLearn(l) in s.net && l.value == M.Run(sys.n, w, ms).log[sys.inst].value
  {
    var b, q := M.DeliveryRestsOnQuorum(sys.n, w, ms, sys.inst);
    l :| l in ms && l.acceptorId in q && l.iid == sys.inst && l.ballot == b
      && l.value == M.Run(sys.n, w, ms).log[sys.inst].value;
  }

  /**
   * As long as the database answers only for records that hold a value, a delivered value is one some proposer
   * submitted, for any number of acceptors.
   */
  lemma Validity(sys: System, h: Provisos, es: seq<Event>, w: nat, ms: seq<Learn>)
    requires h.lsyncHeld && Legal(sys, h, es) && DrawnFrom(sys, Exec(sys, es), ms)
    requires sys.inst < |M.Run(sys.n, w, ms).log|
    ensures Submitted(Exec(sys, es), M.Run(sys.n, w, ms).log[sys.inst].value)
  {
    RunsLearnOnlySubmitted(sys, h, es);
    var l := DeliveredWasLearned(sys, Exec(sys, es), w, ms);
  }

  /** Whatever the database answers, a delivered value is submitted or empty. */
  lemma DeliveredOrEmpty(sys: System, es: seq<Event>, w: nat, ms: seq<Learn>)
    requires DrawnFrom(sys, Exec(sys, es), ms)
    requires sys.inst < |M.Run(sys.n, w, ms).log|
    ensures var v := M.Run(sys.n, w, ms).log[sys.inst].value; Submitted(Exec(sys, es), v) || v == []
  {
    RunsKeepOnlySubmitted(sys, es);
    var l := DeliveredWasLearned(sys, Exec(sys, es), w, ms);
    assert CarriesSubmitted(sys, Exec(sys, es), MLearn(l));
  }

  /**
   * The whole log: given a legal run for each instance, two learners fed from them deliver the same
   * values in the same order, as far as both have got.
   */
  lemma LogsAgree(n: nat, runs: seq<seq<Event>>, w: nat, ms: seq<Learn>, w': nat, ms': seq<Learn>)
    requires n <= 3
    requires forall i :: 0 <= i < |runs| ==>
      Legal(System(n, i), ALL, runs[i])
      && DrawnFrom(System(n, i), Exec(System(n, i), runs[i]), ms)
      && DrawnFrom(System(n, i), Exec(System(n, i), runs[i]), ms')
    ensures var log, log' := M.Run(n, w, ms).log, M.Run(n, w', ms').log;
            forall i :: 0 <= i < |runs| && i < |log| && i < |log'| ==>
              log[i].iid == log'[i].iid == i && log[i].value == log'[i].value
  {
    var log, log' := M.Run(n, w, ms).log, M.Run(n, w', ms').log;
    M.DeliversInOrder(n, w, ms);
    M.DeliversInOrder(n, w', ms');
    forall i | 0 <= i < |runs| && i < |log| && i < |log'| ensures log[i].value == log'[i].value {
      EndToEndAgreement(System(n, i), runs[i], w, ms, w', ms');
      assert Agree(System(n, i), Exec(System(n, i), runs[i]), w, ms, w', ms');
    }
  }
}
