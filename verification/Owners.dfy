/**
 * Whose client is woken: as long as leaders recover fast votes only, every value goes by the name of a proposer
 * that submitted it, from the ACCEPT to the delivery.
 */
module Owners {
  import opened Common
  import A = AcceptorRecord
  import L = LeaderModel
  import M = LearnerModel
  import opened Protocol
  import opened Agreement

  /** Proposer p submitted v for the instance. */
  predicate Owns(s: State, p: int, v: Value) {
    0 <= p < |s.values| && s.values[p] == Some(v)
  }

  /** A value voted for in a proposer's fixed ballot is that proposer's. */
  predicate FastIsOwned(s: State, ballot: int, v: Value) {
    0 <= ballot < MIN_BALLOT ==> Owns(s, ballot - MAX_PROPOSERS, v)
  }

  ghost predicate Owned(sys: System, s: State) {
    && Shaped(sys, s)
    && (forall m :: MAccept(m) in s.net && m.ballot < MIN_BALLOT ==>
          m.proposerId == m.ballot - MAX_PROPOSERS && Owns(s, m.proposerId, m.value))
    && (forall a, p :: MPromise(a, p) in s.net ==> FastIsOwned(s, p.valueBallot, p.value))
    && (forall a :: 0 <= a < sys.n && Holds(sys, s.accs[a]) ==>
          FastIsOwned(s, s.accs[a].valueBallot, s.accs[a].value.value))
    && (forall l, a :: 0 <= l < MAX_PROPOSERS && s.leaders[l].status != L.New && 0 <= a < sys.n ==>
          FastIsOwned(s, s.leaders[l].promises[a].valueBallot, s.leaders[l].promises[a].value))
  }

  lemma OwnersStay(s: State, t: State, p: int, v: Value, q: int, w: Value)
    requires Owns(s, q, w) && 0 <= p < |s.values| && s.values[p] in {None, Some(v)}
    requires t.values == s.values[p := Some(v)]
    ensures Owns(t, q, w)
  {
  }

  lemma SubmitKeepsOwned(sys: System, s: State, p: int, v: Value)
    requires Owned(sys, s) && Enabled(sys, s, Submit(p, v))
    ensures Owned(sys, Apply(sys, s, Submit(p, v)))
  {
    var t := Apply(sys, s, Submit(p, v));
    forall q, w | Owns(s, q, w) ensures Owns(t, q, w) {
      OwnersStay(s, t, p, v, q, w);
    }
  }

  lemma LeaderKeepsOwned(sys: System, s: State, e: Event)
    requires OnlySubmitted(sys, s) && Owned(sys, s) && Enabled(sys, s, e)
    requires e.Open? || e.Restart? || e.TakePromise? || e.Decide?
    ensures Owned(sys, Apply(sys, s, e))
  {
    assert HeardSubmitted(sys, s, s.leaders[e.leader]);
  }

  lemma PrepareKeepsOwned(sys: System, s: State, a: int, p: Prepare)
    requires OnlySubmitted(sys, s) && Owned(sys, s) && Enabled(sys, s, OnPrepare(a, p))
    ensures Owned(sys, Apply(sys, s, OnPrepare(a, p)))
  {
    assert HoldsSubmitted(sys, s, s.accs[a]) && CarriesSubmitted(sys, s, MPrepare(p));
    var r := A.Prepared(s.accs[a], p);
    assert A.AdmitsPrepare(s.accs[a], p) ==> FastIsOwned(s, r.valueBallot, A.Bytes(r));
  }

  lemma AcceptKeepsOwned(sys: System, s: State, a: int, m: Accept)
    requires OnlySubmitted(sys, s) && Owned(sys, s) && Enabled(sys, s, OnAccept(a, m))
    ensures Owned(sys, Apply(sys, s, OnAccept(a, m)))
  {
    assert HoldsSubmitted(sys, s, s.accs[a]) && CarriesSubmitted(sys, s, MAccept(m));
    assert FastIsOwned(s, m.ballot, m.value);
  }

  lemma RecordKeepsOwned(sys: System, s: State, e: Event)
    requires Owned(sys, s) && Enabled(sys, s, e)
    requires e.OnAnyval? || e.OnLsync? || e.Reuse? || e.Evict? || e.Fetch?
    ensures Owned(sys, Apply(sys, s, e))
  {
  }

  lemma StepKeepsOwned(sys: System, s: State, e: Event)
    requires OnlySubmitted(sys, s) && Owned(sys, s)
    ensures Owned(sys, Apply(sys, s, e))
  {
    if Enabled(sys, s, e) {
      match e
      case Submit(p, v) => SubmitKeepsOwned(sys, s, p, v);
      case Open(_) => LeaderKeepsOwned(sys, s, e);
      case Restart(_) => LeaderKeepsOwned(sys, s, e);
      case TakePromise(_, _, _) => LeaderKeepsOwned(sys, s, e);
      case Decide(_, _) => LeaderKeepsOwned(sys, s, e);
      case Stray(_) =>
      case OnPrepare(a, p) => PrepareKeepsOwned(sys, s, a, p);
      case OnAccept(a, m) => AcceptKeepsOwned(sys, s, a, m);
      case _ => RecordKeepsOwned(sys, s, e);
    }
  }

  lemma {:induction false} RunsKeepOwned(sys: System, es: seq<Event>)
    ensures Owned(sys, Exec(sys, es))
  {
    if es == [] {
    } else {
      RunsKeepOwned(sys, es[..|es| - 1]);
      RunsKeepOnlySubmitted(sys, es[..|es| - 1]);
      StepKeepsOwned(sys, Exec(sys, es[..|es| - 1]), es[|es| - 1]);
    }
  }

  /** Does the event recover a vote that itself came from a leader? */
  predicate RecoversClassic(sys: System, s: State, e: Event)
    requires Shaped(sys, s)
  {
    Enabled(sys, s, e) && e.Decide?
    && var choice := L.Choose(s.leaders[e.leader].promises); choice.Some? && choice.value.valueBallot >= MIN_BALLOT
  }

  /** In every run whatever, an ACCEPT that recovers a fast vote names the proposer that submitted its value. */
  lemma FastRecoveryNamesOwner(sys: System, es: seq<Event>, l: int, b: int)
    requires Enabled(sys, Exec(sys, es), Decide(l, b)) && !RecoversClassic(sys, Exec(sys, es), Decide(l, b))
    ensures var slot := Exec(sys, es).leaders[l];
            L.Choose(slot.promises).Some? ==>
              var m := L.AcceptOf(slot, L.Choose(slot.promises).value); Owns(Exec(sys, es), m.proposerId, m.value)
  {
    RunsKeepOwned(sys, es);
    if L.Choose(Exec(sys, es).leaders[l].promises).Some? {
      ChoiceIsOwned(sys, Exec(sys, es), l);
    }
  }

  lemma ChoiceIsOwned(sys: System, s: State, l: int)
    requires Owned(sys, s) && IsProposer(l) && s.leaders[l].status != L.New
    requires var choice := L.Choose(s.leaders[l].promises); choice.Some? && choice.value.valueBallot < MIN_BALLOT
    ensures var m := L.AcceptOf(s.leaders[l], L.Choose(s.leaders[l].promises).value); Owns(s, m.proposerId, m.value)
  {
    var promises := s.leaders[l].promises;
    var k :| 0 <= k < |promises| && promises[k] == L.Choose(promises).value && L.Reports(promises[k]);
    assert FastIsOwned(s, promises[k].valueBallot, promises[k].value);
  }

  // ---------- from the vote to the delivery ----------

  /** No leader recovers a classic vote, and no acceptor turns to its database. */
  predicate Plainly(sys: System, es: seq<Event>) {
    es == [] || (var before, e := es[..|es| - 1], es[|es| - 1];
                 Plainly(sys, before) && !RecoversClassic(sys, Exec(sys, before), e) && !e.Evict?)
  }

  /** Whatever carries a value names one that submitted it. */
  ghost predicate Named(sys: System, s: State) {
    && Shaped(sys, s) && (forall a :: 0 <= a < sys.n ==> !s.evicted[a])
    && (forall m :: MAccept(m) in s.net ==> Owns(s, m.proposerId, m.value))
    && (forall a :: 0 <= a < sys.n && Holds(sys, s.accs[a]) ==> Owns(s, s.accs[a].proposerId, s.accs[a].value.value))
    && (forall m :: MLearn(m) in s.net ==> Owns(s, m.proposerId, m.value))
  }

  lemma SubmitKeepsNamed(sys: System, s: State, p: int, v: Value)
    requires Named(sys, s) && Enabled(sys, s, Submit(p, v))
    ensures Named(sys, Apply(sys, s, Submit(p, v)))
  {
    var t := Apply(sys, s, Submit(p, v));
    forall q, w | Owns(s, q, w) ensures Owns(t, q, w) {
      OwnersStay(s, t, p, v, q, w);
    }
  }

  lemma AcceptorKeepsNamed(sys: System, s: State, e: Event)
    requires OnlySubmitted(sys, s) && Named(sys, s) && Enabled(sys, s, e)
    requires e.OnPrepare? || e.OnAccept? || e.OnAnyval? || e.OnLsync? || e.Reuse?
    ensures Named(sys, Apply(sys, s, e))
  {
    assert HoldsSubmitted(sys, s, s.accs[e.acc]);
    match e
    case OnPrepare(_, p) => assert CarriesSubmitted(sys, s, MPrepare(p));
    case OnAccept(_, m) => assert CarriesSubmitted(sys, s, MAccept(m));
    case _ =>
  }

  lemma StepKeepsNamed(sys: System, s: State, e: Event)
    requires OnlySubmitted(sys, s) && Named(sys, s) && !e.Evict?
    requires Enabled(sys, s, e) && e.Decide? ==>
      var slot := s.leaders[e.leader];
      L.Choose(slot.promises).Some? ==>
        var m := L.AcceptOf(slot, L.Choose(slot.promises).value); Owns(s, m.proposerId, m.value)
    ensures Named(sys, Apply(sys, s, e))
  {
    if Enabled(sys, s, e) {
      match e
      case Submit(p, v) => SubmitKeepsNamed(sys, s, p, v);
      case OnPrepare(_, _) => AcceptorKeepsNamed(sys, s, e);
      case OnAccept(_, _) => AcceptorKeepsNamed(sys, s, e);
      case OnAnyval(_, _) => AcceptorKeepsNamed(sys, s, e);
      case OnLsync(_) => AcceptorKeepsNamed(sys, s, e);
      case Reuse(_, _) => AcceptorKeepsNamed(sys, s, e);
      case _ =>
    }
  }

  lemma {:induction false} PlainRunsAreNamed(sys: System, es: seq<Event>)
    requires Plainly(sys, es)
    ensures Named(sys, Exec(sys, es))
  {
    if es == [] {
    } else {
      var before, e := es[..|es| - 1], es[|es| - 1];
      var s := Exec(sys, before);
      PlainRunsAreNamed(sys, before);
      RunsKeepOnlySubmitted(sys, before);
      if Enabled(sys, s, e) && e.Decide? {
        FastRecoveryNamesOwner(sys, before, e.leader, e.anyBallot);
      }
      StepKeepsNamed(sys, s, e);
    }
  }

  /** Then what a learner delivers it delivers in the name of a proposer that submitted it for the instance. */
  lemma DeliveryNamesOwner(sys: System, es: seq<Event>, w: nat, ms: seq<Learn>)
    requires Plainly(sys, es) && DrawnFrom(sys, Exec(sys, es), ms) && sys.inst < |M.Run(sys.n, w, ms).log|
    ensures var d := M.Run(sys.n, w, ms).log[sys.inst]; Owns(Exec(sys, es), d.proposerId, d.value)
  {
    PlainRunsAreNamed(sys, es);
    var b, q := M.DeliveryRestsOnQuorum(sys.n, w, ms, sys.inst);
    var d := M.Run(sys.n, w, ms).log[sys.inst];
    var m :| m in ms && m.acceptorId in q && m.iid == sys.inst && m.ballot == b && m.value == d.value
      && m.proposerId == d.proposerId;
  }
}
