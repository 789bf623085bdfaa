/**
 * A proposer process: its learner calls back into the proposer for every delivery, and the proposer into
 * the leader if the process is one (lib/proposer.c:79-122).
 */
module Node {
  import opened Common
  import M = LearnerModel
  import L = LeaderModel
  import W = LeaderWindow
  import P = ProposerModel

  /** The leader's part is idle in a process that is not a leader. */
  datatype State = State(learner: M.State, proposer: P.State, isLeader: bool, leader: L.State)

  datatype Event =
    | Learned(m: Learn)
    | Submit(value: Value)
    | TimedOut(t: P.Timeout)
    | Phase1Timer
    | Phase2Timer
    | Promises(acceptorId: int, promises: seq<Promise>)

  function Init(c: L.Config, learnerWindow: nat, isLeader: bool): State
    requires c.size > 0
  {
    State(M.Init(c.n, learnerWindow), P.Init(c.id), isLeader, L.Init(c))
  }

  /** proposer_deliver_callback, once per delivery. */
  function CallBack(s: State, d: M.Delivery): Option<State> {
    var leader := if s.isLeader then L.Deliver(s.leader, d.iid) else s.leader;
    match P.DeliverCallback(s.proposer, d.iid, d.proposerId)
    case None => None
    case Some(p) => Some(s.(proposer := p, leader := leader))
  }

  function CallBacks(s: State, ds: seq<M.Delivery>): Option<State> {
    if ds == [] then Some(s) else
      match CallBacks(s, ds[..|ds| - 1])
      case None => None
      case Some(t) => CallBack(t, ds[|ds| - 1])
  }

  function FromLeader(s: State, r: Option<L.State>): Option<State> {
    match r
    case None => None
    case Some(l) => Some(s.(leader := l))
  }

  predicate Fits(c: L.Config, s: State, e: Event) {
    && L.Shaped(c, s.leader)
    && (e.Promises? ==> 0 <= e.acceptorId < c.n)
  }

  function Step(c: L.Config, s: State, e: Event): Option<State>
    requires Fits(c, s, e)
  {
    match e
    case Learned(m) =>
      var l := M.HandleLearn(s.learner, m);
      if |l.log| < |s.learner.log| then None
      else CallBacks(s.(learner := l), l.log[|s.learner.log|..])
    case Submit(v) => Some(s.(proposer := P.Step(s.proposer, P.Submit(v)).value))
    case TimedOut(t) => Some(s.(proposer := P.CheckTimeout(s.proposer, t)))
    case Phase1Timer => if s.isLeader then FromLeader(s, W.Step(c, s.leader, W.Phase1Timer)) else Some(s)
    case Phase2Timer => if s.isLeader then FromLeader(s, W.Step(c, s.leader, W.Phase2Timer)) else Some(s)
    case Promises(a, ps) => if s.isLeader then FromLeader(s, W.Step(c, s.leader, W.Promises(a, ps))) else Some(s)
  }

  predicate WellSent(c: L.Config, es: seq<Event>) {
    forall i :: 0 <= i < |es| && es[i].Promises? ==> 0 <= es[i].acceptorId < c.n
  }

  /** The run ends at the first failed assertion. */
  function Run(c: L.Config, w: nat, isLeader: bool, es: seq<Event>): Option<State>
    requires c.size > 0
  {
    if es == [] then Some(Init(c, w, isLeader)) else
      match Run(c, w, isLeader, es[..|es| - 1])
      case None => None
      case Some(s) => if Fits(c, s, es[|es| - 1]) then Step(c, s, es[|es| - 1]) else None
  }

  /** Between events learner, proposer and leader are at the same instance, and each is sound. */
  ghost predicate InStep(c: L.Config, s: State) {
    && M.Inv(s.learner)
    && s.proposer.currentIid == s.learner.delivered + 1
    && P.Orderly(s.proposer)
    && L.Shaped(c, s.leader)
    && (s.isLeader ==>
          && s.leader.currentIid == s.learner.delivered + 1
          && W.Conserved(c, s.leader) && W.Bounded(c, s.leader))
  }

  /** The same in the middle of a delivery, when the callbacks have got as far as instance `at`. */
  ghost predicate InStepAt(c: L.Config, s: State, at: int) {
    && s.proposer.currentIid == at
    && P.Orderly(s.proposer)
    && L.Shaped(c, s.leader)
    && (s.isLeader ==> s.leader.currentIid == at && W.Conserved(c, s.leader) && W.Bounded(c, s.leader))
  }

  lemma CallBackStaysInStep(c: L.Config, s: State, d: M.Delivery)
    requires InStepAt(c, s, d.iid)
    ensures CallBack(s, d).Some? && InStepAt(c, CallBack(s, d).value, d.iid + 1)
    ensures CallBack(s, d).value.learner == s.learner && CallBack(s, d).value.isLeader == s.isLeader
  {
    P.StepIsOrderly(s.proposer, P.Delivered(d.iid, d.proposerId));
    if s.isLeader {
      W.StepConserves(c, s.leader, W.Delivered(d.iid));
    }
  }

  lemma {:induction false} CallBacksStayInStep(c: L.Config, s: State, ds: seq<M.Delivery>, at: int)
    requires InStepAt(c, s, at)
    requires forall i :: 0 <= i < |ds| ==> ds[i].iid == at + i
    ensures CallBacks(s, ds).Some? && InStepAt(c, CallBacks(s, ds).value, at + |ds|)
    ensures CallBacks(s, ds).value.learner == s.learner && CallBacks(s, ds).value.isLeader == s.isLeader
  {
    if ds == [] {
    } else {
      CallBacksStayInStep(c, s, ds[..|ds| - 1], at);
      CallBackStaysInStep(c, CallBacks(s, ds[..|ds| - 1]).value, ds[|ds| - 1]);
    }
  }

  lemma LearnedStaysInStep(c: L.Config, s: State, m: Learn)
    requires InStep(c, s) && Fits(c, s, Learned(m))
    ensures Step(c, s, Learned(m)).Some? && InStep(c, Step(c, s, Learned(m)).value)
  {
    M.HandleLearnKeepsInv(s.learner, m);
    var l := M.HandleLearn(s.learner, m);
    var ds := l.log[|s.learner.log|..];
    forall i | 0 <= i < |ds| ensures ds[i].iid == s.learner.delivered + 1 + i {
      assert l.log[|s.learner.log| + i] == M.DeliveryOf(l, |s.learner.log| + i);
    }
    CallBacksStayInStep(c, s.(learner := l), ds, s.learner.delivered + 1);
  }

  /** The one assertion that can fail is the leader's, and only once it has been overtaken. */
  lemma StepStaysInStep(c: L.Config, s: State, e: Event)
    requires InStep(c, s) && Fits(c, s, e)
    ensures Step(c, s, e) == None <==> e.Phase2Timer? && s.isLeader && !L.CheckHolds(c, s.leader)
    ensures Step(c, s, e).Some? ==> InStep(c, Step(c, s, e).value)
  {
    match e
    case Learned(m) => LearnedStaysInStep(c, s, m);
    case Submit(v) => P.StepIsOrderly(s.proposer, P.Submit(v));
    case TimedOut(t) => P.StepIsOrderly(s.proposer, P.TimedOut(t));
    case Phase1Timer => if s.isLeader { W.StepConserves(c, s.leader, W.Phase1Timer); }
    case Phase2Timer => if s.isLeader { W.StepConserves(c, s.leader, W.Phase2Timer); }
    case Promises(a, ps) => if s.isLeader { W.StepConserves(c, s.leader, W.Promises(a, ps)); }
  }

  /** In every run of a process its learner, proposer and leader stay in step, and no delivery asserts in vain. */
  lemma {:induction false} ProcessStaysInStep(c: L.Config, w: nat, isLeader: bool, es: seq<Event>)
    requires c.size > 0 && WellSent(c, es)
    ensures Run(c, w, isLeader, es).Some? ==> InStep(c, Run(c, w, isLeader, es).value)
    ensures Run(c, w, isLeader, es).Some? ==> Run(c, w, isLeader, es).value.isLeader == isLeader
    ensures !isLeader ==> Run(c, w, isLeader, es).Some?
  {
    if es == [] {
      W.InitConserves(c);
    } else {
      var before := es[..|es| - 1];
      ProcessStaysInStep(c, w, isLeader, before);
      if Run(c, w, isLeader, before).Some? {
        var s := Run(c, w, isLeader, before).value;
        StepStaysInStep(c, s, es[|es| - 1]);
        StepKeepsRole(c, s, es[|es| - 1]);
      }
    }
  }

  lemma StepKeepsRole(c: L.Config, s: State, e: Event)
    requires InStep(c, s) && Fits(c, s, e)
    ensures Step(c, s, e).Some? ==> Step(c, s, e).value.isLeader == s.isLeader
  {
    if e.Learned? {
      M.HandleLearnKeepsInv(s.learner, e.m);
      var l := M.HandleLearn(s.learner, e.m);
      KeepsRole(s.(learner := l), l.log[|s.learner.log|..]);
    }
  }

  lemma {:induction false} KeepsRole(s: State, ds: seq<M.Delivery>)
    ensures CallBacks(s, ds).Some? ==> CallBacks(s, ds).value.isLeader == s.isLeader
  {
    if ds == [] {
    } else {
      KeepsRole(s, ds[..|ds| - 1]);
    }
  }

  lemma RunOneMore(c: L.Config, w: nat, isLeader: bool, es: seq<Event>, e: Event)
    requires c.size > 0 && WellSent(c, es + [e]) && Run(c, w, isLeader, es).Some?
    ensures WellSent(c, es)
    ensures var s := Run(c, w, isLeader, es).value;
            Run(c, w, isLeader, es + [e]) == if Fits(c, s, e) then Step(c, s, e) else None
  {
    var all := es + [e];
    assert all[..|es|] == es && all[|es|] == e;
    forall i | 0 <= i < |es| && es[i].Promises? ensures 0 <= es[i].acceptorId < c.n {
      assert all[i] == es[i];
    }
  }

  /**
   * When exactly a process aborts: it is a leader, nothing was delivered since its last phase 2 tick, and what it
   * opened and has not delivered is nothing, or more than its ring holds.
   */
  lemma ProcessAbortsIff(c: L.Config, w: nat, isLeader: bool, es: seq<Event>, e: Event)
    requires c.size > 0 && WellSent(c, es + [e]) && Run(c, w, isLeader, es).Some?
    ensures var s := Run(c, w, isLeader, es).value;
            Run(c, w, isLeader, es + [e]) == None <==> e.Phase2Timer? && isLeader && Overtaken(c, s.leader)
  {
    RunOneMore(c, w, isLeader, es, e);
    ProcessStaysInStep(c, w, isLeader, es);
    assert (es + [e])[|es|] == e;
    StepAbortsIff(c, Run(c, w, isLeader, es).value, e);
  }

  predicate Overtaken(c: L.Config, l: L.State) {
    l.currentIid == l.checkedIid && !(0 < l.pendingCount + l.readyCount <= c.size)
  }

  lemma StepAbortsIff(c: L.Config, s: State, e: Event)
    requires InStep(c, s) && Fits(c, s, e)
    ensures Step(c, s, e) == None <==> e.Phase2Timer? && s.isLeader && Overtaken(c, s.leader)
  {
    StepStaysInStep(c, s, e);
    if s.isLeader && s.leader.currentIid == s.leader.checkedIid {
      W.CheckHoldsIff(c, s.leader);
    }
  }
}
