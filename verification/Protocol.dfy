/**
 * One instance of the protocol as a transition system: n acceptors, a leader and a proposer for
 * every proposer id, and a network that may lose, duplicate and reorder whatever was sent.
 * Every step applies the record rules of the acceptor and the leader. Learners are not part of the
 * state: a learner is a run of LearnerModel over messages drawn from the network.
 */
module Protocol {
  import opened Common
  import A = AcceptorRecord
  import L = LeaderModel

  datatype System = System(n: nat, inst: nat)

  datatype Msg =
    | MPrepare(prepare: Prepare)
    | MPromise(acceptorId: int, promise: Promise)
    | MAccept(accept: Accept)
    | MAnyval(ballot: int)
    | MLearn(learn: Learn)

  /**
   * `evicted` says whose slot a later instance has taken: from then on the acceptor answers for this one from
   * its database. `votes` is the history of the accepts each acceptor took; `net` only grows.
   */
  datatype State = State(accs: seq<A.Record>, evicted: seq<bool>, votes: seq<seq<Accept>>, leaders: seq<L.Slot>,
                         values: seq<Option<Value>>, net: set<Msg>)

  datatype Event =
    | Submit(proposer: int, value: Value)
    | Open(leader: int)
    | Restart(leader: int)
    | TakePromise(leader: int, acc: int, promise: Promise)
    | Decide(leader: int, anyBallot: int)
    | OnPrepare(acc: int, prepare: Prepare)
    | OnAccept(acc: int, accept: Accept)
    | OnAnyval(acc: int, ballot: int)
    | OnLsync(acc: int)
    | Stray(ballot: int)
    | Reuse(acc: int, record: A.Record)
    | Evict(acc: int)
    | Fetch(acc: int, anyEnabled: bool, proposerId: int)

  function Init(sys: System): State {
    State(seq(sys.n, _ => A.EMPTY), seq(sys.n, _ => false), seq(sys.n, _ => []),
          seq(MAX_PROPOSERS, _ => L.BlankSlot(sys.n)),
          seq(MAX_PROPOSERS, _ => None), {})
  }

  predicate Shaped(sys: System, s: State) {
    && |s.accs| == sys.n && |s.evicted| == sys.n && |s.votes| == sys.n
    && |s.leaders| == MAX_PROPOSERS && |s.values| == MAX_PROPOSERS
    && (forall l :: 0 <= l < MAX_PROPOSERS ==> |s.leaders[l].promises| == sys.n)
  }

  predicate IsAcceptor(sys: System, a: int) {
    0 <= a < sys.n
  }

  /** The accept a proposer sends on its own: always in its fixed ballot. */
  function FastAccept(sys: System, p: int, v: Value): Accept {
    Accept(sys.inst, FixedBallot(p), p, v)
  }

  predicate Enabled(sys: System, s: State, e: Event)
    requires Shaped(sys, s)
  {
    match e
    // a proposer sends one value per instance, any number of times
    case Submit(p, v) => IsProposer(p) && s.values[p] in {None, Some(v)}
    case Open(l) => IsProposer(l) && s.leaders[l].status == L.New
    case Restart(l) => IsProposer(l) && s.leaders[l].status != L.New
    case TakePromise(l, a, p) => IsProposer(l) && IsAcceptor(sys, a) && MPromise(a, p) in s.net
    // an ANYVAL packet carries the highest ballot of its batch
    case Decide(l, anyBallot) =>
      IsProposer(l) && s.leaders[l].status == L.Ready && anyBallot >= s.leaders[l].ballot
    case OnPrepare(a, p) => IsAcceptor(sys, a) && MPrepare(p) in s.net
    case OnAccept(a, m) => IsAcceptor(sys, a) && MAccept(m) in s.net
    // for an instance that is neither in its slot nor in the database the acceptor dereferences NULL
    case OnAnyval(a, ballot) =>
      IsAcceptor(sys, a) && MAnyval(ballot) in s.net && !(s.evicted[a] && s.accs[a].iid < sys.inst)
    case OnLsync(a) => IsAcceptor(sys, a)
    // an ANYVAL may be sent for this instance by mistake, for the record of another
    case Stray(_) => true
    // until the instance reaches an acceptor, its slot serves earlier ones, and may be left in any state
    case Reuse(a, r) => IsAcceptor(sys, a) && !s.evicted[a] && s.accs[a].iid < sys.inst && r.iid < sys.inst
    case Evict(a) => IsAcceptor(sys, a) && !s.evicted[a]
    // the database does not keep any_enabled and the proposer: they come back as whatever was in memory
    case Fetch(a, _, _) => IsAcceptor(sys, a) && s.evicted[a] && s.accs[a].iid == sys.inst
  }

  /** From memory only a record with a value answers a retransmission request; from the database any does. */
  predicate AnswersLsync(sys: System, s: State, a: int)
    requires Shaped(sys, s) && IsAcceptor(sys, a)
  {
    s.accs[a].iid == sys.inst && (s.accs[a].value.Some? || s.evicted[a])
  }

  function Send(s: State, m: Msg): State {
    s.(net := s.net + {m})
  }

  function SetLeader(s: State, l: int, slot: L.Slot): State
    requires 0 <= l < |s.leaders|
  {
    s.(leaders := s.leaders[l := slot])
  }

  /** A disabled event changes nothing. */
  function Apply(sys: System, s: State, e: Event): (r: State)
    requires Shaped(sys, s)
    ensures Shaped(sys, r)
    ensures s.net <= r.net
  {
    if !Enabled(sys, s, e) then s else
    match e
    case Submit(p, v) => Send(s.(values := s.values[p := Some(v)]), MAccept(FastAccept(sys, p, v)))
    case Open(l) =>
      var slot := L.OpenedSlot(sys.n, sys.inst, l);
      Send(SetLeader(s, l, slot), MPrepare(Prepare(sys.inst, slot.ballot)))
    case Restart(l) =>
      var slot := L.Restarted(sys.n, s.leaders[l]);
      Send(SetLeader(s, l, slot), MPrepare(Prepare(sys.inst, slot.ballot)))
    case TakePromise(l, a, p) => SetLeader(s, l, L.TakePromise(sys.n, s.leaders[l], a, p))
    case Decide(l, anyBallot) =>
      var slot := s.leaders[l];
      var choice := L.Choose(slot.promises);
      Send(SetLeader(s, l, slot.(status := L.Finished)),
           if choice.None? then MAnyval(anyBallot) else MAccept(L.AcceptOf(slot, choice.value)))
    case OnPrepare(a, p) =>
      var r := A.Prepared(s.accs[a], p);
      if A.AdmitsPrepare(s.accs[a], p)
      then Send(s.(accs := s.accs[a := r]), MPromise(a, A.PromiseOf(r))) else s
    case OnAccept(a, m) =>
      var r := A.Accepted(s.accs[a], m);
      if A.AdmitsAccept(s.accs[a], m)
      then Send(s.(accs := s.accs[a := r], votes := s.votes[a := s.votes[a] + [m]]), MLearn(A.LearnOf(a, r)))
      else s
    case OnAnyval(a, ballot) => s.(accs := s.accs[a := A.Opened(s.accs[a], sys.inst, ballot)])
    case OnLsync(a) => if AnswersLsync(sys, s, a) then Send(s, MLearn(A.LearnOf(a, s.accs[a]))) else s
    case Stray(ballot) => Send(s, MAnyval(ballot))
    case Reuse(a, r) => s.(accs := s.accs[a := r])
    case Evict(a) =>
      s.(evicted := s.evicted[a := true],
         accs := if s.accs[a].iid == sys.inst then s.accs else s.accs[a := A.EMPTY])
    case Fetch(a, any, p) => s.(accs := s.accs[a := s.accs[a].(anyEnabled := any, proposerId := p)])
  }

  function Exec(sys: System, es: seq<Event>): (s: State)
    ensures Shaped(sys, s)
  {
    if es == [] then Init(sys) else Apply(sys, Exec(sys, es[..|es| - 1]), es[|es| - 1])
  }

  // ---------- the provisos ----------

  /**
   * anyvalSpares: no ANYVAL is applied to a record that holds a value.
   * fetchSpares: any_enabled is not read as set for a record that comes back from the database with a value.
   * lsyncHeld: the database answers retransmission requests only for records that hold a value.
   * lsyncCurrent: a record with a value answers them only while its ballot is its value's ballot.
   */
  datatype Provisos = Provisos(anyvalSpares: bool, fetchSpares: bool, lsyncHeld: bool, lsyncCurrent: bool) {
    /** Nothing but an accept replaces a held value, and only one that the ballots admit. */
    predicate Spare() {
      anyvalSpares && fetchSpares
    }
  }

  const ALL: Provisos := Provisos(true, true, true, true)

  predicate Permitted(sys: System, h: Provisos, s: State, e: Event)
    requires Shaped(sys, s)
  {
    Enabled(sys, s, e) ==>
      && (h.anyvalSpares && e.OnAnyval? ==>
            A.SparesValue(s.accs[e.acc], A.OnAnyval(sys.inst, e.ballot)))
      && (h.fetchSpares && e.Fetch? && s.accs[e.acc].value.Some? ==> !e.anyEnabled)
      && (h.lsyncHeld && e.OnLsync? && AnswersLsync(sys, s, e.acc) ==> s.accs[e.acc].value.Some?)
      && (h.lsyncCurrent && e.OnLsync? && AnswersLsync(sys, s, e.acc) && s.accs[e.acc].value.Some? ==>
            s.accs[e.acc].ballot == s.accs[e.acc].valueBallot)
  }

  predicate Legal(sys: System, h: Provisos, es: seq<Event>) {
    es == [] || (var before := es[..|es| - 1];
                 Legal(sys, h, before) && Permitted(sys, h, Exec(sys, before), es[|es| - 1]))
  }

  /**
   * Events that need no other instance: nothing strays, and no slot is shared. A proposer submits once, a value
   * that fits; a leader is not restarted between its quorum and its decision, as it never is in the code.
   */
  predicate IsPlain(sys: System, s: State, e: Event)
    requires Shaped(sys, s)
  {
    Enabled(sys, s, e) ==>
      match e
      case Submit(p, v) => s.values[p] == None && |v| <= PAXOS_MAX_VALUE_SIZE
      case Restart(l) => s.leaders[l].status != L.Ready
      case Decide(l, anyBallot) => anyBallot == s.leaders[l].ballot
      case Stray(_) => false
      case Reuse(_, _) => false
      case Evict(_) => false
      case Fetch(_, _, _) => false
      case _ => true
  }

  predicate PlainRun(sys: System, es: seq<Event>) {
    es == [] || (var before := es[..|es| - 1];
                 PlainRun(sys, before) && IsPlain(sys, Exec(sys, before), es[|es| - 1]))
  }

  ghost predicate Reachable(sys: System, h: Provisos, s: State) {
    exists es :: Legal(sys, h, es) && Exec(sys, es) == s
  }

  lemma InitIsReachable(sys: System, h: Provisos)
    ensures Reachable(sys, h, Init(sys))
  {
    assert Legal(sys, h, []) && Exec(sys, []) == Init(sys);
  }

  lemma StepIsReachable(sys: System, h: Provisos, s: State, e: Event)
    requires Shaped(sys, s) && Reachable(sys, h, s) && Permitted(sys, h, s, e)
    ensures Reachable(sys, h, Apply(sys, s, e))
  {
    var es :| Legal(sys, h, es) && Exec(sys, es) == s;
    assert (es + [e])[..|es|] == es;
    assert Legal(sys, h, es + [e]) && Exec(sys, es + [e]) == Apply(sys, s, e);
  }
}
