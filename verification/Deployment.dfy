/**
 * The whole system: acceptors with their arrays and databases, a leader and a proposer for every proposer id,
 * each stepping as its own module has it, and a network of packets that may lose, duplicate and reorder whatever
 * was sent.
 */
module Deployment {
  import opened Common
  import A = AcceptorRecord
  import C = AcceptorCache
  import L = LeaderModel
  import W = LeaderWindow
  import P = ProposerModel

  /** The number of acceptors, the array of every acceptor, and the ring and window of every leader. */
  datatype Setup = Setup(n: nat, slots: nat, size: nat, window: nat) {
    predicate Works() {
      slots > 0 && size > 0
    }
  }

  /** An acceptor's array and database, and all it has answered. */
  datatype Site = Site(memory: C.Memory, promises: set<Promise>, learns: set<Learn>)

  /** The network is what has been sent: leaders and proposers keep their packets, acceptors their answers. */
  datatype State = State(acceptors: seq<Site>, leaders: seq<L.State>, proposers: seq<P.State>)

  datatype Event =
    | AtLeader(leader: int, turn: W.Event)
    | AtProposer(proposer: int, act: P.Event)
    | OnPrepare(acc: int, prepare: Prepare)
    // `any` and `proposerId` are what a record read back from the database happens to have in them
    | OnAccept(acc: int, accept: Accept, any: bool)
    | OnAnyval(acc: int, iid: int, ballot: int, any: bool)
    | OnLsync(acc: int, iid: int, proposerId: int)

  function LeaderConfig(u: Setup, l: int): L.Config {
    L.Config(u.n, u.size, u.window, l)
  }

  function Init(u: Setup): State
    requires u.Works()
  {
    State(seq(u.n, _ => Site(C.Empty(u.slots), {}, {})),
          seq(MAX_PROPOSERS, l => L.Init(LeaderConfig(u, l))), seq(MAX_PROPOSERS, p => P.Init(p)))
  }

  predicate Shaped(u: Setup, s: State) {
    && u.Works()
    && |s.acceptors| == u.n && |s.leaders| == MAX_PROPOSERS && |s.proposers| == MAX_PROPOSERS
    && (forall a :: 0 <= a < u.n ==> |s.acceptors[a].memory.slots| == u.slots)
    && (forall l :: 0 <= l < MAX_PROPOSERS ==> L.Shaped(LeaderConfig(u, l), s.leaders[l]))
  }

  // ---------- what is on the network ----------

  predicate SentPrepare(s: State, p: Prepare) {
    exists l, k :: 0 <= l < |s.leaders| && 0 <= k < |s.leaders[l].sent| && s.leaders[l].sent[k].Prepares?
                   && p in s.leaders[l].sent[k].prepares
  }

  predicate SentAccept(s: State, m: Accept) {
    || (exists l :: 0 <= l < |s.leaders| && L.AcceptPacket(m) in s.leaders[l].sent)
    || (exists p :: 0 <= p < |s.proposers| && m in s.proposers[p].sent)
  }

  predicate SentAnyval(s: State, iid: int, ballot: int) {
    exists l, k :: 0 <= l < |s.leaders| && 0 <= k < |s.leaders[l].sent| && s.leaders[l].sent[k].Anyvals?
                   && s.leaders[l].sent[k].ballot == ballot && iid in s.leaders[l].sent[k].iids
  }

  // ---------- steps ----------

  predicate Enabled(u: Setup, s: State, e: Event)
    requires Shaped(u, s)
  {
    match e
    // the learner of the process reports instances in order; a promise packet holds promises its sender gave
    case AtLeader(l, t) =>
      && IsProposer(l) && W.FromAcceptor(LeaderConfig(u, l), t)
      && (t.Delivered? ==> t.iid == s.leaders[l].currentIid)
      && (t.Promises? ==> forall p :: p in t.promises ==> p in s.acceptors[t.acceptorId].promises)
    case AtProposer(p, _) => IsProposer(p)
    // instances are numbered from 0
    case OnPrepare(a, p) => 0 <= a < u.n && p.iid >= 0 && SentPrepare(s, p)
    case OnAccept(a, m, _) => 0 <= a < u.n && m.iid >= 0 && SentAccept(s, m)
    case OnAnyval(a, i, b, _) => 0 <= a < u.n && i >= 0 && SentAnyval(s, i, b)
    case OnLsync(a, i, _) => 0 <= a < u.n && i >= 0
  }

  // What an acceptor does with a message: its memory changes as AcceptorCache says, and its answers are kept.

  function Prepared(acc: Site, p: Prepare): Site
    requires |acc.memory.slots| > 0
  {
    Site(C.AfterPrepare(acc.memory, p), acc.promises + Elements(C.MapPromise(acc.memory.disk, p)), acc.learns)
  }

  function Accepted(acc: Site, a: int, m: Accept, any: bool): Site
    requires |acc.memory.slots| > 0
  {
    Site(C.AfterAccept(acc.memory, any, m), acc.promises, acc.learns + Elements(C.AcceptAnswer(acc.memory, any, a, m)))
  }

  function Opened(acc: Site, iid: int, ballot: int, any: bool): Site
    requires |acc.memory.slots| > 0
  {
    acc.(memory := C.AfterAnyval(acc.memory, any, iid, ballot))
  }

  function Answered(acc: Site, a: int, iid: int, proposerId: int): Site
    requires |acc.memory.slots| > 0
  {
    acc.(learns := acc.learns + Elements(C.LsyncAnswer(acc.memory, proposerId, a, iid)))
  }

  function Elements<T>(s: seq<T>): set<T> {
    set x | x in s
  }

  function SetAcceptor(s: State, a: int, acc: Site): State
    requires 0 <= a < |s.acceptors|
  {
    s.(acceptors := s.acceptors[a := acc])
  }

  /** A disabled event changes nothing, nor does a handler call that ends in a failed assertion. */
  function Apply(u: Setup, s: State, e: Event): (r: State)
    requires Shaped(u, s)
    ensures Shaped(u, r)
  {
    if !Enabled(u, s, e) then s else
    match e
    case AtLeader(l, t) =>
      var r := W.Step(LeaderConfig(u, l), s.leaders[l], t);
      if r.Some? then s.(leaders := s.leaders[l := r.value]) else s
    case AtProposer(p, t) =>
      var r := P.Step(s.proposers[p], t);
      if r.Some? then s.(proposers := s.proposers[p := r.value]) else s
    case OnPrepare(a, p) => SetAcceptor(s, a, Prepared(s.acceptors[a], p))
    case OnAccept(a, m, any) => SetAcceptor(s, a, Accepted(s.acceptors[a], a, m, any))
    case OnAnyval(a, i, b, any) => SetAcceptor(s, a, Opened(s.acceptors[a], i, b, any))
    case OnLsync(a, i, p) => SetAcceptor(s, a, Answered(s.acceptors[a], a, i, p))
  }

  function Exec(u: Setup, es: seq<Event>): (s: State)
    requires u.Works()
    ensures Shaped(u, s)
  {
    if es == [] then Init(u) else Apply(u, Exec(u, es[..|es| - 1]), es[|es| - 1])
  }
}
