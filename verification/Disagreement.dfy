/**
 * When agreement and validity fail. Each proviso of Agreement, and the bound of three acceptors, is needed:
 * without it a run of the protocol makes two learners deliver different values, or one deliver a value nobody
 * submitted.
 */
module Disagreement {
  import opened Common
  import A = AcceptorRecord
  import L = LeaderModel
  import M = LearnerModel
  import opened Protocol
  import opened Agreement

  /** In every run that keeps the provisos, any two learners with rings of w agree on the instance. */
  ghost predicate AlwaysAgrees(n: nat, h: Provisos, w: nat) {
    forall inst: nat, es, ms, ms' :: Legal(System(n, inst), h, es) ==>
      Agree(System(n, inst), Exec(System(n, inst), es), w, ms, w, ms')
  }

  /** A learner with a ring of w delivers for the instance only what was submitted. */
  ghost predicate Valid(sys: System, s: State, w: nat, ms: seq<Learn>) {
    DrawnFrom(sys, s, ms) && sys.inst < |M.Run(sys.n, w, ms).log| ==>
      Submitted(s, M.Run(sys.n, w, ms).log[sys.inst].value)
  }

  /** So it is in every run that keeps the provisos. */
  ghost predicate AlwaysValid(n: nat, h: Provisos, w: nat) {
    forall inst: nat, es, ms :: Legal(System(n, inst), h, es) ==>
      Valid(System(n, inst), Exec(System(n, inst), es), w, ms)
  }

  // ---------- runs, plain ones or any ----------

  /** A run that keeps the provisos, a plain one if that is asked for, leads to s. */
  ghost predicate Reached(sys: System, h: Provisos, plain: bool, s: State) {
    exists es :: Legal(sys, h, es) && (plain ==> PlainRun(sys, es)) && Exec(sys, es) == s
  }

  lemma InitIsReached(sys: System, h: Provisos, plain: bool)
    ensures Reached(sys, h, plain, Init(sys))
  {
    assert Legal(sys, h, []) && PlainRun(sys, []) && Exec(sys, []) == Init(sys);
  }

  lemma StepIsReached(sys: System, h: Provisos, plain: bool, s: State, e: Event)
    requires Shaped(sys, s) && Reached(sys, h, plain, s) && Permitted(sys, h, s, e)
    requires plain ==> IsPlain(sys, s, e)
    ensures Reached(sys, h, plain, Apply(sys, s, e))
  {
    var es :| Legal(sys, h, es) && (plain ==> PlainRun(sys, es)) && Exec(sys, es) == s;
    assert (es + [e])[..|es|] == es;
    assert Legal(sys, h, es + [e]) && Exec(sys, es + [e]) == Apply(sys, s, e);
    assert plain ==> PlainRun(sys, es + [e]);
  }

  // ---------- handing one message to a range of acceptors ----------

  predicate IsAcceptorEvent(e: Event) {
    e.OnPrepare? || e.OnAccept? || e.OnAnyval? || e.OnLsync? || e.Reuse? || e.Evict? || e.Fetch?
  }

  function At(e: Event, a: int): Event
    requires IsAcceptorEvent(e)
  {
    match e
    case OnPrepare(_, p) => OnPrepare(a, p)
    case OnAccept(_, m) => OnAccept(a, m)
    case OnAnyval(_, b) => OnAnyval(a, b)
    case OnLsync(_) => OnLsync(a)
    case Reuse(_, r) => Reuse(a, r)
    case Evict(_) => Evict(a)
    case Fetch(_, any, p) => Fetch(a, any, p)
  }

  function RecordAfter(sys: System, r: A.Record, e: Event): A.Record
    requires IsAcceptorEvent(e)
  {
    match e
    case OnPrepare(_, p) => A.Prepared(r, p)
    case OnAccept(_, m) => A.Accepted(r, m)
    case OnAnyval(_, b) => A.Opened(r, sys.inst, b)
    case OnLsync(_) => r
    case Reuse(_, r') => r'
    case Evict(_) => if r.iid == sys.inst then r else A.EMPTY
    case Fetch(_, any, p) => r.(anyEnabled := any, proposerId := p)
  }

  /** The answer acceptor a gives in t to an event it admits in s, and the vote it casts. */
  predicate Answered(sys: System, s: State, t: State, a: int, e: Event)
    requires Shaped(sys, s) && IsAcceptorEvent(e) && IsAcceptor(sys, a) && |t.votes| == sys.n
  {
    var r := s.accs[a];
    match e
    case OnPrepare(_, p) => A.AdmitsPrepare(r, p) ==> MPromise(a, A.PromiseOf(A.Prepared(r, p))) in t.net
    case OnAccept(_, m) => A.AdmitsAccept(r, m) ==> MLearn(A.LearnOf(a, A.Accepted(r, m))) in t.net && m in t.votes[a]
    case OnLsync(_) => AnswersLsync(sys, s, a) ==> MLearn(A.LearnOf(a, r)) in t.net
    case _ => true
  }

  /** The network and the votes only grow. */
  predicate Grows(s: State, t: State) {
    && s.net <= t.net && |s.votes| == |t.votes|
    && (forall a :: 0 <= a < |s.votes| ==> s.votes[a] <= t.votes[a])
  }

  lemma AnsweredStays(sys: System, s: State, t: State, t': State, a: int, e: Event)
    requires Shaped(sys, s) && IsAcceptorEvent(e) && IsAcceptor(sys, a) && |t.votes| == sys.n
    requires Grows(t, t') && Answered(sys, s, t, a, e)
    ensures Answered(sys, s, t', a, e)
  {
  }

  lemma HandingOne(sys: System, s: State, e: Event, a: int)
    requires Shaped(sys, s) && IsAcceptorEvent(e) && 0 <= a < sys.n && Enabled(sys, s, At(e, a))
    ensures var t := Apply(sys, s, At(e, a));
            && t.accs == s.accs[a := RecordAfter(sys, s.accs[a], e)] && Answered(sys, s, t, a, e)
            && t.evicted == s.evicted[a := s.evicted[a] || e.Evict?]
            && t.leaders == s.leaders && t.values == s.values && Grows(s, t)
  {
  }

  /** In t, the acceptors from lo up to hi have taken in the event that s admitted for each. */
  ghost predicate Handed(sys: System, s: State, t: State, e: Event, lo: nat, hi: nat)
    requires Shaped(sys, s) && IsAcceptorEvent(e) && lo <= hi <= sys.n
  {
    && Shaped(sys, t) && t.leaders == s.leaders && t.values == s.values && Grows(s, t)
    && (forall a :: 0 <= a < sys.n ==>
          && t.accs[a] == (if lo <= a < hi then RecordAfter(sys, s.accs[a], e) else s.accs[a])
          && t.evicted[a] == (s.evicted[a] || (lo <= a < hi && e.Evict?)))
    && (forall a :: lo <= a < hi ==> Answered(sys, s, t, a, e))
  }

  lemma HandedOneMore(sys: System, s: State, t: State, e: Event, lo: nat, hi: nat)
    requires Shaped(sys, s) && IsAcceptorEvent(e) && lo <= hi < sys.n && Handed(sys, s, t, e, lo, hi)
    requires Enabled(sys, t, At(e, hi))
    ensures Handed(sys, s, Apply(sys, t, At(e, hi)), e, lo, hi + 1)
  {
    var t' := Apply(sys, t, At(e, hi));
    HandingOne(sys, t, e, hi);
    forall a | lo <= a < hi ensures Answered(sys, s, t', a, e) {
      AnsweredStays(sys, s, t, t', a, e);
    }
  }

  lemma {:induction false} Broadcast(sys: System, h: Provisos, plain: bool, s: State, e: Event, lo: nat, hi: nat)
    returns (t: State)
    requires Shaped(sys, s) && Reached(sys, h, plain, s)
    requires IsAcceptorEvent(e) && lo <= hi <= sys.n && (plain ==> !e.Reuse? && !e.Evict? && !e.Fetch?)
    requires forall a :: lo <= a < hi ==> Enabled(sys, s, At(e, a)) && Permitted(sys, h, s, At(e, a))
    ensures Reached(sys, h, plain, t) && Handed(sys, s, t, e, lo, hi)
  {
    if lo == hi {
      t := s;
    } else {
      var last := hi - 1;
      var t0 := Broadcast(sys, h, plain, s, e, lo, last);
      assert Enabled(sys, s, At(e, last)) && Permitted(sys, h, s, At(e, last));
      StepIsReached(sys, h, plain, t0, At(e, last));
      HandedOneMore(sys, s, t0, e, lo, last);
      t := Apply(sys, t0, At(e, last));
    }
  }

  lemma HandPrepare(sys: System, h: Provisos, plain: bool, s: State, p: Prepare, lo: nat, hi: nat) returns (t: State)
    requires Shaped(sys, s) && Reached(sys, h, plain, s) && MPrepare(p) in s.net && lo <= hi <= sys.n
    ensures Shaped(sys, t) && Reached(sys, h, plain, t)
    ensures t.leaders == s.leaders && t.values == s.values && t.evicted == s.evicted && Grows(s, t)
    ensures forall a :: 0 <= a < sys.n ==> t.accs[a] == if lo <= a < hi then A.Prepared(s.accs[a], p) else s.accs[a]
    ensures forall a :: lo <= a < hi && A.AdmitsPrepare(s.accs[a], p) ==>
      MPromise(a, A.PromiseOf(t.accs[a])) in t.net
  {
    t := Broadcast(sys, h, plain, s, OnPrepare(0, p), lo, hi);
    forall a | lo <= a < hi && A.AdmitsPrepare(s.accs[a], p) ensures MPromise(a, A.PromiseOf(t.accs[a])) in t.net {
      assert Answered(sys, s, t, a, OnPrepare(0, p));
    }
  }

  lemma HandAccept(sys: System, h: Provisos, plain: bool, s: State, m: Accept, lo: nat, hi: nat) returns (t: State)
    requires Shaped(sys, s) && Reached(sys, h, plain, s) && MAccept(m) in s.net && lo <= hi <= sys.n
    ensures Shaped(sys, t) && Reached(sys, h, plain, t)
    ensures t.leaders == s.leaders && t.values == s.values && t.evicted == s.evicted && Grows(s, t)
    ensures forall a :: 0 <= a < sys.n ==> t.accs[a] == if lo <= a < hi then A.Accepted(s.accs[a], m) else s.accs[a]
    ensures forall a :: lo <= a < hi && A.AdmitsAccept(s.accs[a], m) ==>
      MLearn(A.LearnOf(a, t.accs[a])) in t.net && m in t.votes[a]
  {
    t := Broadcast(sys, h, plain, s, OnAccept(0, m), lo, hi);
    forall a | lo <= a < hi && A.AdmitsAccept(s.accs[a], m)
      ensures MLearn(A.LearnOf(a, t.accs[a])) in t.net && m in t.votes[a]
    {
      assert Answered(sys, s, t, a, OnAccept(0, m));
    }
  }

  lemma HandAnyval(sys: System, h: Provisos, plain: bool, s: State, b: int, lo: nat, hi: nat) returns (t: State)
    requires Shaped(sys, s) && Reached(sys, h, plain, s) && MAnyval(b) in s.net && lo <= hi <= sys.n
    requires h.anyvalSpares ==> forall a :: lo <= a < hi ==> s.accs[a].value.None?
    requires forall a :: lo <= a < hi && s.evicted[a] ==> s.accs[a].iid == sys.inst
    ensures Shaped(sys, t) && Reached(sys, h, plain, t)
    ensures t.leaders == s.leaders && t.values == s.values && t.evicted == s.evicted && Grows(s, t)
    ensures forall a :: 0 <= a < sys.n ==>
      t.accs[a] == if lo <= a < hi then A.Opened(s.accs[a], sys.inst, b) else s.accs[a]
  {
    t := Broadcast(sys, h, plain, s, OnAnyval(0, b), lo, hi);
  }

  lemma HandLsync(sys: System, h: Provisos, plain: bool, s: State) returns (t: State)
    requires Shaped(sys, s) && Reached(sys, h, plain, s)
    requires forall a :: 0 <= a < sys.n ==> AnswersLsync(sys, s, a) && Permitted(sys, h, s, OnLsync(a))
    ensures Shaped(sys, t) && Reached(sys, h, plain, t) && t.accs == s.accs && t.evicted == s.evicted
    ensures t.leaders == s.leaders && t.values == s.values && Grows(s, t)
    ensures forall a :: 0 <= a < sys.n ==> MLearn(A.LearnOf(a, s.accs[a])) in t.net
  {
    t := Broadcast(sys, h, plain, s, OnLsync(0), 0, sys.n);
    forall a | 0 <= a < sys.n ensures MLearn(A.LearnOf(a, s.accs[a])) in t.net {
      assert Answered(sys, s, t, a, OnLsync(0));
    }
  }

  lemma HandSubmit(sys: System, h: Provisos, plain: bool, s: State, p: int, v: Value) returns (t: State)
    requires Shaped(sys, s) && Reached(sys, h, plain, s) && IsProposer(p) && s.values[p] == None
    requires |v| <= PAXOS_MAX_VALUE_SIZE
    ensures Shaped(sys, t) && Reached(sys, h, plain, t)
    ensures t.leaders == s.leaders && t.values == s.values[p := Some(v)]
    ensures t.accs == s.accs && t.evicted == s.evicted && Grows(s, t)
    ensures MAccept(FastAccept(sys, p, v)) in t.net
  {
    StepIsReached(sys, h, plain, s, Submit(p, v));
    t := Apply(sys, s, Submit(p, v));
  }

  lemma HandDecide(sys: System, h: Provisos, plain: bool, s: State, l: int) returns (t: State)
    requires Shaped(sys, s) && Reached(sys, h, plain, s) && IsProposer(l) && s.leaders[l].status == L.Ready
    ensures Shaped(sys, t) && Reached(sys, h, plain, t)
    ensures t.leaders == s.leaders[l := s.leaders[l].(status := L.Finished)]
    ensures t.values == s.values && t.accs == s.accs && t.evicted == s.evicted && Grows(s, t)
    ensures match L.Choose(s.leaders[l].promises)
            case None => MAnyval(s.leaders[l].ballot) in t.net
            case Some(i) => MAccept(L.AcceptOf(s.leaders[l], i)) in t.net
  {
    StepIsReached(sys, h, plain, s, Decide(l, s.leaders[l].ballot));
    t := Apply(sys, s, Decide(l, s.leaders[l].ballot));
  }

  lemma HandStart(sys: System, h: Provisos, plain: bool, s: State, l: int) returns (t: State)
    requires Shaped(sys, s) && Reached(sys, h, plain, s) && IsProposer(l) && s.leaders[l].status != L.Ready
    ensures Shaped(sys, t) && Reached(sys, h, plain, t)
    ensures t.values == s.values && t.accs == s.accs && t.evicted == s.evicted && Grows(s, t)
    ensures t.leaders == s.leaders[l := if s.leaders[l].status == L.New then L.OpenedSlot(sys.n, sys.inst, l)
                                        else L.Restarted(sys.n, s.leaders[l])]
    ensures MPrepare(Prepare(sys.inst, t.leaders[l].ballot)) in t.net
  {
    var e := if s.leaders[l].status == L.New then Open(l) else Restart(l);
    StepIsReached(sys, h, plain, s, e);
    t := Apply(sys, s, e);
  }

  // ---------- a leader collecting a quorum of promises ----------

  /** The leader's record after the promises of acceptors lo..lo + k - 1. */
  function Collected(sys: System, slot: L.Slot, ps: seq<Promise>, lo: int, k: nat): L.Slot
    requires |ps| == sys.n
  {
    slot.(promiseCount := k, status := if k < Quorum(sys.n) then L.Pending else L.Ready,
          promises := seq(sys.n, a requires 0 <= a < sys.n => if lo <= a < lo + k then L.InfoOf(ps[a]) else L.NO_INFO))
  }

  lemma {:induction false} Collect(sys: System, h: Provisos, plain: bool, s: State, l: int, ps: seq<Promise>,
                                   lo: nat, k: nat) returns (t: State)
    requires Shaped(sys, s) && Reached(sys, h, plain, s) && IsProposer(l)
    requires |ps| == sys.n && k <= Quorum(sys.n) && lo + k <= sys.n
    requires s.leaders[l] == Collected(sys, s.leaders[l], ps, lo, 0)
    requires forall a :: lo <= a < lo + k ==>
      MPromise(a, ps[a]) in s.net && ps[a].iid == s.leaders[l].iid && ps[a].ballot == s.leaders[l].ballot
    ensures Shaped(sys, t) && Reached(sys, h, plain, t)
    ensures t == SetLeader(s, l, Collected(sys, s.leaders[l], ps, lo, k))
  {
    if k == 0 {
      t := s;
    } else {
      var t0 := Collect(sys, h, plain, s, l, ps, lo, k - 1);
      var a := lo + k - 1;
      StepIsReached(sys, h, plain, t0, TakePromise(l, a, ps[a]));
      t := Apply(sys, t0, TakePromise(l, a, ps[a]));
      assert t.leaders[l].promises == Collected(sys, s.leaders[l], ps, lo, k).promises;
      assert t.leaders == s.leaders[l := Collected(sys, s.leaders[l], ps, lo, k)];
    }
  }

  // ---------- the runs ----------

  function Sys(n: nat): System {
    System(n, 0)
  }

  /** Proposer p submits the one-byte value p. */
  function ValueOf(p: Byte): Value {
    [p]
  }

  function Voter(a: int, k: int): Byte {
    if a < k then 0 else 1
  }

  /** The record of an acceptor that took the fast accept of proposer p. */
  function FastRecord(p: Byte): A.Record {
    A.Record(0, p, FixedBallot(p), FixedBallot(p), Some(ValueOf(p)), false)
  }

  function FastLearn(a: int, p: Byte): Learn {
    Learn(a, 0, FixedBallot(p), p, ValueOf(p))
  }

  const B1: int := L.FirstBallot(0)
  const B2: int := L.NextBallot(B1)

  /** Leader 0 has run both phases, and the ANYVAL of its first ballot is out. */
  ghost predicate Released(n: nat, s: State) {
    && Shaped(Sys(n), s)
    && s.leaders[0].iid == 0 && s.leaders[0].ballot == B1 && s.leaders[0].status == L.Finished
    && MAnyval(B1) in s.net
  }

  /** The record of an acceptor that has promised a ballot and holds no value. */
  predicate EmptyHanded(r: A.Record, ballot: int) {
    r == A.Record(0, 0, ballot, -1, None, false)
  }

  lemma PrepareAll(n: nat, h: Provisos, plain: bool) returns (t: State)
    requires n >= 1
    ensures Reached(Sys(n), h, plain, t) && Shaped(Sys(n), t)
    ensures t.leaders[0] == L.OpenedSlot(n, 0, 0)
    ensures t.values == Init(Sys(n)).values && t.evicted == Init(Sys(n)).evicted
    ensures forall a :: 0 <= a < n ==> EmptyHanded(t.accs[a], B1) && MPromise(a, Promise(0, B1, -1, [])) in t.net
  {
    InitIsReached(Sys(n), h, plain);
    var s := HandStart(Sys(n), h, plain, Init(Sys(n)), 0);
    t := HandPrepare(Sys(n), h, plain, s, Prepare(0, B1), 0, n);
    forall a | 0 <= a < n ensures EmptyHanded(t.accs[a], B1) && MPromise(a, Promise(0, B1, -1, [])) in t.net {
      assert s.accs[a] == A.EMPTY;
    }
  }

  lemma Release(n: nat, h: Provisos, plain: bool) returns (t: State)
    requires n >= 1
    ensures Reached(Sys(n), h, plain, t) && Released(n, t)
    ensures t.values == Init(Sys(n)).values && t.evicted == Init(Sys(n)).evicted
    ensures forall a :: 0 <= a < n ==> EmptyHanded(t.accs[a], B1)
  {
    var s := PrepareAll(n, h, plain);
    var s1 := Collect(Sys(n), h, plain, s, 0, seq(n, _ => Promise(0, B1, -1, [])), 0, Quorum(n));
    assert L.Choose(s1.leaders[0].promises).None?;
    t := HandDecide(Sys(n), h, plain, s1, 0);
  }

  /** The first k acceptors hold value 0, the others value 1, all by fast votes. */
  ghost predicate Voted01(n: nat, s: State, k: int) {
    && Released(n, s)
    && MAccept(FastAccept(Sys(n), 0, ValueOf(0))) in s.net && MAccept(FastAccept(Sys(n), 1, ValueOf(1))) in s.net
    && (forall a :: 0 <= a < n ==>
          && s.accs[a] == FastRecord(Voter(a, k)) && MLearn(FastLearn(a, Voter(a, k))) in s.net
          && FastAccept(Sys(n), Voter(a, k), ValueOf(Voter(a, k))) in s.votes[a])
  }

  /** ANYVAL is enabled everywhere, and two values are submitted. */
  lemma OpenToAll(n: nat, h: Provisos, plain: bool) returns (t: State)
    requires 1 <= n
    ensures Reached(Sys(n), h, plain, t) && Released(n, t) && t.evicted == Init(Sys(n)).evicted
    ensures MAccept(FastAccept(Sys(n), 0, ValueOf(0))) in t.net && MAccept(FastAccept(Sys(n), 1, ValueOf(1))) in t.net
    ensures forall a :: 0 <= a < n ==> t.accs[a] == A.Record(0, -1, B1, -1, None, true)
  {
    var s := Release(n, h, plain);
    s := HandAnyval(Sys(n), h, plain, s, B1, 0, n);
    s := HandSubmit(Sys(n), h, plain, s, 0, ValueOf(0));
    t := HandSubmit(Sys(n), h, plain, s, 1, ValueOf(1));
  }

  lemma SplitVote(n: nat, h: Provisos, plain: bool, k: nat) returns (t: State)
    requires 1 <= n && k <= n
    ensures Reached(Sys(n), h, plain, t) && Voted01(n, t, k) && t.evicted == Init(Sys(n)).evicted
  {
    var sys := Sys(n);
    var s := OpenToAll(n, h, plain);
    s := HandAccept(sys, h, plain, s, FastAccept(sys, 0, ValueOf(0)), 0, k);
    t := HandAccept(sys, h, plain, s, FastAccept(sys, 1, ValueOf(1)), k, n);
  }

  /** What acceptor a answers to the leader's second ballot after the first k acceptors came to hold 0. */
  function Report(a: int, k: int): Promise {
    Promise(0, B2, FixedBallot(Voter(a, k)), ValueOf(Voter(a, k)))
  }

  /** The leader starts over, and every acceptor promises its second ballot, keeping its value. */
  lemma StartOver(n: nat, h: Provisos, plain: bool, s: State, k: nat) returns (t: State)
    requires 1 <= n && k <= n && Reached(Sys(n), h, plain, s) && Released(n, s)
    requires forall a :: 0 <= a < n ==> s.accs[a] == FastRecord(Voter(a, k))
    ensures Reached(Sys(n), h, plain, t) && Shaped(Sys(n), t) && Grows(s, t)
    ensures t.leaders[0] == L.Slot(0, B2, L.Pending, 0, seq(n, _ => L.NO_INFO))
    ensures forall a :: 0 <= a < n ==>
      && t.accs[a] == FastRecord(Voter(a, k)).(ballot := B2)
      && MPromise(a, Report(a, k)) in t.net
  {
    var s1 := HandStart(Sys(n), h, plain, s, 0);
    t := HandPrepare(Sys(n), h, plain, s1, Prepare(0, B2), 0, n);
  }

  // ---------- a learner that hears a quorum ----------

  /** Learns of one ballot from different acceptors, all for instance 0. */
  ghost predicate OneBallot(n: nat, ms: seq<Learn>, b: int) {
    && (forall i :: 0 <= i < |ms| ==> ms[i].iid == 0 && ms[i].ballot == b && 0 <= ms[i].acceptorId < n)
    && (forall i, j :: 0 <= i < j < |ms| ==> ms[i].acceptorId != ms[j].acceptorId)
  }

  /** The learns stored are those of the acceptors heard from. */
  ghost predicate StoredFrom(learns: seq<Option<Learn>>, ms: seq<Learn>, b: int) {
    && |M.Voters(learns, b)| == |ms|
    && forall a :: 0 <= a < |learns| ==> (learns[a].Some? <==> exists i :: 0 <= i < |ms| && ms[i].acceptorId == a)
  }

  lemma StoringOneMore(learns: seq<Option<Learn>>, ms: seq<Learn>, m: Learn, b: int)
    requires StoredFrom(learns, ms, b) && 0 <= m.acceptorId < |learns| && m.ballot == b
    requires forall i :: 0 <= i < |ms| ==> ms[i].acceptorId != m.acceptorId
    ensures StoredFrom(learns[m.acceptorId := Some(m)], ms + [m], b)
    ensures learns[m.acceptorId].None?
  {
    var learns' := learns[m.acceptorId := Some(m)];
    var ms' := ms + [m];
    assert M.Voters(learns', b) == M.Voters(learns, b) + {m.acceptorId};
    forall a | 0 <= a < |learns|
      ensures learns'[a].Some? <==> exists i :: 0 <= i < |ms'| && ms'[i].acceptorId == a
    {
      if a == m.acceptorId {
        assert ms'[|ms|].acceptorId == a;
      } else if learns[a].Some? {
        var i :| 0 <= i < |ms| && ms[i].acceptorId == a;
        assert ms'[i].acceptorId == a;
      }
    }
  }

  /** A learner that has heard ms, too few for a quorum. */
  ghost predicate Waiting(n: nat, w: nat, s: M.State, ms: seq<Learn>, b: int) {
    && s.delivered == -1 && s.log == [] && s.n == n && s.window == w
    && var r := M.Get(s, 0); r.closed.None? && |r.learns| == n && StoredFrom(r.learns, ms, b)
  }

  lemma HearingOneMore(n: nat, w: nat, s: M.State, ms: seq<Learn>, m: Learn, b: int)
    requires w >= 2 && Waiting(n, w, s, ms, b) && OneBallot(n, ms + [m], b) && |ms| + 1 < Quorum(n)
    ensures Waiting(n, w, M.HandleLearn(s, m), ms + [m], b)
  {
    var all := ms + [m];
    assert all[|ms|] == m && forall i :: 0 <= i < |ms| ==> all[i] == ms[i];
    StoringOneMore(M.Get(s, 0).learns, ms, m, b);
  }

  lemma {:induction false} BelowQuorum(n: nat, w: nat, ms: seq<Learn>, b: int)
    requires w >= 2 && OneBallot(n, ms, b) && |ms| < Quorum(n)
    ensures Waiting(n, w, M.Run(n, w, ms), ms, b)
  {
    if ms == [] {
      assert M.Voters(M.Fresh(n).learns, b) == {};
    } else {
      var before := ms[..|ms| - 1];
      BelowQuorum(n, w, before, b);
      assert before + [ms[|ms| - 1]] == ms;
      HearingOneMore(n, w, M.Run(n, w, before), before, ms[|ms| - 1], b);
    }
  }

  /** The message that completes a quorum is the one whose value is delivered. */
  lemma QuorumDelivers(n: nat, w: nat, ms: seq<Learn>, b: int)
    requires w >= 2 && OneBallot(n, ms, b) && |ms| == Quorum(n)
    ensures |M.Run(n, w, ms).log| >= 1 && M.Run(n, w, ms).log[0].value == ms[|ms| - 1].value
  {
    var before := ms[..|ms| - 1];
    var m := ms[|ms| - 1];
    BelowQuorum(n, w, before, b);
    var s := M.Run(n, w, before);
    var r := M.Get(s, 0);
    StoringOneMore(r.learns, before, m, b);
    M.RunKeepsInv(n, w, ms);
    M.StepOnRecord(s, m, 0);
    assert M.ClosedAt(M.Run(n, w, ms), 0);
  }

  // ---------- the three ways to disagree ----------

  /** Two learners with rings of w, fed from s with learns of instance 0, deliver different values for it. */
  ghost predicate SplitBy(n: nat, s: State, w: nat, ms: seq<Learn>, ms': seq<Learn>) {
    && (forall m :: m in ms || m in ms' ==> m.iid == 0 && MLearn(m) in s.net)
    && M.Run(n, w, ms).log != [] && M.Run(n, w, ms').log != []
    && M.Run(n, w, ms).log[0].value != M.Run(n, w, ms').log[0].value
  }

  /** A run for instance 0 that keeps the provisos, a plain one if that is asked for, ends in such a state. */
  ghost predicate Splits(n: nat, h: Provisos, plain: bool, w: nat) {
    exists s, ms, ms' :: Reached(Sys(n), h, plain, s) && SplitBy(n, s, w, ms, ms')
  }

  lemma SplitRunsDisagree(n: nat, h: Provisos, plain: bool, w: nat)
    requires Splits(n, h, plain, w)
    ensures !AlwaysAgrees(n, h, w)
  {
    var s, ms, ms' :| Reached(Sys(n), h, plain, s) && SplitBy(n, s, w, ms, ms');
    var es :| Legal(Sys(n), h, es) && Exec(Sys(n), es) == s;
    assert !Agree(System(n, 0), Exec(System(n, 0), es), w, ms, w, ms');
  }

  /** The learns of a quorum in one ballot, sent in s. */
  ghost predicate Quorate(n: nat, s: State, ms: seq<Learn>, b: int) {
    DrawnFrom(Sys(n), s, ms) && OneBallot(n, ms, b) && |ms| == Quorum(n)
  }

  /** The learns that f gives for the first acceptors, up to a quorum, and the same from the last of them down. */
  function Ahead(n: nat, f: int -> Learn): seq<Learn> {
    seq(Quorum(n), i => f(i))
  }

  function Back(n: nat, f: int -> Learn): seq<Learn> {
    seq(Quorum(n), i => f(Quorum(n) - 1 - i))
  }

  lemma FirstAreQuorate(n: nat, s: State, f: int -> Learn, b: int)
    requires n >= 1
    requires forall a :: 0 <= a < n ==>
      MLearn(f(a)) in s.net && f(a).acceptorId == a && f(a).iid == 0 && f(a).ballot == b
    ensures Quorate(n, s, Ahead(n, f), b) && Ahead(n, f)[Quorum(n) - 1] == f(Quorum(n) - 1)
    ensures Quorate(n, s, Back(n, f), b) && Back(n, f)[Quorum(n) - 1] == f(0)
  {
  }

  /** Two learners that hear one quorum each, ending in different values, are split. */
  lemma Broken(n: nat, h: Provisos, plain: bool, w: nat, s: State, ms: seq<Learn>, ms': seq<Learn>, b: int, b': int)
    requires w >= 2 && Reached(Sys(n), h, plain, s) && Quorate(n, s, ms, b) && Quorate(n, s, ms', b')
    requires ms[|ms| - 1].value != ms'[|ms'| - 1].value
    ensures Splits(n, h, plain, w)
  {
    QuorumDelivers(n, w, ms, b);
    QuorumDelivers(n, w, ms', b');
    forall m | m in ms || m in ms' ensures m.iid == 0 && MLearn(m) in s.net {}
    assert SplitBy(n, s, w, ms, ms');
  }

  lemma EraseAndVoteAgain(n: nat, h: Provisos, plain: bool) returns (t: State)
    requires n >= 1 && !h.anyvalSpares
    ensures Reached(Sys(n), h, plain, t) && Released(n, t)
    ensures forall a :: 0 <= a < n ==>
      && MLearn(FastLearn(a, 0)) in t.net && MLearn(FastLearn(a, 1)) in t.net
      && t.accs[a] == FastRecord(1) && FastAccept(Sys(n), 0, ValueOf(0)) in t.votes[a]
  {
    var s := SplitVote(n, h, plain, n);
    forall a | 0 <= a < n
      ensures MLearn(FastLearn(a, 0)) in s.net && FastAccept(Sys(n), 0, ValueOf(0)) in s.votes[a]
    {
      assert MLearn(FastLearn(a, Voter(a, n))) in s.net;
    }
    var s1 := HandAnyval(Sys(n), h, plain, s, B1, 0, n);
    t := HandAccept(Sys(n), h, plain, s1, FastAccept(Sys(n), 1, ValueOf(1)), 0, n);
    forall a | 0 <= a < n ensures MLearn(FastLearn(a, 1)) in t.net {
      assert A.LearnOf(a, t.accs[a]) == FastLearn(a, 1);
    }
  }

  /** All acceptors have voted for both values. */
  lemma VotedTwice(n: nat, h: Provisos, plain: bool, w: nat, s: State)
    requires w >= 2 && n >= 1 && Reached(Sys(n), h, plain, s)
    requires forall a :: 0 <= a < n ==> MLearn(FastLearn(a, 0)) in s.net && MLearn(FastLearn(a, 1)) in s.net
    ensures Splits(n, h, plain, w)
  {
    var zero, one := a => FastLearn(a, 0), a => FastLearn(a, 1);
    FirstAreQuorate(n, s, zero, FixedBallot(0));
    FirstAreQuorate(n, s, one, FixedBallot(1));
    Broken(n, h, plain, w, s, Ahead(n, zero), Ahead(n, one), FixedBallot(0), FixedBallot(1));
  }

  /** A second ANYVAL, even a duplicate of the first, erases the votes of the fast path. */
  lemma AnyvalOverValueSplits(n: nat, h: Provisos, w: nat)
    requires w >= 2 && n >= 1 && !h.anyvalSpares
    ensures Splits(n, h, true, w)
  {
    var t := EraseAndVoteAgain(n, h, true);
    VotedTwice(n, h, true, w, t);
  }

  /** What acceptor a answers an lsync with after the votes were split at 1 and a prepare of B2 was promised. */
  function StaleLearn(a: int): Learn {
    Learn(a, 0, B2, Voter(a, 1), ValueOf(Voter(a, 1)))
  }

  lemma StaleAnswers(n: nat, h: Provisos, plain: bool) returns (t: State)
    requires n >= 2 && !h.lsyncCurrent
    ensures Reached(Sys(n), h, plain, t) && forall a :: 0 <= a < n ==> MLearn(StaleLearn(a)) in t.net
  {
    var s := SplitVote(n, h, plain, 1);
    s := StartOver(n, h, plain, s, 1);
    t := HandLsync(Sys(n), h, plain, s);
    forall a | 0 <= a < n ensures MLearn(StaleLearn(a)) in t.net {
      assert A.LearnOf(a, s.accs[a]) == StaleLearn(a);
    }
  }

  /** Learns answering an lsync carry the promised ballot, so that different values look like votes of one ballot. */
  lemma StaleLsyncSplits(n: nat, h: Provisos, w: nat)
    requires w >= 2 && n >= 2 && !h.lsyncCurrent
    ensures Splits(n, h, true, w)
  {
    var t := StaleAnswers(n, h, true);
    FirstAreQuorate(n, t, StaleLearn, B2);
    Broken(n, h, true, w, t, Ahead(n, StaleLearn), Back(n, StaleLearn), B2, B2);
  }

  /** Whoever hears of the last acceptor's fast vote for value 1 picks it over value 0. */
  lemma PicksOne(promises: seq<L.Info>)
    requires |promises| > 0
    requires forall a :: 0 <= a < |promises| && L.Reports(promises[a]) ==>
      promises[a] in {L.Info(0, FixedBallot(0), ValueOf(0)), L.Info(0, FixedBallot(1), ValueOf(1))}
    requires promises[|promises| - 1] == L.Info(0, FixedBallot(1), ValueOf(1))
    ensures L.Choose(promises) == Some(L.Info(0, FixedBallot(1), ValueOf(1)))
  {
    assert L.Reports(promises[|promises| - 1]);
  }

  /** The leader collects its quorum from the last acceptor down. */
  lemma CollectReports(n: nat, h: Provisos, plain: bool, s: State, k: nat) returns (t: State)
    requires n >= 1 && k < n && Reached(Sys(n), h, plain, s) && Shaped(Sys(n), s)
    requires s.leaders[0] == L.Slot(0, B2, L.Pending, 0, seq(n, _ => L.NO_INFO))
    requires forall a :: 0 <= a < n ==> MPromise(a, Report(a, k)) in s.net
    ensures Reached(Sys(n), h, plain, t) && Shaped(Sys(n), t) && t == SetLeader(s, 0, t.leaders[0])
    ensures var slot := t.leaders[0];
            && slot.status == L.Ready && slot.iid == 0 && slot.ballot == B2
            && L.Choose(slot.promises) == Some(L.Info(0, FixedBallot(1), ValueOf(1)))
  {
    var q := Quorum(n);
    t := Collect(Sys(n), h, plain, s, 0, seq(n, a => Report(a, k)), n - q, q);
    PicksOne(t.leaders[0].promises);
  }

  /** A leader whose quorum includes the last acceptor recovers value 1 after the first k acceptors came to hold 0. */
  lemma RecoverOne(n: nat, h: Provisos, plain: bool, s: State, k: nat) returns (t: State, m: Accept)
    requires n >= 1 && k < n && Reached(Sys(n), h, plain, s) && Released(n, s)
    requires forall a :: 0 <= a < n ==> s.accs[a] == FastRecord(Voter(a, k))
    ensures Reached(Sys(n), h, plain, t) && Shaped(Sys(n), t) && Grows(s, t)
    ensures MAccept(m) in t.net && m.iid == 0 && m.ballot == B2 && m.value == ValueOf(1)
    ensures forall a :: 0 <= a < n ==> t.accs[a] == FastRecord(Voter(a, k)).(ballot := B2)
  {
    var s1 := StartOver(n, h, plain, s, k);
    var s2 := CollectReports(n, h, plain, s1, k);
    var slot := s2.leaders[0];
    t := HandDecide(Sys(n), h, plain, s2, 0);
    m := L.AcceptOf(slot, L.Choose(slot.promises).value);
  }

  /** A quorum has voted for value 0, and all have voted in B2 for value 1. */
  lemma ChosenAndRecovered(n: nat, h: Provisos, w: nat, s: State, late: int -> Learn)
    requires w >= 2 && n >= 1 && Reached(Sys(n), h, true, s)
    requires forall a :: 0 <= a < Quorum(n) ==> MLearn(FastLearn(a, 0)) in s.net
    requires forall a :: 0 <= a < n ==>
      MLearn(late(a)) in s.net && late(a).acceptorId == a && late(a).iid == 0 && late(a).ballot == B2
      && late(a).value == ValueOf(1)
    ensures Splits(n, h, true, w)
  {
    FirstAreQuorate(n, s, late, B2);
    Broken(n, h, true, w, s, seq(Quorum(n), a => FastLearn(a, 0)), Ahead(n, late), FixedBallot(0), B2);
  }

  /** With four acceptors or more, a recovering leader may pick a fast value that lost against a chosen one. */
  lemma FourAcceptorsSplit(n: nat, h: Provisos, w: nat)
    requires w >= 2 && n >= 4
    ensures Splits(n, h, true, w)
  {
    var q := Quorum(n);
    var s0 := SplitVote(n, h, true, q);
    forall a | 0 <= a < q ensures MLearn(FastLearn(a, 0)) in s0.net {
      assert MLearn(FastLearn(a, Voter(a, q))) in s0.net;
    }
    var s, m := RecoverOne(n, h, true, s0, q);
    var t := HandAccept(Sys(n), h, true, s, m, 0, n);
    var late := a => Learn(a, 0, B2, m.proposerId, ValueOf(1));
    forall a | 0 <= a < n ensures MLearn(late(a)) in t.net {
      assert A.LearnOf(a, t.accs[a]) == late(a);
    }
    ChosenAndRecovered(n, h, w, t, late);
  }

  /** What acceptor a sends from its database after it promised B1 and was evicted without having voted. */
  function EmptyLearn(a: int): Learn {
    Learn(a, 0, B1, 0, [])
  }

  /** All acceptors promise the first ballot, are evicted, and answer from their databases. */
  lemma AnswerEmpty(n: nat, h: Provisos) returns (t: State)
    requires n >= 1 && !h.lsyncHeld
    ensures Reached(Sys(n), h, false, t) && Shaped(Sys(n), t) && t.leaders[0] == L.OpenedSlot(n, 0, 0)
    ensures t.values == Init(Sys(n)).values
    ensures forall a :: 0 <= a < n ==>
      && t.evicted[a] && t.accs[a] == A.Record(0, 0, B1, -1, None, false)
      && MPromise(a, Promise(0, B1, -1, [])) in t.net && MLearn(EmptyLearn(a)) in t.net
  {
    var s := PrepareAll(n, h, false);
    var s1 := Broadcast(Sys(n), h, false, s, Evict(0), 0, n);
    t := HandLsync(Sys(n), h, false, s1);
    forall a | 0 <= a < n ensures MLearn(EmptyLearn(a)) in t.net {
      assert A.LearnOf(a, s1.accs[a]) == EmptyLearn(a);
    }
  }

  /** After that a bit read as set lets a fast vote in. */
  lemma AnswerEmptyAndVote(n: nat, h: Provisos) returns (t: State)
    requires n >= 1 && !h.lsyncHeld
    ensures Reached(Sys(n), h, false, t)
    ensures forall a :: 0 <= a < n ==> MLearn(EmptyLearn(a)) in t.net && MLearn(FastLearn(a, 1)) in t.net
  {
    var s := AnswerEmpty(n, h);
    s := HandSubmit(Sys(n), h, false, s, 1, ValueOf(1));
    var s1 := Broadcast(Sys(n), h, false, s, Fetch(0, true, 0), 0, n);
    t := HandAccept(Sys(n), h, false, s1, FastAccept(Sys(n), 1, ValueOf(1)), 0, n);
    forall a | 0 <= a < n ensures MLearn(FastLearn(a, 1)) in t.net {
      assert s1.accs[a].anyEnabled;
      assert A.LearnOf(a, t.accs[a]) == FastLearn(a, 1);
    }
  }

  /** Answering from the database for a record without a value, two learners can deliver different values. */
  lemma EmptyLsyncSplits(n: nat, h: Provisos, w: nat)
    requires w >= 2 && n >= 1 && !h.lsyncHeld
    ensures Splits(n, h, false, w)
  {
    var t := AnswerEmptyAndVote(n, h);
    var one := a => FastLearn(a, 1);
    FirstAreQuorate(n, t, EmptyLearn, B1);
    FirstAreQuorate(n, t, one, FixedBallot(1));
    Broken(n, h, false, w, t, Ahead(n, EmptyLearn), Ahead(n, one), B1, FixedBallot(1));
  }

  /** and one deliver a value nobody submitted. */
  lemma EmptyLsyncInvalid(n: nat, h: Provisos, w: nat)
    requires w >= 2 && n >= 1 && !h.lsyncHeld
    ensures !AlwaysValid(n, h, w)
  {
    var t := AnswerEmpty(n, h);
    var ms := seq(Quorum(n), a => EmptyLearn(a));
    QuorumDelivers(n, w, ms, B1);
    assert forall p :: 0 <= p < MAX_PROPOSERS ==> t.values[p] == None;
    var es :| Legal(Sys(n), h, es) && Exec(Sys(n), es) == t;
    assert !Valid(System(n, 0), Exec(System(n, 0), es), w, ms);
  }

  /** Reading any_enabled as set for a record fetched with its value lets a second fast vote in. */
  lemma FetchOverValueSplits(n: nat, h: Provisos, w: nat)
    requires w >= 2 && n >= 1 && !h.fetchSpares
    ensures Splits(n, h, false, w)
  {
    var t := FetchAndVoteAgain(n, h);
    VotedTwice(n, h, false, w, t);
  }

  /** All acceptors vote for value 0, are evicted, and read any_enabled as set. */
  lemma FetchAfterVote(n: nat, h: Provisos) returns (t: State)
    requires n >= 1 && !h.fetchSpares
    ensures Reached(Sys(n), h, false, t) && Released(n, t) && MAccept(FastAccept(Sys(n), 1, ValueOf(1))) in t.net
    ensures forall a :: 0 <= a < n ==>
      && MLearn(FastLearn(a, 0)) in t.net && FastAccept(Sys(n), 0, ValueOf(0)) in t.votes[a]
      && t.accs[a] == FastRecord(0).(anyEnabled := true, proposerId := 0)
  {
    var s := SplitVote(n, h, false, n);
    forall a | 0 <= a < n
      ensures MLearn(FastLearn(a, 0)) in s.net && FastAccept(Sys(n), 0, ValueOf(0)) in s.votes[a]
      ensures s.accs[a] == FastRecord(0)
    {
      assert MLearn(FastLearn(a, Voter(a, n))) in s.net;
    }
    var s1 := Broadcast(Sys(n), h, false, s, Evict(0), 0, n);
    t := Broadcast(Sys(n), h, false, s1, Fetch(0, true, 0), 0, n);
  }

  lemma FetchAndVoteAgain(n: nat, h: Provisos) returns (t: State)
    requires n >= 1 && !h.fetchSpares
    ensures Reached(Sys(n), h, false, t) && Released(n, t)
    ensures forall a :: 0 <= a < n ==>
      && MLearn(FastLearn(a, 0)) in t.net && MLearn(FastLearn(a, 1)) in t.net
      && t.accs[a] == FastRecord(1) && FastAccept(Sys(n), 0, ValueOf(0)) in t.votes[a]
  {
    var s := FetchAfterVote(n, h);
    t := HandAccept(Sys(n), h, false, s, FastAccept(Sys(n), 1, ValueOf(1)), 0, n);
    forall a | 0 <= a < n ensures MLearn(FastLearn(a, 1)) in t.net {
      assert A.LearnOf(a, t.accs[a]) == FastLearn(a, 1);
    }
  }

  // ---------- the exact conditions ----------

  /** Agreement, for any number of acceptors and learners with any ring that can deliver at all. */
  lemma AgreementIff(n: nat, h: Provisos, w: nat)
    requires w >= 2 && n >= 1
    ensures AlwaysAgrees(n, h, w) <==>
      h.anyvalSpares && h.fetchSpares && h.lsyncHeld && (n == 1 || (h.lsyncCurrent && n <= 3))
  {
    if !h.anyvalSpares {
      AnyvalOverValueSplits(n, h, w);
      SplitRunsDisagree(n, h, true, w);
    } else if !h.fetchSpares {
      FetchOverValueSplits(n, h, w);
      SplitRunsDisagree(n, h, false, w);
    } else if !h.lsyncHeld {
      EmptyLsyncSplits(n, h, w);
      SplitRunsDisagree(n, h, false, w);
    } else if n > 1 && !h.lsyncCurrent {
      StaleLsyncSplits(n, h, w);
      SplitRunsDisagree(n, h, true, w);
    } else if n > 3 {
      FourAcceptorsSplit(n, h, w);
      SplitRunsDisagree(n, h, true, w);
    } else {
      forall inst: nat, es, ms, ms' | Legal(System(n, inst), h, es)
        ensures Agree(System(n, inst), Exec(System(n, inst), es), w, ms, w, ms')
      {
        if n == 1 {
          OneAcceptorAgreement(System(n, inst), h, es, w, ms, w, ms');
        } else {
          assert h == ALL;
          EndToEndAgreement(System(n, inst), es, w, ms, w, ms');
        }
      }
    }
  }

  /** Validity, likewise: the other provisos have nothing to do with it. */
  lemma ValidityIff(n: nat, h: Provisos, w: nat)
    requires w >= 2 && n >= 1
    ensures AlwaysValid(n, h, w) <==> h.lsyncHeld
  {
    if !h.lsyncHeld {
      EmptyLsyncInvalid(n, h, w);
    } else {
      forall inst: nat, es, ms | Legal(System(n, inst), h, es)
        ensures Valid(System(n, inst), Exec(System(n, inst), es), w, ms)
      {
        var sys := System(n, inst);
        if DrawnFrom(sys, Exec(sys, es), ms) && inst < |M.Run(n, w, ms).log| {
          Validity(sys, h, es, w, ms);
        }
      }
    }
  }
}
