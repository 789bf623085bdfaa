/**
 * The other way round: a plain run of the protocol for instance 0 is what some run of the whole system does for
 * that instance. So what fails in such runs fails in the system, with its rings, packets and databases.
 */
module Lifting {
  import opened Common
  import A = AcceptorRecord
  import C = AcceptorCache
  import L = LeaderModel
  import W = LeaderWindow
  import R = LeaderRequests
  import P = ProposerModel
  import D = Deployment
  import Q = Protocol
  import Agreement
  import J = Projection

  /** The slot of instance 0 has the record r, and the database what is in it. */
  predicate Sits(m: C.Memory, r: A.Record) {
    && |m.slots| > 0 && C.SlotOf(m, 0) == r && r.iid <= 0
    && if r.iid == 0 then 0 in m.disk && m.disk[0] == C.Flatten(r) && (r.value.None? <==> r.valueBallot == -1)
       else 0 !in m.disk
  }

  lemma PrepareSits(m: C.Memory, r: A.Record, p: Prepare)
    requires Sits(m, r) && p.iid == 0
    ensures Sits(C.AfterPrepare(m, p), A.Prepared(r, p))
    ensures C.MapPromise(m.disk, p) == if A.AdmitsPrepare(r, p) then [A.PromiseOf(A.Prepared(r, p))] else []
  {
  }

  lemma AcceptSits(m: C.Memory, r: A.Record, id: int, a: Accept, any: bool)
    requires Sits(m, r) && a.iid == 0 && a.ballot >= 0
    ensures Sits(C.AfterAccept(m, any, a), A.Accepted(r, a))
    ensures C.AcceptAnswer(m, any, id, a) == if A.AdmitsAccept(r, a) then [A.LearnOf(id, A.Accepted(r, a))] else []
  {
  }

  lemma AnyvalSits(m: C.Memory, r: A.Record, ballot: int, any: bool)
    requires Sits(m, r)
    ensures Sits(C.AfterAnyval(m, any, 0, ballot), A.Opened(r, 0, ballot))
  {
  }

  // ---------- the correspondence ----------

  /** Whatever is on the protocol's network has been sent. */
  predicate Offered(u: D.Setup, s: D.State, m: Q.Msg)
    requires D.Shaped(u, s)
  {
    match m
    case MPrepare(p) => p.iid == 0 && D.SentPrepare(s, p)
    case MPromise(a, p) => 0 <= a < u.n && p in s.acceptors[a].promises
    case MAccept(a) => a.iid == 0 && a.ballot >= 0 && D.SentAccept(s, a)
    case MAnyval(b) => D.SentAnyval(s, 0, b)
    case MLearn(l) => 0 <= l.acceptorId < u.n && l in s.acceptors[l.acceptorId].learns
  }

  predicate HasPrepare(sent: seq<L.Packet>, p: Prepare) {
    exists k :: 0 <= k < |sent| && sent[k].Prepares? && p in sent[k].prepares
  }

  /** The decision on a ready record has been sent. */
  predicate HasDecision(sent: seq<L.Packet>, slot: L.Slot) {
    match L.Choose(slot.promises)
    case None => exists k :: 0 <= k < |sent| && sent[k].Anyvals? && sent[k].ballot == slot.ballot && 0 in sent[k].iids
    case Some(i) => L.AcceptPacket(L.AcceptOf(slot, i)) in sent
  }

  /**
   * A leader before any delivery. It opens instance 0 at once and sends its decision as soon as the record is
   * ready, so it may be ahead of the protocol's record.
   */
  predicate LeaderLifts(c: L.Config, s: L.State, slot: L.Slot)
    requires L.Shaped(c, s)
  {
    && s.currentIid == s.checkedIid == 0
    && match slot.status
       case New => s.slots[0] == L.OpenedSlot(c.n, 0, c.id) && HasPrepare(s.sent, Prepare(0, L.FirstBallot(c.id)))
       case Ready =>
         slot.iid == 0 && slot.ballot >= 0 && s.slots[0] == slot.(status := L.Finished) && HasDecision(s.sent, slot)
       case _ => slot.iid == 0 && slot.ballot >= 0 && s.slots[0] == slot
  }

  ghost predicate Lifts(u: D.Setup, s: D.State, q: Q.State)
    requires D.Shaped(u, s)
  {
    && Q.Shaped(Q.System(u.n, 0), q)
    && (forall a :: 0 <= a < u.n ==> !q.evicted[a] && Sits(s.acceptors[a].memory, q.accs[a]))
    && (forall l :: 0 <= l < MAX_PROPOSERS ==> LeaderLifts(D.LeaderConfig(u, l), s.leaders[l], q.leaders[l]))
    && (forall p :: 0 <= p < MAX_PROPOSERS && q.values[p] == None ==> s.proposers[p] == P.Init(p))
    && (forall m :: m in q.net ==> Offered(u, s, m))
  }

  /** Nothing that was sent is taken back. */
  predicate Grows(u: D.Setup, s: D.State, t: D.State)
    requires D.Shaped(u, s) && D.Shaped(u, t)
  {
    && (forall a :: 0 <= a < u.n ==>
          s.acceptors[a].promises <= t.acceptors[a].promises && s.acceptors[a].learns <= t.acceptors[a].learns)
    && (forall l :: 0 <= l < MAX_PROPOSERS ==> s.leaders[l].sent <= t.leaders[l].sent)
    && (forall p :: 0 <= p < MAX_PROPOSERS ==> s.proposers[p].sent <= t.proposers[p].sent)
  }

  lemma OfferedStays(u: D.Setup, s: D.State, t: D.State, m: Q.Msg)
    requires D.Shaped(u, s) && D.Shaped(u, t) && Grows(u, s, t) && Offered(u, s, m)
    ensures Offered(u, t, m)
  {
    match m
    case MPrepare(p) =>
      var l, k :| 0 <= l < |s.leaders| && 0 <= k < |s.leaders[l].sent| && s.leaders[l].sent[k].Prepares?
                  && p in s.leaders[l].sent[k].prepares;
      assert t.leaders[l].sent[k] == s.leaders[l].sent[k];
    case MAnyval(b) =>
      var l, k :| 0 <= l < |s.leaders| && 0 <= k < |s.leaders[l].sent| && s.leaders[l].sent[k].Anyvals?
                  && s.leaders[l].sent[k].ballot == b && 0 in s.leaders[l].sent[k].iids;
      assert t.leaders[l].sent[k] == s.leaders[l].sent[k];
    case MAccept(a) =>
      if l :| 0 <= l < |s.leaders| && L.AcceptPacket(a) in s.leaders[l].sent {
        var k :| 0 <= k < |s.leaders[l].sent| && s.leaders[l].sent[k] == L.AcceptPacket(a);
        assert t.leaders[l].sent[k] == L.AcceptPacket(a);
      } else {
        var p :| 0 <= p < |s.proposers| && a in s.proposers[p].sent;
        var k :| 0 <= k < |s.proposers[p].sent| && s.proposers[p].sent[k] == a;
        assert t.proposers[p].sent[k] == a;
      }
    case _ =>
  }

  // ---------- the start ----------

  /** Opening the instances above 0 leaves slot 0 alone while they fit the ring. */
  lemma {:induction false} OpenFromKeepsFirst(c: L.Config, s: L.State, i: int, to: int)
    requires L.Shaped(c, s) && 1 <= i && to < c.size
    ensures L.OpenFrom(c, s, i, to).slots[0] == s.slots[0]
    decreases L.Remaining(i, to)
  {
    if i > to {
    } else {
      var k := i % c.size;
      assert k != 0;
      if s.slots[k].iid < i || s.slots[k].status == L.New {
        OpenFromKeepsFirst(c, L.AddPrepare(L.Opening(c, s, i), Prepare(i, L.FirstBallot(c.id))), i + 1, to);
      } else {
        OpenFromKeepsFirst(c, s, i + 1, to);
      }
    }
  }

  lemma LeaderStarts(c: L.Config, slot: L.Slot)
    requires c.window < c.size && c.id >= 0 && slot.status == L.New
    ensures LeaderLifts(c, L.Init(c), slot)
  {
    var s0 := L.Blank(c);
    var s1 := L.AddPrepare(L.Opening(c, s0, 0), Prepare(0, L.FirstBallot(c.id)));
    OpenFromKeepsFirst(c, s1, 1, c.window);
    W.OpenFromFrame(c, s0, 0, c.window);
    assert L.Init(c).slots[0] == L.OpenedSlot(c.n, 0, c.id);
    R.PendingMeansAsked(c, []);
    assert R.Requested(L.Init(c).sent, [], R.Request(L.Init(c).slots[0]));
  }

  lemma SystemLifts(u: D.Setup)
    requires u.Works() && u.window < u.size
    ensures Lifts(u, D.Init(u), Q.Init(Q.System(u.n, 0)))
  {
    var q := Q.Init(Q.System(u.n, 0));
    forall l | 0 <= l < MAX_PROPOSERS
      ensures LeaderLifts(D.LeaderConfig(u, l), D.Init(u).leaders[l], q.leaders[l])
    {
      LeaderStarts(D.LeaderConfig(u, l), q.leaders[l]);
    }
  }

  // ---------- runs of the system ----------

  /** Nothing is delivered. */
  predicate NoDelivery(es: seq<D.Event>) {
    forall e :: e in es && e.AtLeader? ==> !e.turn.Delivered?
  }

  ghost predicate Reached(u: D.Setup, h: Q.Provisos, s: D.State)
    requires u.Works()
  {
    exists es :: J.Legal(u, h, es) && NoDelivery(es) && D.Exec(u, es) == s
  }

  lemma StepIsReached(u: D.Setup, h: Q.Provisos, s: D.State, e: D.Event)
    requires D.Shaped(u, s) && Reached(u, h, s) && J.Permitted(u, h, s, e)
    requires e.AtLeader? ==> !e.turn.Delivered?
    ensures Reached(u, h, D.Apply(u, s, e))
  {
    var es :| J.Legal(u, h, es) && NoDelivery(es) && D.Exec(u, es) == s;
    assert (es + [e])[..|es|] == es;
    assert J.Legal(u, h, es + [e]) && NoDelivery(es + [e]) && D.Exec(u, es + [e]) == D.Apply(u, s, e);
  }

  // ---------- leaders ----------

  /** The second timer restarts the record of instance 0, as long as nothing has been delivered. */
  lemma RestartLifts(c: L.Config, s: L.State, slot: L.Slot)
    requires L.Shaped(c, s) && LeaderLifts(c, s, slot) && slot.status != L.New && slot.status != L.Ready
    ensures L.CheckHolds(c, s)
    ensures var t, slot' := L.Phase2Check(c, s), L.Restarted(c.n, slot);
            && LeaderLifts(c, t, slot') && s.sent <= t.sent && HasPrepare(t.sent, Prepare(0, slot'.ballot))
  {
    var t, slot' := L.Phase2Check(c, s), L.Restarted(c.n, slot);
    var p := Prepare(slot'.iid, slot'.ballot);
    assert t.sent[|s.sent|] == L.Prepares([p]) && p in [p];
  }

  /** A promise that does not complete the quorum. */
  lemma PromiseLifts(c: L.Config, s: L.State, slot: L.Slot, a: int, p: Promise)
    requires L.Shaped(c, s) && LeaderLifts(c, s, slot) && 0 <= a < c.n && |slot.promises| == c.n
    requires L.Wanted(slot, a, p)
    ensures var t, slot' := L.HandlePromiseMsg(c, s, a, [p]), L.TakePromise(c.n, slot, a, p);
            LeaderLifts(c, t, slot') && s.sent <= t.sent
  {
    var s1 := L.HandlePromise(c, s, a, p);
    assert [p][1..] == [] && L.HandlePromises(c, s1, a, []) == s1;
    assert L.HandlePromises(c, s, a, [p]) == s1;
    var s2 := s1.(anyBallot := -1, anyIids := []);
    assert s2.slots[0] == L.TakePromise(c.n, slot, a, p);
    if s2.slots[0].status == L.Ready {
      DecisionLifts(c, s2);
    } else {
      assert L.DecideFrom(c, s2, 1, 0) == s2;
      assert L.DecideFrom(c, s2, 0, 0) == s2;
    }
  }

  /** The decision on a record of instance 0 that has just become ready. */
  lemma DecisionLifts(c: L.Config, s: L.State)
    requires L.Shaped(c, s) && s.slots[0].status == L.Ready && s.slots[0].iid == 0 && s.slots[0].ballot >= 0
    requires s.anyBallot == -1 && s.anyIids == []
    ensures var t := L.ExecutePhase2(c, s, 0, 0);
            && t.slots[0] == s.slots[0].(status := L.Finished) && s.sent <= t.sent && HasDecision(t.sent, s.slots[0])
            && t.currentIid == s.currentIid && t.checkedIid == s.checkedIid
  {
    var slot := s.slots[0];
    var t := L.Decide(c, s, 0);
    assert L.DecideFrom(c, t, 1, 0) == t;
    assert L.DecideFrom(c, s, 0, 0) == t;
    var r := L.ExecutePhase2(c, s, 0, 0);
    match L.Choose(slot.promises)
    case None =>
      assert t.anyIids == [0];
      assert r.sent[|s.sent|] == L.Anyvals(slot.ballot, [0]);
    case Some(i) => assert r.sent[|s.sent|] == L.AcceptPacket(L.AcceptOf(slot, i));
  }

  /** One leader moves on, and with it the protocol's record and network. */
  lemma LeaderMoves(u: D.Setup, s: D.State, q: Q.State, l: int, t1: L.State, slot: L.Slot, sent: set<Q.Msg>)
    requires D.Shaped(u, s) && Lifts(u, s, q) && IsProposer(l) && L.Shaped(D.LeaderConfig(u, l), t1)
    requires s.leaders[l].sent <= t1.sent && LeaderLifts(D.LeaderConfig(u, l), t1, slot) && |slot.promises| == u.n
    requires forall m :: m in sent ==> Offered(u, s.(leaders := s.leaders[l := t1]), m)
    ensures Lifts(u, s.(leaders := s.leaders[l := t1]), q.(leaders := q.leaders[l := slot], net := q.net + sent))
  {
    var t := s.(leaders := s.leaders[l := t1]);
    forall m | m in q.net ensures Offered(u, t, m) {
      OfferedStays(u, s, t, m);
    }
  }

  lemma OpenLifts(u: D.Setup, h: Q.Provisos, s: D.State, q: Q.State, l: int)
    requires u.Works() && D.Shaped(u, s) && Lifts(u, s, q)
    requires Q.Enabled(Q.System(u.n, 0), q, Q.Open(l))
    ensures Lifts(u, s, Q.Apply(Q.System(u.n, 0), q, Q.Open(l)))
  {
    var c := D.LeaderConfig(u, l);
    var slot := L.OpenedSlot(u.n, 0, l);
    assert LeaderLifts(c, s.leaders[l], q.leaders[l]);
    assert s.(leaders := s.leaders[l := s.leaders[l]]) == s;
    LeaderMoves(u, s, q, l, s.leaders[l], slot, {Q.MPrepare(Prepare(0, slot.ballot))});
  }

  lemma RestartTurnLifts(u: D.Setup, h: Q.Provisos, s: D.State, q: Q.State, l: int) returns (t: D.State)
    requires u.Works() && D.Shaped(u, s) && Lifts(u, s, q) && Reached(u, h, s)
    requires Q.Enabled(Q.System(u.n, 0), q, Q.Restart(l)) && q.leaders[l].status != L.Ready
    ensures D.Shaped(u, t) && Reached(u, h, t) && Lifts(u, t, Q.Apply(Q.System(u.n, 0), q, Q.Restart(l)))
  {
    var c, e := D.LeaderConfig(u, l), D.AtLeader(l, W.Phase2Timer);
    var slot := L.Restarted(u.n, q.leaders[l]);
    assert LeaderLifts(c, s.leaders[l], q.leaders[l]);
    RestartLifts(c, s.leaders[l], q.leaders[l]);
    StepIsReached(u, h, s, e);
    t := D.Apply(u, s, e);
    var sent := t.leaders[l].sent;
    var k :| 0 <= k < |sent| && sent[k].Prepares? && Prepare(0, slot.ballot) in sent[k].prepares;
    assert D.SentPrepare(t, Prepare(0, slot.ballot));
    LeaderMoves(u, s, q, l, t.leaders[l], slot, {Q.MPrepare(Prepare(0, slot.ballot))});
  }

  lemma PromiseTurnLifts(u: D.Setup, h: Q.Provisos, s: D.State, q: Q.State, l: int, a: int, p: Promise)
    returns (t: D.State)
    requires u.Works() && D.Shaped(u, s) && Lifts(u, s, q) && Reached(u, h, s)
    requires Q.Enabled(Q.System(u.n, 0), q, Q.TakePromise(l, a, p))
    ensures D.Shaped(u, t) && Reached(u, h, t) && Lifts(u, t, Q.Apply(Q.System(u.n, 0), q, Q.TakePromise(l, a, p)))
  {
    var c := D.LeaderConfig(u, l);
    var slot := L.TakePromise(u.n, q.leaders[l], a, p);
    assert LeaderLifts(c, s.leaders[l], q.leaders[l]);
    if L.Wanted(q.leaders[l], a, p) {
      PromiseLifts(c, s.leaders[l], q.leaders[l], a, p);
      PromiseTurn(u, h, s, q, l, a, p);
      var t1 := L.HandlePromiseMsg(c, s.leaders[l], a, [p]);
      t := s.(leaders := s.leaders[l := t1]);
      LeaderMoves(u, s, q, l, t1, slot, {});
      assert q.net + {} == q.net;
    } else {
      t := s;
      assert q.leaders[l := slot] == q.leaders;
    }
  }

  lemma PromiseIsPermitted(u: D.Setup, h: Q.Provisos, s: D.State, q: Q.State, l: int, a: int, p: Promise)
    requires D.Shaped(u, s) && Lifts(u, s, q) && Q.Enabled(Q.System(u.n, 0), q, Q.TakePromise(l, a, p))
    ensures var e := D.AtLeader(l, W.Promises(a, [p])); D.Enabled(u, s, e) && J.Permitted(u, h, s, e)
  {
    assert Offered(u, s, Q.MPromise(a, p));
  }

  /** The leader is handed the one promise. */
  lemma PromiseTurn(u: D.Setup, h: Q.Provisos, s: D.State, q: Q.State, l: int, a: int, p: Promise)
    requires u.Works() && D.Shaped(u, s) && Lifts(u, s, q) && Reached(u, h, s)
    requires Q.Enabled(Q.System(u.n, 0), q, Q.TakePromise(l, a, p))
    ensures var t1 := L.HandlePromiseMsg(D.LeaderConfig(u, l), s.leaders[l], a, [p]);
            Reached(u, h, s.(leaders := s.leaders[l := t1]))
  {
    var e := D.AtLeader(l, W.Promises(a, [p]));
    PromiseIsPermitted(u, h, s, q, l, a, p);
    StepIsReached(u, h, s, e);
    var t1 := L.HandlePromiseMsg(D.LeaderConfig(u, l), s.leaders[l], a, [p]);
    assert D.Apply(u, s, e) == s.(leaders := s.leaders[l := t1]);
  }

  lemma DecideLifts(u: D.Setup, s: D.State, q: Q.State, l: int, b: int)
    requires u.Works() && D.Shaped(u, s) && Lifts(u, s, q)
    requires Q.Enabled(Q.System(u.n, 0), q, Q.Decide(l, b)) && b == q.leaders[l].ballot
    ensures Lifts(u, s, Q.Apply(Q.System(u.n, 0), q, Q.Decide(l, b)))
  {
    var c, slot := D.LeaderConfig(u, l), q.leaders[l];
    var sent := s.leaders[l].sent;
    assert LeaderLifts(c, s.leaders[l], slot);
    assert s.(leaders := s.leaders[l := s.leaders[l]]) == s;
    match L.Choose(slot.promises)
    case None =>
      var k :| 0 <= k < |sent| && sent[k].Anyvals? && sent[k].ballot == slot.ballot && 0 in sent[k].iids;
      assert D.SentAnyval(s, 0, b);
      LeaderMoves(u, s, q, l, s.leaders[l], slot.(status := L.Finished), {Q.MAnyval(b)});
    case Some(i) =>
      assert D.SentAccept(s, L.AcceptOf(slot, i));
      LeaderMoves(u, s, q, l, s.leaders[l], slot.(status := L.Finished), {Q.MAccept(L.AcceptOf(slot, i))});
  }

  // ---------- proposers ----------

  lemma SubmitLifts(u: D.Setup, h: Q.Provisos, s: D.State, q: Q.State, p: int, v: Value) returns (t: D.State)
    requires u.Works() && D.Shaped(u, s) && Lifts(u, s, q) && Reached(u, h, s)
    requires Q.Enabled(Q.System(u.n, 0), q, Q.Submit(p, v)) && q.values[p] == None && |v| <= PAXOS_MAX_VALUE_SIZE
    ensures D.Shaped(u, t) && Reached(u, h, t) && Lifts(u, t, Q.Apply(Q.System(u.n, 0), q, Q.Submit(p, v)))
  {
    var e := D.AtProposer(p, P.Submit(v));
    StepIsReached(u, h, s, e);
    t := D.Apply(u, s, e);
    SubmittedLifts(u, s, q, p, v, t);
  }

  lemma SubmittedLifts(u: D.Setup, s: D.State, q: Q.State, p: int, v: Value, t: D.State)
    requires D.Shaped(u, s) && Lifts(u, s, q)
    requires Q.Enabled(Q.System(u.n, 0), q, Q.Submit(p, v)) && q.values[p] == None && |v| <= PAXOS_MAX_VALUE_SIZE
    requires t == D.Apply(u, s, D.AtProposer(p, P.Submit(v)))
    ensures D.Shaped(u, t) && Lifts(u, t, Q.Apply(Q.System(u.n, 0), q, Q.Submit(p, v)))
  {
    var fast := Q.FastAccept(Q.System(u.n, 0), p, v);
    assert t.proposers[p].sent == [fast];
    assert fast in t.proposers[p].sent && D.SentAccept(t, fast);
    forall m | m in q.net ensures Offered(u, t, m) {
      OfferedStays(u, s, t, m);
    }
  }

  // ---------- acceptors ----------

  /** One acceptor moves on, and with it the protocol's record and network. */
  lemma AcceptorMoves(u: D.Setup, s: D.State, q: Q.State, a: int, acc: D.Site, r: A.Record, q': Q.State)
    requires D.Shaped(u, s) && Lifts(u, s, q) && 0 <= a < u.n && |acc.memory.slots| == u.slots && Sits(acc.memory, r)
    requires s.acceptors[a].promises <= acc.promises && s.acceptors[a].learns <= acc.learns
    requires Q.Shaped(Q.System(u.n, 0), q') && q'.accs == q.accs[a := r] && q'.evicted == q.evicted
    requires q'.leaders == q.leaders && q'.values == q.values
    requires forall m :: m in q'.net ==> m in q.net || Offered(u, D.SetAcceptor(s, a, acc), m)
    ensures Lifts(u, D.SetAcceptor(s, a, acc), q')
  {
    var t := D.SetAcceptor(s, a, acc);
    forall m | m in q.net ensures Offered(u, t, m) {
      OfferedStays(u, s, t, m);
    }
  }

  lemma PrepareTurnLifts(u: D.Setup, h: Q.Provisos, s: D.State, q: Q.State, a: int, p: Prepare) returns (t: D.State)
    requires u.Works() && D.Shaped(u, s) && Lifts(u, s, q) && Reached(u, h, s)
    requires Q.Enabled(Q.System(u.n, 0), q, Q.OnPrepare(a, p))
    ensures D.Shaped(u, t) && Reached(u, h, t) && Lifts(u, t, Q.Apply(Q.System(u.n, 0), q, Q.OnPrepare(a, p)))
  {
    var e := D.OnPrepare(a, p);
    assert Offered(u, s, Q.MPrepare(p));
    StepIsReached(u, h, s, e);
    t := D.Apply(u, s, e);
    PrepareSits(s.acceptors[a].memory, q.accs[a], p);
    AcceptorMoves(u, s, q, a, t.acceptors[a], A.Prepared(q.accs[a], p),
                  Q.Apply(Q.System(u.n, 0), q, Q.OnPrepare(a, p)));
  }

  lemma AcceptIsPermitted(u: D.Setup, h: Q.Provisos, s: D.State, q: Q.State, a: int, m: Accept)
    requires D.Shaped(u, s) && Lifts(u, s, q) && Q.Enabled(Q.System(u.n, 0), q, Q.OnAccept(a, m))
    ensures D.Enabled(u, s, D.OnAccept(a, m, false)) && J.Permitted(u, h, s, D.OnAccept(a, m, false))
    ensures m.iid == 0 && m.ballot >= 0
  {
    assert Offered(u, s, Q.MAccept(m));
  }

  /** What the protocol's acceptor does with an accept. */
  lemma AcceptSends(sys: Q.System, q: Q.State, a: int, m: Accept)
    requires Q.Shaped(sys, q) && Q.Enabled(sys, q, Q.OnAccept(a, m))
    ensures var q', r := Q.Apply(sys, q, Q.OnAccept(a, m)), A.Accepted(q.accs[a], m);
            && q'.accs == q.accs[a := r] && q'.evicted == q.evicted && q'.leaders == q.leaders && q'.values == q.values
            && (forall x :: x in q'.net ==>
                  x in q.net || (A.AdmitsAccept(q.accs[a], m) && x == Q.MLearn(A.LearnOf(a, r))))
  {
  }

  lemma AcceptLifts(u: D.Setup, s: D.State, q: Q.State, a: int, m: Accept)
    requires D.Shaped(u, s) && Lifts(u, s, q) && Q.Enabled(Q.System(u.n, 0), q, Q.OnAccept(a, m))
    requires m.iid == 0 && m.ballot >= 0
    ensures Lifts(u, D.SetAcceptor(s, a, D.Accepted(s.acceptors[a], a, m, false)),
                  Q.Apply(Q.System(u.n, 0), q, Q.OnAccept(a, m)))
  {
    var acc := D.Accepted(s.acceptors[a], a, m, false);
    AcceptedSite(s.acceptors[a], q.accs[a], a, m);
    AcceptSends(Q.System(u.n, 0), q, a, m);
    AcceptorMoves(u, s, q, a, acc, A.Accepted(q.accs[a], m), Q.Apply(Q.System(u.n, 0), q, Q.OnAccept(a, m)));
  }

  lemma AcceptTurnLifts(u: D.Setup, h: Q.Provisos, s: D.State, q: Q.State, a: int, m: Accept) returns (t: D.State)
    requires u.Works() && D.Shaped(u, s) && Lifts(u, s, q) && Reached(u, h, s)
    requires Q.Enabled(Q.System(u.n, 0), q, Q.OnAccept(a, m))
    ensures D.Shaped(u, t) && Reached(u, h, t) && Lifts(u, t, Q.Apply(Q.System(u.n, 0), q, Q.OnAccept(a, m)))
  {
    AcceptIsPermitted(u, h, s, q, a, m);
    StepIsReached(u, h, s, D.OnAccept(a, m, false));
    t := D.SetAcceptor(s, a, D.Accepted(s.acceptors[a], a, m, false));
    AcceptLifts(u, s, q, a, m);
  }

  lemma AcceptedSite(acc: D.Site, r: A.Record, a: int, m: Accept)
    requires Sits(acc.memory, r) && m.iid == 0 && m.ballot >= 0
    ensures var acc' := D.Accepted(acc, a, m, false);
            && Sits(acc'.memory, A.Accepted(r, m)) && |acc'.memory.slots| == |acc.memory.slots|
            && acc'.promises == acc.promises && acc.learns <= acc'.learns
            && (A.AdmitsAccept(r, m) ==> A.LearnOf(a, A.Accepted(r, m)) in acc'.learns)
  {
    AcceptSits(acc.memory, r, a, m, false);
  }

  lemma AnsweredSite(acc: D.Site, r: A.Record, a: int)
    requires Sits(acc.memory, r)
    ensures var acc' := D.Answered(acc, a, 0, 0);
            && acc'.memory == acc.memory && acc'.promises == acc.promises && acc.learns <= acc'.learns
            && (r.iid == 0 && r.value.Some? ==> A.LearnOf(a, r) in acc'.learns)
  {
  }

  lemma AnyvalTurnLifts(u: D.Setup, h: Q.Provisos, s: D.State, q: Q.State, a: int, b: int) returns (t: D.State)
    requires u.Works() && D.Shaped(u, s) && Lifts(u, s, q) && Reached(u, h, s)
    requires Q.Enabled(Q.System(u.n, 0), q, Q.OnAnyval(a, b)) && Q.Permitted(Q.System(u.n, 0), h, q, Q.OnAnyval(a, b))
    ensures D.Shaped(u, t) && Reached(u, h, t) && Lifts(u, t, Q.Apply(Q.System(u.n, 0), q, Q.OnAnyval(a, b)))
  {
    var e := D.OnAnyval(a, 0, b, false);
    assert Offered(u, s, Q.MAnyval(b));
    StepIsReached(u, h, s, e);
    t := D.Apply(u, s, e);
    AnyvalSits(s.acceptors[a].memory, q.accs[a], b, false);
    AcceptorMoves(u, s, q, a, t.acceptors[a], A.Opened(q.accs[a], 0, b),
                  Q.Apply(Q.System(u.n, 0), q, Q.OnAnyval(a, b)));
  }

  lemma LsyncIsPermitted(u: D.Setup, h: Q.Provisos, s: D.State, q: Q.State, a: int)
    requires D.Shaped(u, s) && Lifts(u, s, q) && Q.Enabled(Q.System(u.n, 0), q, Q.OnLsync(a))
    requires Q.Permitted(Q.System(u.n, 0), h, q, Q.OnLsync(a))
    ensures D.Enabled(u, s, D.OnLsync(a, 0, 0)) && J.Permitted(u, h, s, D.OnLsync(a, 0, 0))
  {
  }

  /** What the protocol's acceptor does with a retransmission request while nothing is evicted. */
  lemma LsyncSends(sys: Q.System, q: Q.State, a: int)
    requires Q.Shaped(sys, q) && Q.Enabled(sys, q, Q.OnLsync(a)) && !q.evicted[a]
    ensures var q', r := Q.Apply(sys, q, Q.OnLsync(a)), q.accs[a];
            && Q.Shaped(sys, q')
            && q'.accs == q.accs[a := r] && q'.evicted == q.evicted && q'.leaders == q.leaders && q'.values == q.values
            && (forall x :: x in q'.net ==>
                  x in q.net || (r.iid == sys.inst && r.value.Some? && x == Q.MLearn(A.LearnOf(a, r))))
  {
  }

  lemma LsyncLifts(u: D.Setup, s: D.State, q: Q.State, a: int)
    requires D.Shaped(u, s) && Lifts(u, s, q) && Q.Enabled(Q.System(u.n, 0), q, Q.OnLsync(a))
    ensures Lifts(u, D.SetAcceptor(s, a, D.Answered(s.acceptors[a], a, 0, 0)),
                  Q.Apply(Q.System(u.n, 0), q, Q.OnLsync(a)))
  {
    var acc, q' := D.Answered(s.acceptors[a], a, 0, 0), Q.Apply(Q.System(u.n, 0), q, Q.OnLsync(a));
    AnsweredSite(s.acceptors[a], q.accs[a], a);
    LsyncSends(Q.System(u.n, 0), q, a);
    forall m | m in q'.net && m !in q.net ensures Offered(u, D.SetAcceptor(s, a, acc), m) {
      assert m.learn in D.SetAcceptor(s, a, acc).acceptors[a].learns;
    }
    AcceptorMoves(u, s, q, a, acc, q.accs[a], q');
  }

  lemma LsyncTurnLifts(u: D.Setup, h: Q.Provisos, s: D.State, q: Q.State, a: int) returns (t: D.State)
    requires u.Works() && D.Shaped(u, s) && Lifts(u, s, q) && Reached(u, h, s)
    requires Q.Enabled(Q.System(u.n, 0), q, Q.OnLsync(a)) && Q.Permitted(Q.System(u.n, 0), h, q, Q.OnLsync(a))
    ensures D.Shaped(u, t) && Reached(u, h, t) && Lifts(u, t, Q.Apply(Q.System(u.n, 0), q, Q.OnLsync(a)))
  {
    LsyncIsPermitted(u, h, s, q, a);
    StepIsReached(u, h, s, D.OnLsync(a, 0, 0));
    t := D.SetAcceptor(s, a, D.Answered(s.acceptors[a], a, 0, 0));
    LsyncLifts(u, s, q, a);
  }

  // ---------- every plain run ----------

  lemma StepLifts(u: D.Setup, h: Q.Provisos, s: D.State, q: Q.State, e: Q.Event) returns (t: D.State)
    requires u.Works() && D.Shaped(u, s) && Lifts(u, s, q) && Reached(u, h, s)
    requires Q.Permitted(Q.System(u.n, 0), h, q, e) && Q.IsPlain(Q.System(u.n, 0), q, e)
    ensures D.Shaped(u, t) && Reached(u, h, t) && Lifts(u, t, Q.Apply(Q.System(u.n, 0), q, e))
  {
    t := s;
    if Q.Enabled(Q.System(u.n, 0), q, e) {
      match e
      case Submit(p, v) => t := SubmitLifts(u, h, s, q, p, v);
      case Open(l) => OpenLifts(u, h, s, q, l);
      case Restart(l) => t := RestartTurnLifts(u, h, s, q, l);
      case TakePromise(l, a, p) => t := PromiseTurnLifts(u, h, s, q, l, a, p);
      case Decide(l, b) => DecideLifts(u, s, q, l, b);
      case OnPrepare(a, p) => t := PrepareTurnLifts(u, h, s, q, a, p);
      case OnAccept(a, m) => t := AcceptTurnLifts(u, h, s, q, a, m);
      case OnAnyval(a, b) => t := AnyvalTurnLifts(u, h, s, q, a, b);
      case OnLsync(a) => t := LsyncTurnLifts(u, h, s, q, a);
    }
  }

  lemma {:induction false} RunsLift(u: D.Setup, h: Q.Provisos, es: seq<Q.Event>) returns (s: D.State)
    requires u.Works() && u.window < u.size
    requires Q.Legal(Q.System(u.n, 0), h, es) && Q.PlainRun(Q.System(u.n, 0), es)
    ensures D.Shaped(u, s) && Reached(u, h, s) && Lifts(u, s, Q.Exec(Q.System(u.n, 0), es))
  {
    if es == [] {
      s := D.Init(u);
      assert J.Legal(u, h, []) && NoDelivery([]) && D.Exec(u, []) == s;
      SystemLifts(u);
    } else {
      var before := es[..|es| - 1];
      var s0 := RunsLift(u, h, before);
      s := StepLifts(u, h, s0, Q.Exec(Q.System(u.n, 0), before), es[|es| - 1]);
    }
  }

  /** A plain run for instance 0 that keeps the provisos is realised by a run of the system that keeps them. */
  lemma PlainRunLifts(u: D.Setup, h: Q.Provisos, es: seq<Q.Event>) returns (ds: seq<D.Event>)
    requires u.Works() && u.window < u.size
    requires Q.Legal(Q.System(u.n, 0), h, es) && Q.PlainRun(Q.System(u.n, 0), es)
    ensures J.Legal(u, h, ds) && NoDelivery(ds) && Lifts(u, D.Exec(u, ds), Q.Exec(Q.System(u.n, 0), es))
  {
    var s := RunsLift(u, h, es);
    ds :| J.Legal(u, h, ds) && NoDelivery(ds) && D.Exec(u, ds) == s;
  }
}
