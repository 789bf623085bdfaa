/**
 * An acceptor turns to its database only for instances that have been delivered, as long as leaders open
 * instances only after their learners delivered the earlier ones, and one and a half windows fit the
 * acceptors' arrays. With up to three acceptors such a record holds a value, unless an ANYVAL or a bit read
 * from the database has let it be lost.
 */
module Eviction {
  import opened Common
  import A = AcceptorRecord
  import C = AcceptorCache
  import L = LeaderModel
  import W = LeaderWindow
  import T = LeaderTraffic
  import P = ProposerModel
  import M = LearnerModel
  import D = Deployment
  import Q = Protocol
  import Agreement
  import opened Projection

  /** Some learner that heard what the acceptors sent has delivered instance i. */
  ghost predicate Delivered(u: D.Setup, s: D.State, i: int) {
    exists ms, w: nat :: Heard(s, ms) && 0 <= i < |M.Run(u.n, w, ms).log|
  }

  /** A leader hears of a delivery only from a learner. */
  ghost predicate Grounded(u: D.Setup, es: seq<D.Event>)
    requires u.Works()
  {
    es != [] ==>
      && Grounded(u, es[..|es| - 1])
      && var e := es[|es| - 1];
         e.AtLeader? && e.turn.Delivered? ==> Delivered(u, D.Exec(u, es[..|es| - 1]), e.turn.iid)
  }

  // ---------- no message runs ahead of the leaders ----------

  predicate PacketBelow(packet: L.Packet, top: int) {
    match packet
    case Prepares(ps) => forall p :: p in ps ==> p.iid <= top
    case Anyvals(_, iids) => forall i :: i in iids ==> i <= top
    case AcceptPacket(m) => m.iid <= top
  }

  predicate SentBelow(sent: seq<L.Packet>, top: int) {
    forall k :: 0 <= k < |sent| ==> PacketBelow(sent[k], top)
  }

  lemma {:induction false} DecideFromBelow(c: L.Config, s: L.State, i: int, last: int, top: int)
    requires L.Shaped(c, s) && SentBelow(s.sent, top) && last <= top
    requires forall k :: 0 <= k < c.size && s.slots[k].status != L.New ==> s.slots[k].iid <= top
    requires PacketBelow(L.Anyvals(s.anyBallot, s.anyIids), top)
    ensures var r := L.DecideFrom(c, s, i, last);
            SentBelow(r.sent, top) && PacketBelow(L.Anyvals(r.anyBallot, r.anyIids), top)
    decreases L.Remaining(i, last)
  {
    if i > last {
    } else if s.slots[i % c.size].status != L.Ready {
      DecideFromBelow(c, s, i + 1, last, top);
    } else {
      DecideFromBelow(c, L.Decide(c, s, i), i + 1, last, top);
    }
  }

  lemma PromisesBelow(c: L.Config, s: L.State, a: int, ps: seq<Promise>, top: int)
    requires W.Conserved(c, s) && 0 <= a < c.n && SentBelow(s.sent, top) && s.lastToCheck <= top
    requires (forall p :: p in ps ==> p.iid <= top) && top >= 0
    ensures SentBelow(L.HandlePromiseMsg(c, s, a, ps).sent, top)
  {
    W.HandlePromisesConserves(c, s, a, ps);
    W.HandlePromisesKeepsSent(c, s, a, ps);
    var s1 := L.HandlePromises(c, s, a, ps).(anyBallot := -1, anyIids := []);
    DecideFromBelow(c, s1, L.FirstIid(ps), L.LastIid(ps), top);
  }

  /** A tick asks for nothing above its new last_to_check. */
  lemma TickBelow(c: L.Config, s: L.State, top: int)
    requires W.Conserved(c, s) && SentBelow(s.sent, top) && L.Phase1Check(c, s).lastToCheck <= top
    ensures SentBelow(L.Phase1Check(c, s).sent, top)
  {
    T.TickBetween(c, s);
    var t := L.Phase1Check(c, s);
    forall k | 0 <= k < |t.sent| ensures PacketBelow(t.sent[k], top) {
      if k < |s.sent| { assert t.sent[k] == s.sent[k]; }
    }
  }

  lemma LeaderStepBelow(c: L.Config, s: L.State, e: W.Event, top: int)
    requires W.Conserved(c, s) && W.Bounded(c, s) && W.FromAcceptor(c, e) && W.Step(c, s, e).Some?
    requires e.Delivered? ==> e.iid == s.currentIid
    requires SentBelow(s.sent, top) && W.Step(c, s, e).value.lastToCheck <= top
    requires e.Promises? ==> forall p :: p in e.promises ==> p.iid <= top
    ensures SentBelow(W.Step(c, s, e).value.sent, top) && s.lastToCheck <= W.Step(c, s, e).value.lastToCheck
  {
    match e
    case Delivered(_) =>
    case Phase1Timer =>
      TickBelow(c, s, top);
      T.TickBetween(c, s);
    case Promises(a, ps) =>
      W.HandlePromisesConserves(c, s, a, ps);
      W.ExecutePhase2Conserves(c, L.HandlePromises(c, s, a, ps), L.FirstIid(ps), L.LastIid(ps));
      PromisesBelow(c, s, a, ps, top);
    case Phase2Timer =>
  }

  /** All that leaders sent and acceptors answered, and every slot, is for instances up to top. */
  ghost predicate Below(u: D.Setup, s: D.State, top: int)
    requires D.Shaped(u, s)
  {
    && (forall l :: 0 <= l < MAX_PROPOSERS ==> SentBelow(s.leaders[l].sent, top))
    && (forall a, p :: 0 <= a < u.n && p in s.acceptors[a].promises ==> p.iid <= top)
    && (forall a, k :: 0 <= a < u.n && 0 <= k < u.slots ==> s.acceptors[a].memory.slots[k].iid <= top)
  }

  /** No leader has opened anything above top. */
  predicate OpenedBelow(u: D.Setup, s: D.State, top: int)
    requires D.Shaped(u, s)
  {
    forall l :: 0 <= l < MAX_PROPOSERS ==> s.leaders[l].lastToCheck <= top
  }

  /** A used slot holds an instance of its own. */
  predicate InPlace(m: C.Memory) {
    forall k :: 0 <= k < |m.slots| ==> m.slots[k].iid == -1 || m.slots[k].iid % |m.slots| == k
  }

  lemma AcceptsFromProposersAreFast(u: D.Setup, s: D.State, m: Accept)
    requires D.Shaped(u, s) && InOrder(u, s)
    ensures D.SentAccept(s, m) ==>
      m.ballot < MIN_BALLOT || exists l :: 0 <= l < |s.leaders| && L.AcceptPacket(m) in s.leaders[l].sent
  {
    if p :| 0 <= p < |s.proposers| && m in s.proposers[p].sent {
      assert P.Orderly(s.proposers[p]) && s.proposers[p].id == p;
    }
  }

  /** What an acceptor is sent is for instances up to top, except for accepts that cannot move its slot. */
  lemma MessageBelow(u: D.Setup, s: D.State, e: D.Event, top: int)
    requires D.Shaped(u, s) && InOrder(u, s) && Below(u, s, top) && D.Enabled(u, s, e)
    ensures e.OnPrepare? ==> e.prepare.iid <= top
    ensures e.OnAccept? ==> e.accept.iid <= top || e.accept.ballot < MIN_BALLOT
    ensures e.OnAnyval? ==> e.iid <= top
  {
    match e
    case OnPrepare(_, p) =>
      var l, k :| 0 <= l < |s.leaders| && 0 <= k < |s.leaders[l].sent| && s.leaders[l].sent[k].Prepares?
                  && p in s.leaders[l].sent[k].prepares;
      assert PacketBelow(s.leaders[l].sent[k], top);
    case OnAnyval(_, i, b, _) =>
      var l, k :| 0 <= l < |s.leaders| && 0 <= k < |s.leaders[l].sent| && s.leaders[l].sent[k].Anyvals?
                  && s.leaders[l].sent[k].ballot == b && i in s.leaders[l].sent[k].iids;
      assert PacketBelow(s.leaders[l].sent[k], top);
    case OnAccept(_, m, _) =>
      AcceptsFromProposersAreFast(u, s, m);
      if m.ballot >= MIN_BALLOT {
        var l :| 0 <= l < |s.leaders| && L.AcceptPacket(m) in s.leaders[l].sent;
        var k :| 0 <= k < |s.leaders[l].sent| && s.leaders[l].sent[k] == L.AcceptPacket(m);
        assert PacketBelow(s.leaders[l].sent[k], top);
      }
    case _ =>
  }

  lemma AcceptorStepBelow(u: D.Setup, s: D.State, e: D.Event, top: int)
    requires D.Shaped(u, s) && InOrder(u, s) && Below(u, s, top) && D.Enabled(u, s, e) && !e.AtLeader? && !e.AtProposer?
    requires forall a :: 0 <= a < u.n ==> InPlace(s.acceptors[a].memory)
    ensures Below(u, D.Apply(u, s, e), top)
    ensures forall a :: 0 <= a < u.n ==> InPlace(D.Apply(u, s, e).acceptors[a].memory)
  {
    MessageBelow(u, s, e, top);
    AcceptorTurnTouches(u, s, e);
    SiteStepBelow(u, s, e, top);
  }

  lemma SiteStepBelow(u: D.Setup, s: D.State, e: D.Event, top: int)
    requires D.Shaped(u, s) && D.Enabled(u, s, e) && !e.AtLeader? && !e.AtProposer?
    requires e.OnPrepare? ==> e.prepare.iid <= top
    requires e.OnAccept? ==> e.accept.iid <= top || e.accept.ballot < MIN_BALLOT
    requires e.OnAnyval? ==> e.iid <= top
    requires InPlace(s.acceptors[e.acc].memory)
    requires forall k :: 0 <= k < u.slots ==> s.acceptors[e.acc].memory.slots[k].iid <= top
    requires forall p :: p in s.acceptors[e.acc].promises ==> p.iid <= top
    ensures var acc := D.Apply(u, s, e).acceptors[e.acc];
            && InPlace(acc.memory)
            && (forall k :: 0 <= k < u.slots ==> acc.memory.slots[k].iid <= top)
            && (forall p :: p in acc.promises ==> p.iid <= top)
  {
  }

  lemma StepBelow(u: D.Setup, s: D.State, e: D.Event, top: int)
    requires D.Shaped(u, s) && InOrder(u, s) && Below(u, s, top)
    requires forall a :: 0 <= a < u.n ==> InPlace(s.acceptors[a].memory)
    requires OpenedBelow(u, D.Apply(u, s, e), top)
    ensures Below(u, D.Apply(u, s, e), top)
    ensures forall a :: 0 <= a < u.n ==> InPlace(D.Apply(u, s, e).acceptors[a].memory)
  {
    if D.Enabled(u, s, e) {
      if e.AtLeader? {
        var c := D.LeaderConfig(u, e.leader);
        if W.Step(c, s.leaders[e.leader], e.turn).Some? {
          LeaderStepBelow(c, s.leaders[e.leader], e.turn, top);
        }
      } else if e.AtProposer? {
      } else {
        AcceptorStepBelow(u, s, e, top);
      }
    }
  }

  /** last_to_check never falls. */
  lemma StepKeepsOpened(u: D.Setup, s: D.State, e: D.Event, top: int)
    requires D.Shaped(u, s) && InOrder(u, s) && OpenedBelow(u, D.Apply(u, s, e), top)
    ensures OpenedBelow(u, s, top)
  {
    if D.Enabled(u, s, e) && e.AtLeader? {
      var c, s1 := D.LeaderConfig(u, e.leader), s.leaders[e.leader];
      if W.Step(c, s1, e.turn).Some? {
        LastNeverFalls(c, s1, e.turn);
        forall l | 0 <= l < MAX_PROPOSERS ensures s.leaders[l].lastToCheck <= top {
          assert D.Apply(u, s, e).leaders[l].lastToCheck <= top;
        }
      }
    } else {
      forall l | 0 <= l < MAX_PROPOSERS ensures s.leaders[l].lastToCheck <= top {
        assert D.Apply(u, s, e).leaders[l] == s.leaders[l];
      }
    }
  }

  lemma LastNeverFalls(c: L.Config, s: L.State, e: W.Event)
    requires W.Conserved(c, s) && W.FromAcceptor(c, e) && W.Step(c, s, e).Some?
    ensures s.lastToCheck <= W.Step(c, s, e).value.lastToCheck
  {
    match e
    case Delivered(_) =>
    case Phase1Timer => T.TickBetween(c, s);
    case Promises(a, ps) =>
      W.HandlePromisesConserves(c, s, a, ps);
      W.ExecutePhase2Conserves(c, L.HandlePromises(c, s, a, ps), L.FirstIid(ps), L.LastIid(ps));
    case Phase2Timer =>
  }

  lemma InitIsBelow(u: D.Setup, top: int)
    requires u.Works() && OpenedBelow(u, D.Init(u), top)
    ensures Below(u, D.Init(u), top)
  {
    forall l | 0 <= l < MAX_PROPOSERS ensures SentBelow(D.Init(u).leaders[l].sent, top) {
      var c := D.LeaderConfig(u, l);
      T.InitBetween(c);
      forall k | 0 <= k < |L.Init(c).sent| ensures PacketBelow(L.Init(c).sent[k], top) {
        assert L.Init(c).lastToCheck == D.Init(u).leaders[l].lastToCheck <= top;
      }
    }
    assert D.Init(u).leaders[0].lastToCheck <= top;
    W.InitConserves(D.LeaderConfig(u, 0));
  }

  lemma {:induction false} RunsAreBelow(u: D.Setup, es: seq<D.Event>, top: int)
    requires u.Works() && OpenedBelow(u, D.Exec(u, es), top)
    ensures Below(u, D.Exec(u, es), top)
    ensures forall a :: 0 <= a < u.n ==> InPlace(D.Exec(u, es).acceptors[a].memory)
  {
    if es == [] {
      InitIsBelow(u, top);
    } else {
      var before := es[..|es| - 1];
      RunsAreInOrder(u, before);
      StepKeepsOpened(u, D.Exec(u, before), es[|es| - 1], top);
      RunsAreBelow(u, before, top);
      StepBelow(u, D.Exec(u, before), es[|es| - 1], top);
    }
  }

  // ---------- what is evicted has been delivered ----------

  lemma DeliveredStays(u: D.Setup, s: D.State, e: D.Event, i: int)
    requires D.Shaped(u, s) && Delivered(u, s, i)
    ensures Delivered(u, D.Apply(u, s, e), i)
  {
    var t := D.Apply(u, s, e);
    var ms, w: nat :| Heard(s, ms) && 0 <= i < |M.Run(u.n, w, ms).log|;
    forall m | m in ms ensures exists a :: 0 <= a < |t.acceptors| && m in t.acceptors[a].learns {
      var a :| 0 <= a < |s.acceptors| && m in s.acceptors[a].learns;
      assert m in t.acceptors[a].learns;
    }
  }

  /** A leader's current instance is above delivered ones only. */
  lemma {:induction false} BelowCurrentIsDelivered(u: D.Setup, es: seq<D.Event>, l: int, i: nat)
    requires u.Works() && Grounded(u, es) && IsProposer(l) && i < D.Exec(u, es).leaders[l].currentIid
    ensures Delivered(u, D.Exec(u, es), i)
  {
    if es == [] {
      W.InitConserves(D.LeaderConfig(u, l));
    } else {
      var before, e := es[..|es| - 1], es[|es| - 1];
      var s := D.Exec(u, before);
      RunsAreInOrder(u, before);
      if i < s.leaders[l].currentIid {
        BelowCurrentIsDelivered(u, before, l, i);
      } else {
        CurrentMoves(u, s, e, l);
      }
      DeliveredStays(u, s, e, i);
    }
  }

  lemma CurrentMoves(u: D.Setup, s: D.State, e: D.Event, l: int)
    requires D.Shaped(u, s) && InOrder(u, s) && IsProposer(l)
    requires D.Apply(u, s, e).leaders[l].currentIid > s.leaders[l].currentIid
    ensures e.AtLeader? && e.turn.Delivered? && e.turn.iid == s.leaders[l].currentIid
    ensures D.Apply(u, s, e).leaders[l].currentIid == s.leaders[l].currentIid + 1
  {
    if e.AtLeader? && D.Enabled(u, s, e) {
      W.StepConserves(D.LeaderConfig(u, e.leader), s.leaders[e.leader], e.turn);
    }
  }

  /** The leader that has opened the most. */
  lemma {:induction false} SomeLeaderIsAhead(s: D.State, m: nat) returns (l: int)
    requires 0 < m <= |s.leaders|
    ensures 0 <= l < m && forall k :: 0 <= k < m ==> s.leaders[k].lastToCheck <= s.leaders[l].lastToCheck
  {
    if m == 1 {
      l := 0;
    } else {
      l := SomeLeaderIsAhead(s, m - 1);
      if s.leaders[l].lastToCheck < s.leaders[m - 1].lastToCheck {
        l := m - 1;
      }
    }
  }

  lemma RingApart(i: int, j: int, size: int)
    requires size > 0 && i < j && i % size == j % size
    ensures j - i >= size
  {
    if j - i < size {
      SameSlot(i, j, size);
    }
  }

  /** If one and a half windows fit the acceptors' arrays, an instance whose slot is gone has been delivered. */
  lemma EvictedIsDelivered(u: D.Setup, es: seq<D.Event>, a: int, i: nat)
    requires u.Works() && Grounded(u, es) && u.window >= 2 && u.window + u.window / 2 <= u.slots
    requires 0 <= a < u.n && C.Behind(D.Exec(u, es).acceptors[a].memory, i)
    ensures Delivered(u, D.Exec(u, es), i)
  {
    var s := D.Exec(u, es);
    RunsAreInOrder(u, es);
    var l := SomeLeaderIsAhead(s, MAX_PROPOSERS);
    RunsAreBelow(u, es, s.leaders[l].lastToCheck);
    var m := s.acceptors[a].memory;
    RingApart(i, C.SlotOf(m, i).iid, u.slots);
    assert W.Bounded(D.LeaderConfig(u, l), s.leaders[l]);
    BelowCurrentIsDelivered(u, es, l, i);
  }

  // ---------- what is evicted holds a value ----------

  /** With up to three acceptors a learner that delivered an instance heard a learn for it from each. */
  lemma AllWereHeard(n: nat, w: nat, ms: seq<Learn>, i: nat, a: int) returns (m: Learn)
    requires n <= 3 && 0 <= a < n && i < |M.Run(n, w, ms).log|
    ensures m in ms && m.acceptorId == a && m.iid == i
  {
    var b, voters := M.DeliveryRestsOnQuorum(n, w, ms, i);
    SmallQuorumIsAll(n, voters);
    assert a in voters;
    m :| m in ms && m.acceptorId == a && m.iid == i && m.ballot == b;
  }

  /** So each acceptor has voted, and if values are spared, holds one. */
  lemma DeliveredIsHeld(sys: Q.System, h: Q.Provisos, ps: seq<Q.Event>, w: nat, ms: seq<Learn>, a: int)
    requires sys.n <= 3 && h.Spare() && h.lsyncHeld && Q.Legal(sys, h, ps) && Q.IsAcceptor(sys, a)
    requires Agreement.DrawnFrom(sys, Q.Exec(sys, ps), ms) && sys.inst < |M.Run(sys.n, w, ms).log|
    ensures Agreement.Holds(sys, Q.Exec(sys, ps).accs[a])
  {
    Agreement.SmallRunIsGuarded(sys, ps);
    Agreement.RunsAreSafe(sys, h, ps);
    var m := AllWereHeard(sys.n, w, ms, sys.inst, a);
    LearnedIsHeld(sys, h, Q.Exec(sys, ps), m);
  }

  lemma LearnedIsHeld(sys: Q.System, h: Q.Provisos, q: Q.State, m: Learn)
    requires Agreement.Safe(sys, h, q) && h.lsyncHeld && Q.MLearn(m) in q.net
    ensures Q.IsAcceptor(sys, m.acceptorId) && Agreement.Holds(sys, q.accs[m.acceptorId])
  {
    assert Agreement.MsgOk(sys, h, q, Q.MLearn(m));
    assert Agreement.AccOk(sys, q.accs[m.acceptorId], q.votes[m.acceptorId]);
  }

  /** So a record that the database has for an evicted instance holds a value. */
  lemma EvictedHoldsValue(u: D.Setup, h: Q.Provisos, es: seq<D.Event>, a: int, i: nat)
    requires u.Works() && Grounded(u, es) && u.window >= 2 && u.window + u.window / 2 <= u.slots && u.n <= 3
    requires h.Spare() && h.lsyncHeld && Legal(u, h, es)
    requires 0 <= a < u.n && C.Behind(D.Exec(u, es).acceptors[a].memory, i)
    ensures StoresValue(D.Exec(u, es).acceptors[a].memory, i)
  {
    var s, sys := D.Exec(u, es), Instance(u, i);
    EvictedIsDelivered(u, es, a, i);
    var ms, w: nat :| Heard(s, ms) && 0 <= i < |M.Run(u.n, w, ms).log|;
    var ps := RunsProject(u, h, i, es);
    HeardIsDrawn(u, i, s, Q.Exec(sys, ps), ms);
    DeliveredIsHeld(sys, h, ps, w, ms, a);
    assert AcceptorStands(i, a, s.acceptors[a], Q.Exec(sys, ps));
    Agreement.RunsKeepOnlySubmitted(sys, ps);
    assert Agreement.HoldsSubmitted(sys, Q.Exec(sys, ps), Q.Exec(sys, ps).accs[a]);
  }

  /** Then databases answer only for records that hold a value: that proviso comes for free. */
  lemma {:induction false} LsyncIsHeld(u: D.Setup, h: Q.Provisos, es: seq<D.Event>)
    requires u.Works() && Grounded(u, es) && u.window >= 2 && u.window + u.window / 2 <= u.slots && u.n <= 3
    requires h.Spare() && Legal(u, h, es)
    ensures Legal(u, h.(lsyncHeld := true), es)
  {
    if es == [] {
    } else {
      var before, e := es[..|es| - 1], es[|es| - 1];
      LsyncIsHeld(u, h, before);
      if e.OnLsync? && D.Enabled(u, D.Exec(u, before), e)
        && C.Behind(D.Exec(u, before).acceptors[e.acc].memory, e.iid)
      {
        EvictedHoldsValue(u, h.(lsyncHeld := true), before, e.acc, e.iid);
      }
    }
  }

  /** Agreement of grounded runs: values that are spared, and for more than one acceptor lsync current. */
  lemma GroundedRunsAgree(u: D.Setup, h: Q.Provisos, es: seq<D.Event>, w: nat, ms: seq<Learn>, w': nat, ms': seq<Learn>)
    requires u.Works() && Grounded(u, es) && u.window >= 2 && u.window + u.window / 2 <= u.slots && u.n <= 3
    requires h.Spare() && (u.n == 1 || h.lsyncCurrent) && Legal(u, h, es)
    requires Heard(D.Exec(u, es), ms) && Heard(D.Exec(u, es), ms')
    ensures SameValues(M.Run(u.n, w, ms).log, M.Run(u.n, w', ms').log)
  {
    LsyncIsHeld(u, h, es);
    SystemAgrees(u, h.(lsyncHeld := true), es, w, ms, w', ms');
  }

  /** And their validity. */
  lemma GroundedRunsAreValid(u: D.Setup, h: Q.Provisos, es: seq<D.Event>, w: nat, ms: seq<Learn>, i: nat)
    requires u.Works() && Grounded(u, es) && u.window >= 2 && u.window + u.window / 2 <= u.slots && u.n <= 3
    requires h.Spare() && Legal(u, h, es)
    requires Heard(D.Exec(u, es), ms) && i < |M.Run(u.n, w, ms).log|
    ensures exists p :: IsProposer(p) && Asked(es, p, M.Run(u.n, w, ms).log[i].value)
  {
    LsyncIsHeld(u, h, es);
    SystemIsValid(u, h.(lsyncHeld := true), es, w, ms, i);
  }
}
