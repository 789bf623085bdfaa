/**
 * Every run of the whole system, seen from one instance, is a run of the protocol for that instance; so what
 * is proved about one instance of the protocol holds of the system, instance by instance.
 */
module Projection {
  import opened Common
  import A = AcceptorRecord
  import C = AcceptorCache
  import L = LeaderModel
  import W = LeaderWindow
  import P = ProposerModel
  import M = LearnerModel
  import D = Deployment
  import Q = Protocol
  import Agreement

  // ---------- the provisos, for the whole system ----------

  /** The database has a record with a value for the instance. */
  predicate StoresValue(m: C.Memory, iid: int) {
    iid in m.disk && m.disk[iid].valueBallot != -1
  }

  /** If the handler fetches a record that holds a value, the bit it finds in it is not set. */
  predicate FetchSpares(m: C.Memory, iid: int, any: bool)
    requires |m.slots| > 0
  {
    C.Behind(m, iid) && StoresValue(m, iid) ==> !any
  }

  /** If the answer comes from the database, its record holds a value. */
  predicate LsyncHeld(m: C.Memory, iid: int)
    requires |m.slots| > 0
  {
    C.Behind(m, iid) && iid in m.disk ==> StoresValue(m, iid)
  }

  /** If a record with a value answers, its ballot is its value's ballot. */
  predicate LsyncCurrent(m: C.Memory, iid: int)
    requires |m.slots| > 0
  {
    var r := C.SlotOf(m, iid);
    && (r.iid == iid && r.value.Some? ==> r.ballot == r.valueBallot)
    && (C.Behind(m, iid) && StoresValue(m, iid) ==> m.disk[iid].ballot == m.disk[iid].valueBallot)
  }

  predicate Permitted(u: D.Setup, h: Q.Provisos, s: D.State, e: D.Event)
    requires D.Shaped(u, s)
  {
    D.Enabled(u, s, e) ==>
      match e
      case OnAccept(a, m, any) => h.fetchSpares ==> FetchSpares(s.acceptors[a].memory, m.iid, any)
      case OnAnyval(a, i, b, any) =>
        var m := s.acceptors[a].memory;
        && (h.fetchSpares ==> FetchSpares(m, i, any))
        && (h.anyvalSpares ==> A.SparesValue(C.Looked(m, i, any), A.OnAnyval(i, b)))
      case OnLsync(a, i, _) =>
        && (h.lsyncHeld ==> LsyncHeld(s.acceptors[a].memory, i))
        && (h.lsyncCurrent ==> LsyncCurrent(s.acceptors[a].memory, i))
      case _ => true
  }

  predicate Legal(u: D.Setup, h: Q.Provisos, es: seq<D.Event>)
    requires u.Works()
  {
    es == [] || (var before := es[..|es| - 1];
                 Legal(u, h, before) && Permitted(u, h, D.Exec(u, before), es[|es| - 1]))
  }

  function Instance(u: D.Setup, i: nat): Q.System {
    Q.System(u.n, i)
  }

  // ---------- what a leader's state says about one instance ----------

  /** The slot of instance i, and the record that the protocol has for the leader. */
  predicate SlotStands(i: nat, slot: L.Slot, record: L.Slot) {
    && (slot.status == L.New || slot.iid < i ==> record.status == L.New)
    && (slot.status != L.New && slot.iid == i ==> record == slot)
  }

  /** What the packet says about instance i is on the network. */
  predicate PacketStands(i: nat, packet: L.Packet, net: set<Q.Msg>) {
    match packet
    case Prepares(ps) => forall p :: p in ps && p.iid == i ==> Q.MPrepare(p) in net
    case Anyvals(b, iids) => i in iids ==> Q.MAnyval(b) in net
    case AcceptPacket(m) => m.iid == i ==> Q.MAccept(m) in net
  }

  predicate PacketsStand(i: nat, sent: seq<L.Packet>, net: set<Q.Msg>) {
    forall k :: 0 <= k < |sent| ==> PacketStands(i, sent[k], net)
  }

  predicate LeaderStands(c: L.Config, i: nat, s: L.State, q: Q.State)
    requires L.Shaped(c, s) && IsProposer(c.id) && |q.leaders| == MAX_PROPOSERS
  {
    && SlotStands(i, s.slots[i % c.size], q.leaders[c.id])
    && PacketsStand(i, s.sent, q.net)
    && PacketStands(i, L.Prepares(s.batch), q.net)
  }

  /** A run of the protocol leads from q to q', in which only leader l does anything. */
  ghost predicate Moves(sys: Q.System, h: Q.Provisos, l: int, q: Q.State, q': Q.State) {
    && Q.Shaped(sys, q) && Q.Shaped(sys, q')
    && (Q.Reachable(sys, h, q) ==> Q.Reachable(sys, h, q'))
    && q'.accs == q.accs && q'.evicted == q.evicted && q'.values == q.values && q.net <= q'.net
    && (forall k :: 0 <= k < MAX_PROPOSERS && k != l ==> q'.leaders[k] == q.leaders[k])
  }

  lemma MovesOn(sys: Q.System, h: Q.Provisos, l: int, q: Q.State, e: Q.Event)
    requires Q.Shaped(sys, q) && Q.Permitted(sys, h, q, e)
    requires e.Open? || e.Restart? || e.TakePromise? || e.Decide? ==> e.leader == l
    requires e.Open? || e.Restart? || e.TakePromise? || e.Decide? || e.Stray?
    ensures Moves(sys, h, l, q, Q.Apply(sys, q, e))
  {
    if Q.Reachable(sys, h, q) {
      Q.StepIsReachable(sys, h, q, e);
    }
  }

  lemma PacketStaysStanding(i: nat, packet: L.Packet, net: set<Q.Msg>, net': set<Q.Msg>)
    requires PacketStands(i, packet, net) && net <= net'
    ensures PacketStands(i, packet, net')
  {
  }

  lemma PacketsStayStanding(i: nat, sent: seq<L.Packet>, net: set<Q.Msg>, net': set<Q.Msg>)
    requires PacketsStand(i, sent, net) && net <= net'
    ensures PacketsStand(i, sent, net')
  {
    forall k | 0 <= k < |sent| ensures PacketStands(i, sent[k], net') {
      PacketStaysStanding(i, sent[k], net, net');
    }
  }

  /** The leader stays in place when the network grows and its own record does not change. */
  lemma LeaderStaysStanding(c: L.Config, i: nat, s: L.State, q: Q.State, q': Q.State)
    requires L.Shaped(c, s) && IsProposer(c.id) && |q.leaders| == |q'.leaders| == MAX_PROPOSERS
    requires LeaderStands(c, i, s, q) && q.net <= q'.net && q'.leaders[c.id] == q.leaders[c.id]
    ensures LeaderStands(c, i, s, q')
  {
    PacketsStayStanding(i, s.sent, q.net, q'.net);
    PacketStaysStanding(i, L.Prepares(s.batch), q.net, q'.net);
  }

  // ---------- phase 1 ----------

  /** A prepare that is on the network, if it is for instance i, may be put into the packet being filled. */
  lemma AddingStands(i: nat, s: L.State, p: Prepare, net: set<Q.Msg>)
    requires PacketsStand(i, s.sent, net) && PacketStands(i, L.Prepares(s.batch), net)
    requires p.iid == i ==> Q.MPrepare(p) in net
    ensures PacketsStand(i, L.AddPrepare(s, p).sent, net)
    ensures PacketStands(i, L.Prepares(L.AddPrepare(s, p).batch), net)
  {
    assert PacketStands(i, L.Prepares(s.batch + [p]), net);
  }

  lemma FlushingStands(c: L.Config, i: nat, s: L.State, q: Q.State)
    requires L.Shaped(c, s) && IsProposer(c.id) && |q.leaders| == MAX_PROPOSERS && LeaderStands(c, i, s, q)
    ensures LeaderStands(c, i, L.FlushPrepares(s), q)
  {
  }

  /** The slot of j takes the instance j; the record of i is opened if j is i. */
  lemma OpeningStands(c: L.Config, h: Q.Provisos, i: nat, s: L.State, j: nat, q: Q.State) returns (q': Q.State)
    requires L.Shaped(c, s) && IsProposer(c.id) && Q.Shaped(Q.System(c.n, i), q) && LeaderStands(c, i, s, q)
    requires s.slots[j % c.size].iid < j || s.slots[j % c.size].status == L.New
    ensures Moves(Q.System(c.n, i), h, c.id, q, q')
    ensures LeaderStands(c, i, L.AddPrepare(L.Opening(c, s, j), Prepare(j, L.FirstBallot(c.id))), q')
  {
    var sys := Q.System(c.n, i);
    if j == i {
      q' := Q.Apply(sys, q, Q.Open(c.id));
      MovesOn(sys, h, c.id, q, Q.Open(c.id));
    } else {
      q' := q;
    }
    PacketsStayStanding(i, s.sent, q.net, q'.net);
    PacketStaysStanding(i, L.Prepares(s.batch), q.net, q'.net);
    AddingStands(i, L.Opening(c, s, j), Prepare(j, L.FirstBallot(c.id)), q'.net);
  }

  lemma {:induction false} OpenFromStands(c: L.Config, h: Q.Provisos, i: nat, s: L.State, j: nat, to: int, q: Q.State)
    returns (q': Q.State)
    requires L.Shaped(c, s) && IsProposer(c.id) && Q.Shaped(Q.System(c.n, i), q) && LeaderStands(c, i, s, q)
    ensures Moves(Q.System(c.n, i), h, c.id, q, q') && LeaderStands(c, i, L.OpenFrom(c, s, j, to), q')
    decreases L.Remaining(j, to)
  {
    q' := q;
    if j > to {
    } else {
      var k := j % c.size;
      if s.slots[k].iid < j || s.slots[k].status == L.New {
        var q1 := OpeningStands(c, h, i, s, j, q);
        q' := OpenFromStands(c, h, i, L.AddPrepare(L.Opening(c, s, j), Prepare(j, L.FirstBallot(c.id))), j + 1, to, q1);
      } else {
        q' := OpenFromStands(c, h, i, s, j + 1, to, q);
      }
    }
  }

  lemma ExecutePhase1Stands(c: L.Config, h: Q.Provisos, i: nat, s: L.State, q: Q.State) returns (q': Q.State)
    requires L.Shaped(c, s) && IsProposer(c.id) && Q.Shaped(Q.System(c.n, i), q) && LeaderStands(c, i, s, q)
    requires s.highestReady >= -1
    ensures Moves(Q.System(c.n, i), h, c.id, q, q') && LeaderStands(c, i, L.ExecutePhase1(c, s), q')
  {
    var from := s.highestReady + 1;
    q' := OpenFromStands(c, h, i, s, from, from + c.window, q);
    FlushingStands(c, i, L.OpenFrom(c, s, from, from + c.window), q');
  }

  /** The record in slot k, not new, is moved to its next ballot; so is the record of i if it is in the slot. */
  lemma RestartingStands(c: L.Config, h: Q.Provisos, i: nat, s: L.State, k: nat, q: Q.State) returns (q': Q.State)
    requires L.Shaped(c, s) && IsProposer(c.id) && Q.Shaped(Q.System(c.n, i), q) && LeaderStands(c, i, s, q)
    requires k < c.size && s.slots[k].status != L.New && s.slots[k].iid % c.size == k
    ensures Moves(Q.System(c.n, i), h, c.id, q, q')
    ensures var slot := L.Restarted(c.n, s.slots[k]);
            LeaderStands(c, i, L.AddPrepare(s.(slots := s.slots[k := slot]), Prepare(slot.iid, slot.ballot)), q')
  {
    var sys, slot := Q.System(c.n, i), L.Restarted(c.n, s.slots[k]);
    if slot.iid == i {
      q' := Q.Apply(sys, q, Q.Restart(c.id));
      MovesOn(sys, h, c.id, q, Q.Restart(c.id));
    } else {
      q' := q;
    }
    PacketsStayStanding(i, s.sent, q.net, q'.net);
    PacketStaysStanding(i, L.Prepares(s.batch), q.net, q'.net);
    AddingStands(i, s.(slots := s.slots[k := slot]), Prepare(slot.iid, slot.ballot), q'.net);
  }

  lemma {:induction false} RestartFromStands(c: L.Config, h: Q.Provisos, i: nat, s: L.State, j: int, q: Q.State)
    returns (q': Q.State)
    requires L.Shaped(c, s) && IsProposer(c.id) && Q.Shaped(Q.System(c.n, i), q) && LeaderStands(c, i, s, q)
    ensures Moves(Q.System(c.n, i), h, c.id, q, q') && LeaderStands(c, i, L.RestartFrom(c, s, j), q')
    decreases L.Remaining(j, s.lastToCheck)
  {
    q' := q;
    if j > s.lastToCheck {
    } else {
      var k := j % c.size;
      if s.slots[k].iid == j && s.slots[k].status == L.Pending {
        var q1 := RestartingStands(c, h, i, s, k, q);
        var slot := L.Restarted(c.n, s.slots[k]);
        q' := RestartFromStands(c, h, i, L.AddPrepare(s.(slots := s.slots[k := slot]), Prepare(slot.iid, slot.ballot)),
                                j + 1, q1);
      } else {
        q' := RestartFromStands(c, h, i, s, j + 1, q);
      }
    }
  }

  lemma Phase1CheckStands(c: L.Config, h: Q.Provisos, i: nat, s: L.State, q: Q.State) returns (q': Q.State)
    requires L.Shaped(c, s) && IsProposer(c.id) && Q.Shaped(Q.System(c.n, i), q) && LeaderStands(c, i, s, q)
    requires s.highestReady >= -1
    ensures Moves(Q.System(c.n, i), h, c.id, q, q') && LeaderStands(c, i, L.Phase1Check(c, s), q')
  {
    var s0 := s.(batch := []);
    var q1 := RestartFromStands(c, h, i, s0, s.firstToCheck, q);
    W.RestartKeepsInstances(c, s0, s.firstToCheck);
    var s1 := L.RestartFrom(c, s0, s.firstToCheck);
    if s1.pendingCount + s1.readyCount < c.window / 2 {
      q' := ExecutePhase1Stands(c, h, i, s1, q1);
      FlushingStands(c, i, L.ExecutePhase1(c, s1), q');
    } else {
      q' := q1;
      FlushingStands(c, i, s1, q');
    }
  }

  lemma Phase2CheckStands(c: L.Config, h: Q.Provisos, i: nat, s: L.State, q: Q.State) returns (q': Q.State)
    requires L.Shaped(c, s) && IsProposer(c.id) && Q.Shaped(Q.System(c.n, i), q) && LeaderStands(c, i, s, q)
    requires W.Conserved(c, s) && L.CheckHolds(c, s)
    ensures Moves(Q.System(c.n, i), h, c.id, q, q') && LeaderStands(c, i, L.Phase2Check(c, s), q')
  {
    q' := q;
    if s.currentIid == s.checkedIid {
      var k := s.currentIid % c.size;
      var s0 := s.(batch := []);
      q' := RestartingStands(c, h, i, s0, k, q);
      var slot := L.Restarted(c.n, s.slots[k]);
      var s1 := L.AddPrepare(s0.(slots := s.slots[k := slot]), Prepare(slot.iid, slot.ballot));
      FlushingStands(c, i, s1, q');
      assert L.Phase2Check(c, s).slots == s1.slots && L.Phase2Check(c, s).sent == L.FlushPrepares(s1).sent;
    }
  }

  // ---------- promises ----------

  lemma TakingStands(c: L.Config, h: Q.Provisos, i: nat, s: L.State, a: int, p: Promise, q: Q.State)
    returns (q': Q.State)
    requires L.Shaped(c, s) && IsProposer(c.id) && Q.Shaped(Q.System(c.n, i), q) && LeaderStands(c, i, s, q)
    requires 0 <= a < c.n && (p.iid == i ==> Q.MPromise(a, p) in q.net)
    ensures Moves(Q.System(c.n, i), h, c.id, q, q') && LeaderStands(c, i, L.HandlePromise(c, s, a, p), q')
  {
    var sys := Q.System(c.n, i);
    if p.iid == i {
      q' := Q.Apply(sys, q, Q.TakePromise(c.id, a, p));
      MovesOn(sys, h, c.id, q, Q.TakePromise(c.id, a, p));
    } else {
      q' := q;
    }
  }

  lemma {:induction false} TakingAllStands(c: L.Config, h: Q.Provisos, i: nat, s: L.State, a: int, ps: seq<Promise>,
                                           q: Q.State) returns (q': Q.State)
    requires L.Shaped(c, s) && IsProposer(c.id) && Q.Shaped(Q.System(c.n, i), q) && LeaderStands(c, i, s, q)
    requires 0 <= a < c.n && forall p :: p in ps && p.iid == i ==> Q.MPromise(a, p) in q.net
    ensures Moves(Q.System(c.n, i), h, c.id, q, q') && LeaderStands(c, i, L.HandlePromises(c, s, a, ps), q')
    decreases |ps|
  {
    q' := q;
    if ps == [] {
    } else {
      var q1 := TakingStands(c, h, i, s, a, ps[0], q);
      q' := TakingAllStands(c, h, i, L.HandlePromise(c, s, a, ps[0]), a, ps[1..], q1);
    }
  }

  // ---------- phase 2 ----------

  /** Sending the ANYVAL packet being filled: for instance i it is a stray one, whatever record it was meant for. */
  lemma AnyvalsStand(c: L.Config, h: Q.Provisos, i: nat, s: L.State, q: Q.State) returns (q': Q.State)
    requires L.Shaped(c, s) && IsProposer(c.id) && Q.Shaped(Q.System(c.n, i), q) && LeaderStands(c, i, s, q)
    ensures Moves(Q.System(c.n, i), h, c.id, q, q') && LeaderStands(c, i, L.FlushAnyvals(s), q')
  {
    var sys := Q.System(c.n, i);
    q' := Q.Apply(sys, q, Q.Stray(s.anyBallot));
    MovesOn(sys, h, c.id, q, Q.Stray(s.anyBallot));
    LeaderStaysStanding(c, i, s, q, q');
  }

  lemma AddAnyvalStands(c: L.Config, h: Q.Provisos, i: nat, s: L.State, j: int, ballot: int, q: Q.State)
    returns (q': Q.State)
    requires L.Shaped(c, s) && IsProposer(c.id) && Q.Shaped(Q.System(c.n, i), q) && LeaderStands(c, i, s, q)
    ensures Moves(Q.System(c.n, i), h, c.id, q, q') && LeaderStands(c, i, L.AddAnyval(s, j, ballot), q')
  {
    var s1 := s.(anyBallot := L.Max(s.anyBallot, ballot), anyIids := s.anyIids + [j]);
    q' := q;
    if L.AnyvalPacketSize(|s1.anyIids|) + INT_SIZE > MAX_UDP_MSG_SIZE {
      q' := AnyvalsStand(c, h, i, s1, q);
    }
  }

  /** The record in slot k is finished; so is the record of i if it is in the slot, and its ACCEPT is sent. */
  lemma FinishingStands(c: L.Config, h: Q.Provisos, i: nat, s: L.State, k: nat, q: Q.State) returns (q': Q.State)
    requires L.Shaped(c, s) && IsProposer(c.id) && Q.Shaped(Q.System(c.n, i), q) && LeaderStands(c, i, s, q)
    requires k < c.size && s.slots[k].status == L.Ready && s.slots[k].iid % c.size == k
    ensures Moves(Q.System(c.n, i), h, c.id, q, q')
    ensures LeaderStands(c, i, s.(slots := s.slots[k := s.slots[k].(status := L.Finished)]), q')
    ensures var slot := s.slots[k];
            L.Choose(slot.promises).Some? && slot.iid == i ==>
              Q.MAccept(L.AcceptOf(slot, L.Choose(slot.promises).value)) in q'.net
  {
    var sys, slot := Q.System(c.n, i), s.slots[k];
    if slot.iid == i {
      q' := Q.Apply(sys, q, Q.Decide(c.id, slot.ballot));
      MovesOn(sys, h, c.id, q, Q.Decide(c.id, slot.ballot));
    } else {
      q' := q;
    }
    PacketsStayStanding(i, s.sent, q.net, q'.net);
    PacketStaysStanding(i, L.Prepares(s.batch), q.net, q'.net);
  }

  lemma DecidingStands(c: L.Config, h: Q.Provisos, i: nat, s: L.State, j: int, q: Q.State) returns (q': Q.State)
    requires L.Shaped(c, s) && IsProposer(c.id) && Q.Shaped(Q.System(c.n, i), q) && LeaderStands(c, i, s, q)
    requires s.slots[j % c.size].status == L.Ready && s.slots[j % c.size].iid % c.size == j % c.size
    ensures Moves(Q.System(c.n, i), h, c.id, q, q') && LeaderStands(c, i, L.Decide(c, s, j), q')
  {
    var k := j % c.size;
    var slot := s.slots[k];
    var choice := L.Choose(slot.promises);
    q' := FinishingStands(c, h, i, s, k, q);
    var s1 := s.(slots := s.slots[k := slot.(status := L.Finished)]);
    if choice.None? {
      q' := AddAnyvalStands(c, h, i, s1, j, slot.ballot, q');
      assert L.Decide(c, s, j).sent == L.AddAnyval(s1, j, slot.ballot).sent;
    } else {
      assert PacketStands(i, L.AcceptPacket(L.AcceptOf(slot, choice.value)), q'.net);
    }
  }

  /** Every slot in use holds an instance of its own. */
  predicate InPlace(c: L.Config, slots: seq<L.Slot>)
    requires c.size > 0
  {
    forall k :: 0 <= k < |slots| && slots[k].status != L.New ==> slots[k].iid % c.size == k
  }

  lemma {:induction false} DecideFromStands(c: L.Config, h: Q.Provisos, i: nat, s: L.State, j: int, last: int,
                                            q: Q.State) returns (q': Q.State)
    requires L.Shaped(c, s) && IsProposer(c.id) && Q.Shaped(Q.System(c.n, i), q) && LeaderStands(c, i, s, q)
    requires InPlace(c, s.slots)
    ensures Moves(Q.System(c.n, i), h, c.id, q, q') && LeaderStands(c, i, L.DecideFrom(c, s, j, last), q')
    decreases L.Remaining(j, last)
  {
    q' := q;
    if j > last {
    } else {
      if s.slots[j % c.size].status != L.Ready {
        q' := DecideFromStands(c, h, i, s, j + 1, last, q);
      } else {
        var q1 := DecidingStands(c, h, i, s, j, q);
        q' := DecideFromStands(c, h, i, L.Decide(c, s, j), j + 1, last, q1);
      }
    }
  }

  lemma HandlePromiseMsgStands(c: L.Config, h: Q.Provisos, i: nat, s: L.State, a: int, ps: seq<Promise>, q: Q.State)
    returns (q': Q.State)
    requires L.Shaped(c, s) && IsProposer(c.id) && Q.Shaped(Q.System(c.n, i), q) && LeaderStands(c, i, s, q)
    requires W.Conserved(c, s) && 0 <= a < c.n && forall p :: p in ps && p.iid == i ==> Q.MPromise(a, p) in q.net
    ensures Moves(Q.System(c.n, i), h, c.id, q, q') && LeaderStands(c, i, L.HandlePromiseMsg(c, s, a, ps), q')
  {
    q' := TakingAllStands(c, h, i, s, a, ps, q);
    W.HandlePromisesConserves(c, s, a, ps);
    var s1 := L.HandlePromises(c, s, a, ps).(anyBallot := -1, anyIids := []);
    q' := DecideFromStands(c, h, i, s1, L.FirstIid(ps), L.LastIid(ps), q');
    var s2 := L.DecideFrom(c, s1, L.FirstIid(ps), L.LastIid(ps));
    if |s2.anyIids| > 0 {
      q' := AnyvalsStand(c, h, i, s2, q');
    }
  }

  /** Every handler call of a leader is, seen from instance i, a run of the protocol by that leader. */
  lemma LeaderStepStands(c: L.Config, h: Q.Provisos, i: nat, s: L.State, e: W.Event, q: Q.State) returns (q': Q.State)
    requires L.Shaped(c, s) && IsProposer(c.id) && Q.Shaped(Q.System(c.n, i), q) && LeaderStands(c, i, s, q)
    requires W.Conserved(c, s) && W.FromAcceptor(c, e) && W.Step(c, s, e).Some?
    requires e.Promises? ==> forall p :: p in e.promises && p.iid == i ==> Q.MPromise(e.acceptorId, p) in q.net
    ensures Moves(Q.System(c.n, i), h, c.id, q, q') && LeaderStands(c, i, W.Step(c, s, e).value, q')
  {
    match e
    case Delivered(_) => q' := q;
    case Phase1Timer => q' := Phase1CheckStands(c, h, i, s, q);
    case Promises(a, ps) => q' := HandlePromiseMsgStands(c, h, i, s, a, ps, q);
    case Phase2Timer => q' := Phase2CheckStands(c, h, i, s, q);
  }

  // ---------- the whole state ----------

  /** What acceptor a has answered for instance i is on the network. */
  predicate AnswersStand(i: nat, a: int, acc: D.Site, net: set<Q.Msg>) {
    && (forall p :: p in acc.promises && p.iid == i ==> Q.MPromise(a, p) in net)
    && (forall m :: m in acc.learns && m.iid == i ==> Q.MLearn(m) in net)
  }

  /**
   * The record of instance i: up to its turn the slot serves earlier instances and the database does not know it;
   * then slot and database have it; once evicted, the database alone, if it ever was there.
   */
  predicate RecordStands(i: nat, m: C.Memory, record: A.Record, evicted: bool)
    requires |m.slots| > 0
  {
    var r := C.SlotOf(m, i);
    && (evicted <==> C.Behind(m, i))
    && (r.iid < i ==> record == r && i !in m.disk)
    && (r.iid == i ==> record == r && i in m.disk && m.disk[i] == C.Flatten(r))
    && (r.iid > i && i in m.disk ==> record.iid == i && C.Flatten(record) == m.disk[i])
    && (r.iid > i && i !in m.disk ==> record == A.EMPTY)
  }

  predicate AcceptorStands(i: nat, a: int, acc: D.Site, q: Q.State)
    requires 0 <= a < |q.accs| && |q.evicted| == |q.accs| && |acc.memory.slots| > 0
  {
    RecordStands(i, acc.memory, q.accs[a], q.evicted[a]) && AnswersStand(i, a, acc, q.net)
  }

  /** What proposer p has sent for instance i is on the network, and is its one value for it. */
  predicate ProposerStands(i: nat, p: int, s: P.State, q: Q.State)
    requires 0 <= p < |q.values|
  {
    && (forall m :: m in s.sent && m.iid == i ==> Q.MAccept(m) in q.net && q.values[p] == Some(m.value))
    && (q.values[p].Some? ==> exists m :: m in s.sent && m.iid == i)
  }

  /** The protocol state q is what the system state s is for instance i. */
  ghost predicate Stands(u: D.Setup, i: nat, s: D.State, q: Q.State)
    requires D.Shaped(u, s)
  {
    && Q.Shaped(Instance(u, i), q)
    && (forall a :: 0 <= a < u.n ==> AcceptorStands(i, a, s.acceptors[a], q))
    && (forall l :: 0 <= l < MAX_PROPOSERS ==> LeaderStands(D.LeaderConfig(u, l), i, s.leaders[l], q))
    && (forall p :: 0 <= p < MAX_PROPOSERS ==> ProposerStands(i, p, s.proposers[p], q))
  }

  /** What every leader and every proposer keeps. */
  ghost predicate InOrder(u: D.Setup, s: D.State)
    requires D.Shaped(u, s)
  {
    && (forall l :: 0 <= l < MAX_PROPOSERS ==>
          W.Conserved(D.LeaderConfig(u, l), s.leaders[l]) && W.Bounded(D.LeaderConfig(u, l), s.leaders[l]))
    && (forall p :: 0 <= p < MAX_PROPOSERS ==> P.Orderly(s.proposers[p]) && s.proposers[p].id == p)
  }

  lemma InitIsInOrder(u: D.Setup)
    requires u.Works()
    ensures InOrder(u, D.Init(u))
  {
    forall l | 0 <= l < MAX_PROPOSERS
      ensures var c := D.LeaderConfig(u, l); W.Conserved(c, L.Init(c)) && W.Bounded(c, L.Init(c))
    {
      W.InitConserves(D.LeaderConfig(u, l));
    }
  }

  lemma StepKeepsInOrder(u: D.Setup, s: D.State, e: D.Event)
    requires D.Shaped(u, s) && InOrder(u, s)
    ensures InOrder(u, D.Apply(u, s, e))
  {
    if D.Enabled(u, s, e) {
      match e
      case AtLeader(l, t) => W.StepConserves(D.LeaderConfig(u, l), s.leaders[l], t);
      case AtProposer(p, t) => P.StepIsOrderly(s.proposers[p], t);
      case _ =>
    }
  }

  lemma {:induction false} RunsAreInOrder(u: D.Setup, es: seq<D.Event>)
    requires u.Works()
    ensures InOrder(u, D.Exec(u, es))
  {
    if es == [] {
      InitIsInOrder(u);
    } else {
      RunsAreInOrder(u, es[..|es| - 1]);
      StepKeepsInOrder(u, D.Exec(u, es[..|es| - 1]), es[|es| - 1]);
    }
  }

  // ---------- the start ----------

  /** The leaders below m have sent their first requests. */
  lemma {:induction false} LeadersStart(u: D.Setup, h: Q.Provisos, i: nat, m: nat) returns (q: Q.State)
    requires u.Works() && m <= MAX_PROPOSERS
    ensures Q.Shaped(Instance(u, i), q) && Q.Reachable(Instance(u, i), h, q)
    ensures q.accs == Q.Init(Instance(u, i)).accs && q.evicted == Q.Init(Instance(u, i)).evicted
    ensures q.values == Q.Init(Instance(u, i)).values
    ensures forall l :: 0 <= l < m ==> LeaderStands(D.LeaderConfig(u, l), i, L.Init(D.LeaderConfig(u, l)), q)
    ensures forall l :: m <= l < MAX_PROPOSERS ==> q.leaders[l].status == L.New
  {
    var sys := Instance(u, i);
    if m == 0 {
      q := Q.Init(sys);
      Q.InitIsReachable(sys, h);
    } else {
      var q0 := LeadersStart(u, h, i, m - 1);
      var c := D.LeaderConfig(u, m - 1);
      q := ExecutePhase1Stands(c, h, i, L.Blank(c), q0);
      forall l | 0 <= l < m ensures LeaderStands(D.LeaderConfig(u, l), i, L.Init(D.LeaderConfig(u, l)), q) {
        if l < m - 1 {
          LeaderStaysStanding(D.LeaderConfig(u, l), i, L.Init(D.LeaderConfig(u, l)), q0, q);
        }
      }
    }
  }

  lemma SystemStarts(u: D.Setup, h: Q.Provisos, i: nat) returns (q: Q.State)
    requires u.Works()
    ensures Stands(u, i, D.Init(u), q) && Q.Reachable(Instance(u, i), h, q)
  {
    q := LeadersStart(u, h, i, MAX_PROPOSERS);
  }

  // ---------- one step ----------

  /** Everybody but one stays in place when the network grows and their own parts do not change. */
  lemma OthersStand(u: D.Setup, i: nat, s: D.State, q: Q.State, q': Q.State)
    requires D.Shaped(u, s) && Stands(u, i, s, q) && Q.Shaped(Instance(u, i), q') && q.net <= q'.net
    ensures forall a :: 0 <= a < u.n && q'.accs[a] == q.accs[a] && q'.evicted[a] == q.evicted[a] ==>
      AcceptorStands(i, a, s.acceptors[a], q')
    ensures forall l :: 0 <= l < MAX_PROPOSERS && q'.leaders[l] == q.leaders[l] ==>
      LeaderStands(D.LeaderConfig(u, l), i, s.leaders[l], q')
    ensures forall p :: 0 <= p < MAX_PROPOSERS && q'.values[p] == q.values[p] ==>
      ProposerStands(i, p, s.proposers[p], q')
  {
    forall l | 0 <= l < MAX_PROPOSERS && q'.leaders[l] == q.leaders[l]
      ensures LeaderStands(D.LeaderConfig(u, l), i, s.leaders[l], q')
    {
      LeaderStaysStanding(D.LeaderConfig(u, l), i, s.leaders[l], q, q');
    }
    forall a | 0 <= a < u.n && q'.accs[a] == q.accs[a] && q'.evicted[a] == q.evicted[a]
      ensures AcceptorStands(i, a, s.acceptors[a], q')
    {
      assert AcceptorStands(i, a, s.acceptors[a], q);
    }
    forall p | 0 <= p < MAX_PROPOSERS && q'.values[p] == q.values[p] ensures ProposerStands(i, p, s.proposers[p], q') {
      assert ProposerStands(i, p, s.proposers[p], q);
    }
  }

  lemma LeaderTurnStands(u: D.Setup, h: Q.Provisos, i: nat, s: D.State, l: int, t: W.Event, q: Q.State)
    returns (q': Q.State)
    requires D.Shaped(u, s) && InOrder(u, s) && Stands(u, i, s, q) && Q.Reachable(Instance(u, i), h, q)
    requires D.Enabled(u, s, D.AtLeader(l, t))
    ensures D.Shaped(u, D.Apply(u, s, D.AtLeader(l, t))) && Stands(u, i, D.Apply(u, s, D.AtLeader(l, t)), q')
    ensures Q.Reachable(Instance(u, i), h, q')
  {
    var c := D.LeaderConfig(u, l);
    q' := q;
    if W.Step(c, s.leaders[l], t).Some? {
      if t.Promises? {
        assert AcceptorStands(i, t.acceptorId, s.acceptors[t.acceptorId], q);
      }
      q' := LeaderStepStands(c, h, i, s.leaders[l], t, q);
      OthersStand(u, i, s, q, q');
    }
  }

  /** What a step of a proposer adds to what it sent: nothing, or one accept. */
  lemma ProposerSends(s: P.State, t: P.Event)
    requires P.Step(s, t).Some?
    ensures var sent := P.Step(s, t).value.sent; sent == s.sent || sent == s.sent + [sent[|sent| - 1]]
  {
  }

  /** The accept a proposer adds for instance i is one that the protocol lets it submit. */
  lemma SubmittingStands(i: nat, n: nat, s: P.State, m: Accept, t: P.State, q: Q.State)
    requires Q.Shaped(Q.System(n, i), q) && IsProposer(s.id) && t.id == s.id
    requires ProposerStands(i, s.id, s, q) && P.Orderly(t) && t.sent == s.sent + [m] && m.iid == i
    ensures var sys := Q.System(n, i);
            && Q.Enabled(sys, q, Q.Submit(s.id, m.value)) && m == Q.FastAccept(sys, s.id, m.value)
            && ProposerStands(i, s.id, t, Q.Apply(sys, q, Q.Submit(s.id, m.value)))
  {
    assert m == t.sent[|s.sent|] && m in t.sent;
    if q.values[s.id].Some? {
      var m' :| m' in s.sent && m'.iid == i;
      assert m' in t.sent && m' == m;
    }
    forall x | x in t.sent && x.iid == i ensures x == m {}
  }

  lemma ProposerTurnStands(u: D.Setup, h: Q.Provisos, i: nat, s: D.State, p: int, t: P.Event, q: Q.State)
    returns (q': Q.State)
    requires D.Shaped(u, s) && InOrder(u, s) && Stands(u, i, s, q) && Q.Reachable(Instance(u, i), h, q)
    requires D.Enabled(u, s, D.AtProposer(p, t))
    ensures Stands(u, i, D.Apply(u, s, D.AtProposer(p, t)), q') && Q.Reachable(Instance(u, i), h, q')
  {
    q' := q;
    var r := P.Step(s.proposers[p], t);
    if r.Some? {
      ProposerSends(s.proposers[p], t);
      P.StepIsOrderly(s.proposers[p], t);
      var sent := r.value.sent;
      assert ProposerStands(i, p, s.proposers[p], q);
      if sent != s.proposers[p].sent && sent[|sent| - 1].iid == i {
        var m := sent[|sent| - 1];
        SubmittingStands(i, u.n, s.proposers[p], m, r.value, q);
        q' := Q.Apply(Instance(u, i), q, Q.Submit(p, m.value));
        Q.StepIsReachable(Instance(u, i), h, q, Q.Submit(p, m.value));
      } else {
        assert ProposerStands(i, p, r.value, q);
      }
      ProposerMoves(u, i, s, p, r.value, q, q');
    }
  }

  /** One proposer moves on, and the protocol with it. */
  lemma ProposerMoves(u: D.Setup, i: nat, s: D.State, p: int, t: P.State, q: Q.State, q': Q.State)
    requires D.Shaped(u, s) && Stands(u, i, s, q) && IsProposer(p) && Q.Shaped(Instance(u, i), q')
    requires q.net <= q'.net && q'.accs == q.accs && q'.evicted == q.evicted && q'.leaders == q.leaders
    requires forall k :: 0 <= k < MAX_PROPOSERS && k != p ==> q'.values[k] == q.values[k]
    requires ProposerStands(i, p, t, q')
    ensures Stands(u, i, s.(proposers := s.proposers[p := t]), q')
  {
    OthersStand(u, i, s, q, q');
  }

  lemma SentIsOnNetwork(u: D.Setup, i: nat, s: D.State, q: Q.State)
    requires D.Shaped(u, s) && Stands(u, i, s, q)
    ensures forall p: Prepare :: p.iid == i && D.SentPrepare(s, p) ==> Q.MPrepare(p) in q.net
    ensures forall m: Accept :: m.iid == i && D.SentAccept(s, m) ==> Q.MAccept(m) in q.net
    ensures forall b :: D.SentAnyval(s, i, b) ==> Q.MAnyval(b) in q.net
  {
    forall l, k | 0 <= l < MAX_PROPOSERS && 0 <= k < |s.leaders[l].sent|
      ensures PacketStands(i, s.leaders[l].sent[k], q.net)
    {
      assert LeaderStands(D.LeaderConfig(u, l), i, s.leaders[l], q);
    }
    forall m: Accept | m.iid == i && D.SentAccept(s, m) ensures Q.MAccept(m) in q.net {
      if l :| 0 <= l < MAX_PROPOSERS && L.AcceptPacket(m) in s.leaders[l].sent {
        var k :| 0 <= k < |s.leaders[l].sent| && s.leaders[l].sent[k] == L.AcceptPacket(m);
        assert PacketStands(i, s.leaders[l].sent[k], q.net);
      } else {
        var p :| 0 <= p < MAX_PROPOSERS && m in s.proposers[p].sent;
        assert ProposerStands(i, p, s.proposers[p], q);
      }
    }
  }

  function InstanceOf(e: D.Event): int
    requires !e.AtLeader? && !e.AtProposer?
  {
    match e
    case OnPrepare(_, p) => p.iid
    case OnAccept(_, m, _) => m.iid
    case OnAnyval(_, i, _, _) => i
    case OnLsync(_, i, _) => i
  }

  /** A run of the protocol leads from q to q', in which only acceptor a does anything. */
  ghost predicate Turns(sys: Q.System, h: Q.Provisos, a: int, q: Q.State, q': Q.State) {
    && Q.Shaped(sys, q) && Q.Shaped(sys, q')
    && (Q.Reachable(sys, h, q) ==> Q.Reachable(sys, h, q'))
    && q'.leaders == q.leaders && q'.values == q.values && q.net <= q'.net
    && (forall k :: 0 <= k < sys.n && k != a ==> q'.accs[k] == q.accs[k] && q'.evicted[k] == q.evicted[k])
  }

  lemma TurnsOn(sys: Q.System, h: Q.Provisos, a: int, q: Q.State, e: Q.Event)
    requires Q.Shaped(sys, q) && Q.IsAcceptor(sys, a) && Q.Permitted(sys, h, q, e)
    requires e.OnPrepare? || e.OnAccept? || e.OnAnyval? || e.OnLsync? || e.Reuse? || e.Evict? || e.Fetch?
    requires e.acc == a
    ensures Turns(sys, h, a, q, Q.Apply(sys, q, e))
  {
    if Q.Reachable(sys, h, q) {
      Q.StepIsReachable(sys, h, q, e);
    }
  }

  // ---------- events for other instances ----------

  /** The slot of instance i, if the event's instance shares it, moves on to that one or stays. */
  predicate SlotMoves(i: nat, r: A.Record, r': A.Record) {
    r' == r || (r'.iid >= r.iid && r'.iid != i)
  }

  /** The slot of instance i is reused by another instance, earlier or later. */
  lemma OtherSlotStands(sys: Q.System, h: Q.Provisos, a: int, m: C.Memory, m': C.Memory, q: Q.State)
    returns (q': Q.State)
    requires Q.Shaped(sys, q) && Q.IsAcceptor(sys, a) && |m.slots| == |m'.slots| > 0
    requires RecordStands(sys.inst, m, q.accs[a], q.evicted[a])
    requires SlotMoves(sys.inst, C.SlotOf(m, sys.inst), C.SlotOf(m', sys.inst))
    requires sys.inst in m'.disk <==> sys.inst in m.disk
    requires sys.inst in m.disk ==> m'.disk[sys.inst] == m.disk[sys.inst]
    ensures Turns(sys, h, a, q, q') && RecordStands(sys.inst, m', q'.accs[a], q'.evicted[a])
  {
    var i := sys.inst;
    var r, r' := C.SlotOf(m, i), C.SlotOf(m', i);
    if r == r' || r.iid > i {
      q' := q;
    } else if r'.iid < i {
      q' := Q.Apply(sys, q, Q.Reuse(a, r'));
      TurnsOn(sys, h, a, q, Q.Reuse(a, r'));
    } else {
      q' := Q.Apply(sys, q, Q.Evict(a));
      TurnsOn(sys, h, a, q, Q.Evict(a));
    }
  }

  /** What an event for another instance does to an acceptor, seen from instance i. */
  lemma OtherEventMoves(u: D.Setup, i: nat, s: D.State, e: D.Event)
    requires D.Shaped(u, s) && !e.AtLeader? && !e.AtProposer? && D.Enabled(u, s, e) && InstanceOf(e) != i
    ensures var acc, acc' := s.acceptors[e.acc], D.Apply(u, s, e).acceptors[e.acc];
            && SlotMoves(i, C.SlotOf(acc.memory, i), C.SlotOf(acc'.memory, i))
            && (i in acc'.memory.disk <==> i in acc.memory.disk)
            && (i in acc.memory.disk ==> acc'.memory.disk[i] == acc.memory.disk[i])
            && (forall p :: p in acc'.promises && p.iid == i ==> p in acc.promises)
            && (forall m :: m in acc'.learns && m.iid == i ==> m in acc.learns)
  {
  }

  lemma OtherInstanceStands(u: D.Setup, h: Q.Provisos, i: nat, s: D.State, e: D.Event, q: Q.State) returns (q': Q.State)
    requires D.Shaped(u, s) && Q.Shaped(Instance(u, i), q) && !e.AtLeader? && !e.AtProposer?
    requires D.Enabled(u, s, e) && InstanceOf(e) != i && AcceptorStands(i, e.acc, s.acceptors[e.acc], q)
    ensures Turns(Instance(u, i), h, e.acc, q, q')
    ensures AcceptorStands(i, e.acc, D.Apply(u, s, e).acceptors[e.acc], q')
  {
    var acc, acc' := s.acceptors[e.acc], D.Apply(u, s, e).acceptors[e.acc];
    OtherEventMoves(u, i, s, e);
    q' := OtherSlotStands(Instance(u, i), h, e.acc, acc.memory, acc'.memory, q);
  }

  // ---------- events for the instance itself ----------

  /** The protocol's record of an instance that has been reached is what the database says. */
  predicate Sound(sys: Q.System, r: A.Record) {
    r.iid == sys.inst ==> (r.value.None? <==> r.valueBallot == -1)
  }

  lemma ReachedIsSound(sys: Q.System, h: Q.Provisos, q: Q.State, a: int)
    requires Q.Reachable(sys, h, q) && Q.Shaped(sys, q) && Q.IsAcceptor(sys, a)
    ensures Sound(sys, q.accs[a])
  {
    var es :| Q.Legal(sys, h, es) && Q.Exec(sys, es) == q;
    Agreement.RunsKeepOnlySubmitted(sys, es);
    assert Agreement.HoldsSubmitted(sys, q, q.accs[a]);
  }

  /** A record fetched back comes with whatever bit and proposer id memory had. */
  lemma FetchStands(sys: Q.System, h: Q.Provisos, a: int, m: C.Memory, any: bool, proposerId: int, q: Q.State)
    returns (q': Q.State)
    requires Q.Shaped(sys, q) && Q.IsAcceptor(sys, a) && |m.slots| > 0 && Sound(sys, q.accs[a])
    requires RecordStands(sys.inst, m, q.accs[a], q.evicted[a])
    requires C.Behind(m, sys.inst) && sys.inst in m.disk
    requires h.fetchSpares ==> FetchSpares(m, sys.inst, any)
    ensures Turns(sys, h, a, q, q') && q'.net == q.net && Sound(sys, q'.accs[a])
    ensures q'.accs[a] == q.accs[a].(anyEnabled := any, proposerId := proposerId) && q'.evicted[a]
    ensures RecordStands(sys.inst, m, q'.accs[a], q'.evicted[a])
  {
    q' := Q.Apply(sys, q, Q.Fetch(a, any, proposerId));
    TurnsOn(sys, h, a, q, Q.Fetch(a, any, proposerId));
  }

  lemma OwnPrepareStands(u: D.Setup, h: Q.Provisos, i: nat, s: D.State, e: D.Event, q: Q.State) returns (q': Q.State)
    requires D.Shaped(u, s) && e.OnPrepare? && D.Enabled(u, s, e) && InstanceOf(e) == i && Stands(u, i, s, q)
    requires Sound(Instance(u, i), q.accs[e.acc])
    ensures Turns(Instance(u, i), h, e.acc, q, q') && AcceptorStands(i, e.acc, D.Apply(u, s, e).acceptors[e.acc], q')
  {
    SentIsOnNetwork(u, i, s, q);
    assert AcceptorStands(i, e.acc, s.acceptors[e.acc], q);
    q' := Q.Apply(Instance(u, i), q, Q.OnPrepare(e.acc, e.prepare));
    TurnsOn(Instance(u, i), h, e.acc, q, Q.OnPrepare(e.acc, e.prepare));
  }

  /** An accept does to the record, and answers, what the protocol's acceptor does. */
  lemma AcceptedStands(sys: Q.System, m: C.Memory, any: bool, id: int, a: Accept, r: A.Record, evicted: bool)
    requires |m.slots| > 0 && RecordStands(sys.inst, m, r, evicted) && Sound(sys, r) && a.iid == sys.inst
    requires C.Behind(m, sys.inst) && sys.inst in m.disk ==> r.anyEnabled == any
    ensures RecordStands(sys.inst, C.AfterAccept(m, any, a), A.Accepted(r, a), evicted)
    ensures C.AcceptAnswer(m, any, id, a) == if A.AdmitsAccept(r, a) then [A.LearnOf(id, A.Accepted(r, a))] else []
  {
  }

  lemma OwnAcceptStands(u: D.Setup, h: Q.Provisos, i: nat, s: D.State, e: D.Event, q: Q.State) returns (q': Q.State)
    requires D.Shaped(u, s) && e.OnAccept? && D.Enabled(u, s, e) && Permitted(u, h, s, e) && InstanceOf(e) == i
    requires Stands(u, i, s, q) && Sound(Instance(u, i), q.accs[e.acc])
    ensures Turns(Instance(u, i), h, e.acc, q, q') && AcceptorStands(i, e.acc, D.Apply(u, s, e).acceptors[e.acc], q')
  {
    SentIsOnNetwork(u, i, s, q);
    assert AcceptorStands(i, e.acc, s.acceptors[e.acc], q);
    var m, q1 := s.acceptors[e.acc].memory, q;
    if C.Behind(m, i) && i in m.disk {
      q1 := FetchStands(Instance(u, i), h, e.acc, m, e.any, 0, q);
    }
    AcceptedStands(Instance(u, i), m, e.any, e.acc, e.accept, q1.accs[e.acc], q1.evicted[e.acc]);
    q' := Q.Apply(Instance(u, i), q1, Q.OnAccept(e.acc, e.accept));
    TurnsOn(Instance(u, i), h, e.acc, q1, Q.OnAccept(e.acc, e.accept));
  }

  lemma OwnAnyvalStands(u: D.Setup, h: Q.Provisos, i: nat, s: D.State, e: D.Event, q: Q.State) returns (q': Q.State)
    requires D.Shaped(u, s) && e.OnAnyval? && D.Enabled(u, s, e) && Permitted(u, h, s, e) && InstanceOf(e) == i
    requires Stands(u, i, s, q) && Sound(Instance(u, i), q.accs[e.acc])
    ensures Turns(Instance(u, i), h, e.acc, q, q') && AcceptorStands(i, e.acc, D.Apply(u, s, e).acceptors[e.acc], q')
  {
    SentIsOnNetwork(u, i, s, q);
    assert AcceptorStands(i, e.acc, s.acceptors[e.acc], q);
    var m, q1 := s.acceptors[e.acc].memory, q;
    if C.Behind(m, i) && i in m.disk {
      q1 := FetchStands(Instance(u, i), h, e.acc, m, e.any, 0, q);
    }
    q' := Q.Apply(Instance(u, i), q1, Q.OnAnyval(e.acc, e.ballot));
    TurnsOn(Instance(u, i), h, e.acc, q1, Q.OnAnyval(e.acc, e.ballot));
  }

  lemma OwnLsyncStands(u: D.Setup, h: Q.Provisos, i: nat, s: D.State, e: D.Event, q: Q.State) returns (q': Q.State)
    requires D.Shaped(u, s) && e.OnLsync? && D.Enabled(u, s, e) && Permitted(u, h, s, e) && InstanceOf(e) == i
    requires Stands(u, i, s, q) && Sound(Instance(u, i), q.accs[e.acc])
    ensures Turns(Instance(u, i), h, e.acc, q, q') && AcceptorStands(i, e.acc, D.Apply(u, s, e).acceptors[e.acc], q')
  {
    assert AcceptorStands(i, e.acc, s.acceptors[e.acc], q);
    var m, q1 := s.acceptors[e.acc].memory, q;
    if C.Behind(m, i) && i in m.disk {
      q1 := FetchStands(Instance(u, i), h, e.acc, m, false, e.proposerId, q);
    }
    q' := Q.Apply(Instance(u, i), q1, Q.OnLsync(e.acc));
    TurnsOn(Instance(u, i), h, e.acc, q1, Q.OnLsync(e.acc));
  }

  lemma AcceptorTurnStands(u: D.Setup, h: Q.Provisos, i: nat, s: D.State, e: D.Event, q: Q.State) returns (q': Q.State)
    requires D.Shaped(u, s) && Stands(u, i, s, q) && Q.Reachable(Instance(u, i), h, q)
    requires !e.AtLeader? && !e.AtProposer? && D.Enabled(u, s, e) && Permitted(u, h, s, e)
    ensures Stands(u, i, D.Apply(u, s, e), q') && Q.Reachable(Instance(u, i), h, q')
  {
    assert AcceptorStands(i, e.acc, s.acceptors[e.acc], q);
    ReachedIsSound(Instance(u, i), h, q, e.acc);
    if InstanceOf(e) != i {
      q' := OtherInstanceStands(u, h, i, s, e, q);
    } else {
      match e
      case OnPrepare(_, _) => q' := OwnPrepareStands(u, h, i, s, e, q);
      case OnAccept(_, _, _) => q' := OwnAcceptStands(u, h, i, s, e, q);
      case OnAnyval(_, _, _, _) => q' := OwnAnyvalStands(u, h, i, s, e, q);
      case OnLsync(_, _, _) => q' := OwnLsyncStands(u, h, i, s, e, q);
    }
    AcceptorTurnTouches(u, s, e);
    AcceptorMoves(u, h, i, s, e.acc, D.Apply(u, s, e).acceptors[e.acc], q, q');
  }

  /** One acceptor moves on, and the protocol with it. */
  lemma AcceptorMoves(u: D.Setup, h: Q.Provisos, i: nat, s: D.State, a: int, acc: D.Site, q: Q.State, q': Q.State)
    requires D.Shaped(u, s) && Stands(u, i, s, q) && 0 <= a < u.n && |acc.memory.slots| == u.slots
    requires Turns(Instance(u, i), h, a, q, q') && AcceptorStands(i, a, acc, q')
    ensures Stands(u, i, D.SetAcceptor(s, a, acc), q')
  {
    OthersStand(u, i, s, q, q');
  }

  lemma AcceptorTurnTouches(u: D.Setup, s: D.State, e: D.Event)
    requires D.Shaped(u, s) && !e.AtLeader? && !e.AtProposer? && D.Enabled(u, s, e)
    ensures var t := D.Apply(u, s, e);
            t == D.SetAcceptor(s, e.acc, t.acceptors[e.acc])
  {
  }

  lemma StepStands(u: D.Setup, h: Q.Provisos, i: nat, s: D.State, e: D.Event, q: Q.State) returns (q': Q.State)
    requires D.Shaped(u, s) && InOrder(u, s) && Stands(u, i, s, q) && Q.Reachable(Instance(u, i), h, q)
    requires Permitted(u, h, s, e)
    ensures Stands(u, i, D.Apply(u, s, e), q') && Q.Reachable(Instance(u, i), h, q')
  {
    if !D.Enabled(u, s, e) {
      q' := q;
    } else if e.AtLeader? {
      q' := LeaderTurnStands(u, h, i, s, e.leader, e.turn, q);
    } else if e.AtProposer? {
      q' := ProposerTurnStands(u, h, i, s, e.proposer, e.act, q);
    } else {
      q' := AcceptorTurnStands(u, h, i, s, e, q);
    }
  }

  // ---------- every run ----------

  lemma {:induction false} RunsStand(u: D.Setup, h: Q.Provisos, i: nat, es: seq<D.Event>) returns (q: Q.State)
    requires u.Works() && Legal(u, h, es)
    ensures Stands(u, i, D.Exec(u, es), q) && Q.Reachable(Instance(u, i), h, q)
  {
    if es == [] {
      q := SystemStarts(u, h, i);
    } else {
      var before := es[..|es| - 1];
      var q0 := RunsStand(u, h, i, before);
      RunsAreInOrder(u, before);
      q := StepStands(u, h, i, D.Exec(u, before), es[|es| - 1], q0);
    }
  }

  /** Every run of the system that keeps the provisos is, for each instance, a run of the protocol that keeps them. */
  lemma RunsProject(u: D.Setup, h: Q.Provisos, i: nat, es: seq<D.Event>) returns (ps: seq<Q.Event>)
    requires u.Works() && Legal(u, h, es)
    ensures Q.Legal(Instance(u, i), h, ps) && Stands(u, i, D.Exec(u, es), Q.Exec(Instance(u, i), ps))
  {
    var q := RunsStand(u, h, i, es);
    ps :| Q.Legal(Instance(u, i), h, ps) && Q.Exec(Instance(u, i), ps) == q;
  }

  // ---------- what follows for the system ----------

  /** The learner heard only what the acceptors sent. */
  ghost predicate Heard(s: D.State, ms: seq<Learn>) {
    forall m :: m in ms ==> exists a :: 0 <= a < |s.acceptors| && m in s.acceptors[a].learns
  }

  lemma HeardIsDrawn(u: D.Setup, i: nat, s: D.State, q: Q.State, ms: seq<Learn>)
    requires D.Shaped(u, s) && Stands(u, i, s, q) && Heard(s, ms)
    ensures Agreement.DrawnFrom(Instance(u, i), q, ms)
  {
    forall m | m in ms && m.iid == i ensures Q.MLearn(m) in q.net {
      var a :| 0 <= a < |s.acceptors| && m in s.acceptors[a].learns;
      assert AcceptorStands(i, a, s.acceptors[a], q);
    }
  }

  /** Two logs have the same instances and values, as far as both have got. */
  predicate SameValues(log: seq<M.Delivery>, log': seq<M.Delivery>) {
    forall i :: 0 <= i < |log| && i < |log'| ==> log[i].iid == log'[i].iid == i && log[i].value == log'[i].value
  }

  /** Under these provisos two learners agree. */
  predicate Suffice(n: nat, h: Q.Provisos) {
    h.Spare() && h.lsyncHeld && (n == 1 || (h.lsyncCurrent && n <= 3))
  }

  /** Agreement of the whole system: two learners deliver the same values in the same order, as far as both have got. */
  lemma SystemAgrees(u: D.Setup, h: Q.Provisos, es: seq<D.Event>, w: nat, ms: seq<Learn>, w': nat, ms': seq<Learn>)
    requires u.Works() && Suffice(u.n, h) && Legal(u, h, es)
    requires Heard(D.Exec(u, es), ms) && Heard(D.Exec(u, es), ms')
    ensures SameValues(M.Run(u.n, w, ms).log, M.Run(u.n, w', ms').log)
  {
    var log, log' := M.Run(u.n, w, ms).log, M.Run(u.n, w', ms').log;
    M.DeliversInOrder(u.n, w, ms);
    M.DeliversInOrder(u.n, w', ms');
    forall i | 0 <= i < |log| && i < |log'| ensures log[i].value == log'[i].value {
      var ps := RunsProject(u, h, i, es);
      HeardIsDrawn(u, i, D.Exec(u, es), Q.Exec(Instance(u, i), ps), ms);
      HeardIsDrawn(u, i, D.Exec(u, es), Q.Exec(Instance(u, i), ps), ms');
      if u.n == 1 {
        Agreement.OneAcceptorAgreement(Instance(u, i), h, ps, w, ms, w', ms');
      } else {
        assert h == Q.ALL;
        Agreement.EndToEndAgreement(Instance(u, i), ps, w, ms, w', ms');
      }
    }
  }

  // ---------- values come from clients ----------

  /** A client of proposer p submitted the value. */
  predicate Asked(es: seq<D.Event>, p: int, v: Value) {
    D.AtProposer(p, P.Submit(v)) in es
  }

  /** All that proposer p sent, and what it is waiting for, was submitted to it. */
  ghost predicate SendsAsked(es: seq<D.Event>, p: int, s: P.State) {
    && (forall m :: m in s.sent ==> Asked(es, p, m.value))
    && (s.clientWaiting ==> Asked(es, p, s.amsg.value))
  }

  lemma AskedStays(before: seq<D.Event>, es: seq<D.Event>, p: int, s: P.State)
    requires SendsAsked(before, p, s) && before <= es
    ensures SendsAsked(es, p, s)
  {
    forall v | Asked(before, p, v) ensures Asked(es, p, v) {
      var k :| 0 <= k < |before| && before[k] == D.AtProposer(p, P.Submit(v));
      assert es[k] == before[k];
    }
  }

  lemma ProposerTurnSendsAsked(es: seq<D.Event>, p: int, s: P.State, t: P.Event)
    requires SendsAsked(es, p, s) && D.AtProposer(p, t) in es && P.Step(s, t).Some?
    ensures SendsAsked(es, p, P.Step(s, t).value)
  {
  }

  lemma {:induction false} RunsSendAsked(u: D.Setup, es: seq<D.Event>, p: int)
    requires u.Works() && IsProposer(p)
    ensures SendsAsked(es, p, D.Exec(u, es).proposers[p])
  {
    if es == [] {
    } else {
      var before, e := es[..|es| - 1], es[|es| - 1];
      RunsSendAsked(u, before, p);
      var s := D.Exec(u, before).proposers[p];
      AskedStays(before, es, p, s);
      if e.AtProposer? && e.proposer == p && P.Step(s, e.act).Some? {
        ProposerTurnSendsAsked(es, p, s, e.act);
      }
    }
  }

  /** What a proposer has as its value for the instance was submitted to it by a client. */
  lemma SubmittedWasAsked(u: D.Setup, h: Q.Provisos, es: seq<D.Event>, i: nat, q: Q.State, v: Value)
    requires u.Works() && Legal(u, h, es) && Stands(u, i, D.Exec(u, es), q) && Agreement.Submitted(q, v)
    ensures exists p :: IsProposer(p) && Asked(es, p, v)
  {
    var p :| 0 <= p < |q.values| && q.values[p] == Some(v);
    assert ProposerStands(i, p, D.Exec(u, es).proposers[p], q);
    RunsSendAsked(u, es, p);
  }

  /**
   * As long as databases answer only for records that hold a value, whatever a learner delivers was submitted by
   * a client, for any number of acceptors.
   */
  lemma SystemIsValid(u: D.Setup, h: Q.Provisos, es: seq<D.Event>, w: nat, ms: seq<Learn>, i: nat)
    requires u.Works() && h.lsyncHeld && Legal(u, h, es)
    requires Heard(D.Exec(u, es), ms) && i < |M.Run(u.n, w, ms).log|
    ensures exists p :: IsProposer(p) && Asked(es, p, M.Run(u.n, w, ms).log[i].value)
  {
    var ps := RunsProject(u, h, i, es);
    var q := Q.Exec(Instance(u, i), ps);
    HeardIsDrawn(u, i, D.Exec(u, es), q, ms);
    Agreement.Validity(Instance(u, i), h, ps, w, ms);
    SubmittedWasAsked(u, h, es, i, q, M.Run(u.n, w, ms).log[i].value);
  }
}
