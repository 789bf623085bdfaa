/**
 * When a leader's recovery preserves a unanimous choice, for any number of acceptors. Agreement gives the
 * positive half; the runs here show that neither of its two conditions can be spared.
 */
module Recovery {
  import opened Common
  import A = AcceptorRecord
  import L = LeaderModel
  import opened Protocol
  import opened Agreement
  import opened Disagreement

  /** If all acceptors voted v in ballot b, then m, if it is a leader's ACCEPT in a higher ballot, carries v. */
  ghost predicate Preserves(sys: System, s: State, b: int, v: Value, m: Accept)
    requires Shaped(sys, s)
  {
    && (forall a :: 0 <= a < sys.n ==> Voted(s, a, b, v))
    && MAccept(m) in s.net && m.ballot >= MIN_BALLOT && m.ballot > b
    ==> m.value == v
  }

  /** Every run that keeps the provisos preserves every unanimous choice. */
  ghost predicate AlwaysRecovers(n: nat, h: Provisos) {
    forall inst: nat, es, b, v, m :: Legal(System(n, inst), h, es) ==>
      Preserves(System(n, inst), Exec(System(n, inst), es), b, v, m)
  }

  /** A state that loses a unanimous choice. */
  lemma Lost(sys: System, h: Provisos, s: State, b: int, v: Value, m: Accept)
    requires Reached(sys, h, false, s) && forall a :: 0 <= a < sys.n ==> Voted(s, a, b, v)
    requires MAccept(m) in s.net && m.ballot >= MIN_BALLOT && m.ballot > b && m.value != v
    ensures !AlwaysRecovers(sys.n, h)
  {
    var es :| Legal(sys, h, es) && Exec(sys, es) == s;
    assert sys == System(sys.n, sys.inst) && !Preserves(sys, s, b, v, m);
  }

  /** Once an ANYVAL has erased the votes for one value, a leader recovers the other. */
  lemma ErasedChoiceIsLost(n: nat, h: Provisos)
    requires n >= 1 && !h.anyvalSpares
    ensures !AlwaysRecovers(n, h)
  {
    var s := EraseAndVoteAgain(n, h, false);
    forall a | 0 <= a < n ensures s.accs[a] == FastRecord(Voter(a, 0)) {}
    var t, m := RecoverOne(n, h, false, s, 0);
    forall a | 0 <= a < n ensures Voted(t, a, FixedBallot(0), ValueOf(0)) {
      assert FastAccept(Sys(n), 0, ValueOf(0)) in t.votes[a];
    }
    Lost(Sys(n), h, t, FixedBallot(0), ValueOf(0), m);
  }

  /** The same when any_enabled is read as set for records fetched with their values. */
  lemma RefetchedChoiceIsLost(n: nat, h: Provisos)
    requires n >= 1 && !h.fetchSpares
    ensures !AlwaysRecovers(n, h)
  {
    var s := FetchAndVoteAgain(n, h);
    forall a | 0 <= a < n ensures s.accs[a] == FastRecord(Voter(a, 0)) {}
    var t, m := RecoverOne(n, h, false, s, 0);
    forall a | 0 <= a < n ensures Voted(t, a, FixedBallot(0), ValueOf(0)) {
      assert FastAccept(Sys(n), 0, ValueOf(0)) in t.votes[a];
    }
    Lost(Sys(n), h, t, FixedBallot(0), ValueOf(0), m);
  }

  // ---------- any_enabled left over from an earlier instance ----------

  // as many instances as an acceptor's array has slots (config.h)
  const LATER: nat := 1024

  /** The first instance that shares its slot with an earlier one, instance 0. */
  function Later(n: nat): System {
    System(n, LATER)
  }

  // the ballots in which the first two leaders send their accepts, and the one in which the third sends its ANYVAL
  const C0: int := L.NextBallot(L.FirstBallot(0))
  const C1: int := L.NextBallot(L.FirstBallot(1))
  const C2: int := L.FirstBallot(2)

  /** What instance 0 leaves in a slot that heard its ANYVAL and no accept. */
  const LEFT: A.Record := A.Record(0, -1, L.FirstBallot(0), -1, None, true)

  lemma LeftIsLeft()
    ensures LEFT == A.SlotRun(A.EMPTY, [A.OnAnyval(0, L.FirstBallot(0))]) && LATER % 1024 == LEFT.iid % 1024
  {
    assert [A.OnAnyval(0, L.FirstBallot(0))][..0] == [];
    assert A.SlotRun(A.EMPTY, []) == A.EMPTY;
  }

  /** A record opened by ANYVAL, with nothing in it. */
  function Flagged(ballot: int): A.Record {
    A.Record(LATER, -1, ballot, -1, None, true)
  }

  function Holding(p: Byte, ballot: int): A.Record {
    A.Record(LATER, p, ballot, FixedBallot(p), Some(ValueOf(p)), false)
  }

  function Pending(n: nat, ballot: int): L.Slot {
    L.Slot(LATER, ballot, L.Pending, 0, seq(n, _ => L.NO_INFO))
  }

  /** Leader 1 waits in its second ballot, and all requests and both fast accepts are on the network. */
  ghost predicate Underway(n: nat, s: State) {
    && Shaped(Later(n), s)
    && s.leaders[1] == Pending(n, C1)
    && (forall a :: 0 <= a < n ==> !s.evicted[a])
    && MPrepare(Prepare(LATER, C0)) in s.net && MPrepare(Prepare(LATER, C1)) in s.net
    && MPrepare(Prepare(LATER, C2)) in s.net
    && MAccept(FastAccept(Later(n), 0, ValueOf(0))) in s.net && MAccept(FastAccept(Later(n), 1, ValueOf(1))) in s.net
  }

  lemma Submit01(n: nat, h: Provisos) returns (t: State)
    requires n >= 1
    ensures Reached(Later(n), h, false, t) && Shaped(Later(n), t)
    ensures t.leaders == Init(Later(n)).leaders && t.evicted == Init(Later(n)).evicted
    ensures MAccept(FastAccept(Later(n), 0, ValueOf(0))) in t.net
    ensures MAccept(FastAccept(Later(n), 1, ValueOf(1))) in t.net
    ensures t.accs[0] == LEFT && forall a :: 1 <= a < n ==> t.accs[a] == A.EMPTY
  {
    var sys := Later(n);
    InitIsReached(sys, h, false);
    var s := Broadcast(sys, h, false, Init(sys), Reuse(0, LEFT), 0, 1);
    assert s.evicted == Init(sys).evicted;
    s := HandSubmit(sys, h, false, s, 0, ValueOf(0));
    t := HandSubmit(sys, h, false, s, 1, ValueOf(1));
  }

  /** Three leaders have started, two of them twice, two proposers have submitted, and one slot is left over. */
  lemma Start(n: nat, h: Provisos) returns (t: State)
    requires n >= 1
    ensures Reached(Later(n), h, false, t) && Underway(n, t)
    ensures t.leaders[0] == Pending(n, C0) && t.leaders[2] == Pending(n, C2)
    ensures t.accs[0] == LEFT && forall a :: 1 <= a < n ==> t.accs[a] == A.EMPTY
  {
    var sys := Later(n);
    t := Submit01(n, h);
    t := HandStart(sys, h, false, t, 0);
    t := HandStart(sys, h, false, t, 0);
    t := HandStart(sys, h, false, t, 1);
    t := HandStart(sys, h, false, t, 1);
    t := HandStart(sys, h, false, t, 2);
  }

  lemma Prepare2(n: nat, h: Provisos, s: State) returns (t: State)
    requires n >= 4 && Reached(Later(n), h, false, s) && Underway(n, s)
    requires forall a :: 1 <= a < n ==> s.accs[a] == A.EMPTY
    ensures Reached(Later(n), h, false, t) && Underway(n, t) && t.leaders == s.leaders && t.accs[0] == s.accs[0]
    ensures forall a :: 1 <= a < n ==>
      t.accs[a] == A.Record(LATER, 0, C2, -1, None, false) && MPromise(a, Promise(LATER, C2, -1, [])) in t.net
  {
    t := HandPrepare(Later(n), h, false, s, Prepare(LATER, C2), 1, n);
    forall a | 1 <= a < n ensures MPromise(a, Promise(LATER, C2, -1, [])) in t.net {
      assert A.AdmitsPrepare(s.accs[a], Prepare(LATER, C2));
    }
  }

  /** The third leader opens the instance at all acceptors but the first. */
  lemma Flag(n: nat, h: Provisos) returns (t: State)
    requires n >= 4
    ensures Reached(Later(n), h, false, t) && Underway(n, t) && t.leaders[0] == Pending(n, C0)
    ensures t.accs[0] == LEFT && forall a :: 1 <= a < n ==> t.accs[a] == Flagged(C2)
  {
    var sys, q := Later(n), Quorum(n);
    var s := Start(n, h);
    s := Prepare2(n, h, s);
    s := Collect(sys, h, false, s, 2, seq(n, _ => Promise(LATER, C2, -1, [])), n - q, q);
    assert L.Choose(s.leaders[2].promises).None?;
    s := HandDecide(sys, h, false, s, 2);
    t := HandAnyval(sys, h, false, s, C2, 1, n);
  }

  /** What acceptor a answers to the first leader: the last one votes for value 1 before. */
  function FirstPromise(n: nat, a: int): Promise {
    if a == n - 1 then Promise(LATER, C0, FixedBallot(1), ValueOf(1)) else Promise(LATER, C0, -1, [])
  }

  /** The last acceptor votes for value 1 on the flag; then all but the first promise leader 0's second ballot. */
  lemma FirstPhase1(n: nat, h: Provisos) returns (t: State)
    requires n >= 4
    ensures Reached(Later(n), h, false, t) && Underway(n, t) && t.leaders[0] == Pending(n, C0) && t.accs[0] == LEFT
    ensures forall a :: 1 <= a < n ==>
      && t.accs[a] == (if a == n - 1 then Holding(1, C0) else Flagged(C0))
      && MPromise(a, FirstPromise(n, a)) in t.net
  {
    var sys := Later(n);
    var s := Flag(n, h);
    s := HandAccept(sys, h, false, s, FastAccept(sys, 1, ValueOf(1)), n - 1, n);
    assert s.accs[n - 1] == Holding(1, FixedBallot(1));
    t := HandPrepare(sys, h, false, s, Prepare(LATER, C0), 1, n);
    forall a | 1 <= a < n
      ensures t.accs[a] == (if a == n - 1 then Holding(1, C0) else Flagged(C0))
      ensures MPromise(a, FirstPromise(n, a)) in t.net
    {
      assert A.AdmitsPrepare(s.accs[a], Prepare(LATER, C0));
      assert A.PromiseOf(t.accs[a]) == FirstPromise(n, a);
    }
  }

  /** The only report is for value p. */
  lemma PicksOnly(promises: seq<L.Info>, k: nat, p: Byte)
    requires k < |promises| && promises[k] == L.Info(LATER, FixedBallot(p), ValueOf(p))
    requires forall a :: 0 <= a < |promises| && a != k ==> !L.Reports(promises[a])
    ensures L.Choose(promises) == Some(promises[k])
  {
  }

  /** Leader 0 recovers value 1, on the promises of all but the first acceptors. */
  lemma FirstAccept(n: nat, h: Provisos) returns (t: State, m: Accept)
    requires n >= 4
    ensures Reached(Later(n), h, false, t) && Underway(n, t)
    ensures MAccept(m) in t.net && m == Accept(LATER, C0, 1, ValueOf(1)) && t.accs[0] == LEFT
    ensures forall a :: 1 <= a < n ==> t.accs[a] == if a == n - 1 then Holding(1, C0) else Flagged(C0)
  {
    var sys, q := Later(n), Quorum(n);
    var s := FirstPhase1(n, h);
    var s1 := Collect(sys, h, false, s, 0, seq(n, a => FirstPromise(n, a)), n - q, q);
    var slot := s1.leaders[0];
    PicksOnly(slot.promises, n - 1, 1);
    t := HandDecide(sys, h, false, s1, 0);
    m := L.AcceptOf(slot, L.Choose(slot.promises).value);
  }

  /** What the first acceptors answer to leader 1: the first of all has gone on to vote for value 0 on its flag. */
  function SecondPromise(a: int): Promise {
    if a == 0 then Promise(LATER, C1, FixedBallot(0), ValueOf(0)) else Promise(LATER, C1, -1, [])
  }

  /** The first acceptor takes the accept of leader 0, keeps its flag, and takes the fast accept of value 0 as well. */
  lemma SecondPhase1(n: nat, h: Provisos) returns (t: State, m: Accept)
    requires n >= 4
    ensures Reached(Later(n), h, false, t) && Underway(n, t)
    ensures MAccept(m) in t.net && m == Accept(LATER, C0, 1, ValueOf(1)) && m in t.votes[0]
    ensures forall a :: 0 <= a < Quorum(n) ==> MPromise(a, SecondPromise(a)) in t.net
    ensures forall a :: 1 <= a < n ==>
      t.accs[a] == if a == n - 1 then Holding(1, C0) else if a < Quorum(n) then Flagged(C1) else Flagged(C0)
  {
    var sys, q := Later(n), Quorum(n);
    var s: State;
    s, m := FirstAccept(n, h);
    s := HandAccept(sys, h, false, s, m, 0, 1);
    assert s.accs[0] == A.Record(LATER, 1, C0, C0, Some(ValueOf(1)), true);
    s := HandAccept(sys, h, false, s, FastAccept(sys, 0, ValueOf(0)), 0, 1);
    assert s.accs[0] == Holding(0, FixedBallot(0));
    t := HandPrepare(sys, h, false, s, Prepare(LATER, C1), 0, q);
    forall a | 0 <= a < q ensures MPromise(a, SecondPromise(a)) in t.net {
      assert A.AdmitsPrepare(s.accs[a], Prepare(LATER, C1));
      assert A.PromiseOf(t.accs[a]) == SecondPromise(a);
    }
  }

  /** Leader 1 recovers value 0, on the promises of the first acceptors. */
  lemma SecondAccept(n: nat, h: Provisos) returns (t: State, m: Accept, m': Accept)
    requires n >= 4
    ensures Reached(Later(n), h, false, t) && Shaped(Later(n), t)
    ensures MAccept(m) in t.net && m == Accept(LATER, C0, 1, ValueOf(1)) && m in t.votes[0]
    ensures MAccept(m') in t.net && m' == Accept(LATER, C1, 0, ValueOf(0))
    ensures forall a :: 1 <= a < n ==>
      t.accs[a] == if a == n - 1 then Holding(1, C0) else if a < Quorum(n) then Flagged(C1) else Flagged(C0)
  {
    var s: State;
    s, m := SecondPhase1(n, h);
    var s1 := Collect(Later(n), h, false, s, 1, seq(n, a => SecondPromise(a)), 0, Quorum(n));
    var slot := s1.leaders[1];
    PicksOnly(slot.promises, 0, 0);
    t := HandDecide(Later(n), h, false, s1, 1);
    m' := L.AcceptOf(slot, L.Choose(slot.promises).value);
  }

  /** Only then do the other acceptors take the accept of leader 0, on their flags. */
  lemma LeftoverFlagsLoseChoice(n: nat, h: Provisos)
    requires n >= 4
    ensures !AlwaysRecovers(n, h)
  {
    var s, m, m' := SecondAccept(n, h);
    var t := HandAccept(Later(n), h, false, s, m, 1, n);
    forall a | 0 <= a < n ensures Voted(t, a, C0, ValueOf(1)) {
      if a > 0 { assert A.AdmitsAccept(s.accs[a], m); }
      assert m in t.votes[a];
    }
    Lost(Later(n), h, t, C0, ValueOf(1), m');
  }

  /** The exact condition, for any number of acceptors. */
  lemma RecoversIff(n: nat, h: Provisos)
    requires n >= 1
    ensures AlwaysRecovers(n, h) <==> h.anyvalSpares && h.fetchSpares && n <= 3
  {
    if !h.anyvalSpares {
      ErasedChoiceIsLost(n, h);
    } else if !h.fetchSpares {
      RefetchedChoiceIsLost(n, h);
    } else if n > 3 {
      LeftoverFlagsLoseChoice(n, h);
    } else {
      forall inst: nat, es, b, v, m | Legal(System(n, inst), h, es)
        ensures Preserves(System(n, inst), Exec(System(n, inst), es), b, v, m)
      {
        var sys := System(n, inst);
        if (forall a :: 0 <= a < n ==> Voted(Exec(sys, es), a, b, v))
          && MAccept(m) in Exec(sys, es).net && m.ballot >= MIN_BALLOT && m.ballot > b
        {
          RecoveryPreservesChoice(sys, h, es, b, v, m);
        }
      }
    }
  }
}
