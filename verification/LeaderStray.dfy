/**
 * A leader with a ring of four and a window of two, in a system of one acceptor, whose crowded tick sends a
 * packet wider than the ring. The answer to it makes the leader send an ANYVAL for the wrong instance.
 */
module LeaderStray {
  import opened Common
  import opened LeaderModel
  import opened LeaderWindow
  import opened LeaderTargets
  import opened LeaderDecisions
  import opened LeaderEmission
  import LeaderTraffic
  import Answers

  const SMALL: Config := Config(1, 4, 2, 0)

  /** Instance 2 is decided; 0 and 1 are decided and delivered by others and stay pending here; then a tick. */
  const FIRST_ANSWER: seq<Event> := [Promises(0, [Promise(2, 20, -1, [])])]
  const HISTORY: seq<Event> := FIRST_ANSWER + [Delivered(0)] + [Delivered(1)] + [Delivered(2)] + [Phase1Timer]

  const WIDE: seq<Prepare> := [Prepare(0, 30), Prepare(1, 30), Prepare(3, 20), Prepare(4, 20), Prepare(5, 20)]

  /** The acceptor promises all of it; for the instances delivered it reports its fast votes. */
  const ANSWER: seq<Promise> :=
    [Promise(0, 30, FixedBallot(1), [7]), Promise(1, 30, FixedBallot(1), [8]),
     Promise(3, 20, -1, []), Promise(4, 20, -1, []),
     Promise(5, 20, -1, [])]

  function Asked(iid: int, ballot: int): Slot {
    Slot(iid, ballot, Pending, 0, [NO_INFO])
  }

  function Heeded(iid: int, ballot: int, status: Status): Slot {
    Slot(iid, ballot, status, 1, [Info(iid, -1, [])])
  }

  const FIRST_REQUEST: seq<Prepare> := [Prepare(0, 20), Prepare(1, 20), Prepare(2, 20)]

  const STARTED: State :=
    State(0, 0, 3, 0, -1, 0, 2, [Asked(0, 20), Asked(1, 20), Asked(2, 20), BlankSlot(1)],
          FIRST_REQUEST, -1, [], [Prepares(FIRST_REQUEST)], {}, [])

  const DECIDED: State :=
    STARTED.(pendingCount := 2, readyCount := 1, highestReady := 2,
             slots := [Asked(0, 20), Asked(1, 20), Heeded(2, 20, Finished), BlankSlot(1)],
             anyBallot := 20, anyIids := [2], sent := [Prepares(FIRST_REQUEST), Anyvals(20, [2])],
             heard := {Heard(0, Promise(2, 20, -1, []))}, decisions := [Decision(2, Heeded(2, 20, Ready))])

  const OVERTAKEN: State := DECIDED.(currentIid := 3, readyCount := -2)

  const CROWDED: State :=
    OVERTAKEN.(pendingCount := 5, lastToCheck := 5,
               slots := [Asked(4, 20), Asked(5, 20), Heeded(2, 20, Finished), Asked(3, 20)],
               batch := WIDE, sent := OVERTAKEN.sent + [Prepares(WIDE), Prepares(WIDE)])

  lemma NoInfoSeq()
    ensures seq(1, _ => NO_INFO) == [NO_INFO]
  {
  }

  lemma Starts()
    ensures Init(SMALL) == STARTED
  {
    NoInfoSeq();
    var s0 := Blank(SMALL);
    var s1 := AddPrepare(Opening(SMALL, s0, 0), Prepare(0, 20));
    var s2 := AddPrepare(Opening(SMALL, s1, 1), Prepare(1, 20));
    var s3 := AddPrepare(Opening(SMALL, s2, 2), Prepare(2, 20));
    assert OpenFrom(SMALL, s3, 3, 2) == s3;
    assert OpenFrom(SMALL, s2, 2, 2) == s3;
    assert OpenFrom(SMALL, s1, 1, 2) == s3;
    assert OpenFrom(SMALL, s0, 0, 2) == s3;
    assert s3.slots == STARTED.slots && s3.batch == FIRST_REQUEST;
    assert ExecutePhase1(SMALL, s0).sent == STARTED.sent;
  }

  lemma Decides()
    ensures HandlePromiseMsg(SMALL, STARTED, 0, [Promise(2, 20, -1, [])]) == DECIDED
  {
    var s0, p := STARTED, Promise(2, 20, -1, []);
    var s1 := HandlePromise(SMALL, s0, 0, p);
    assert TakePromise(1, s0.slots[2], 0, p) == Heeded(2, 20, Ready);
    assert HandlePromises(SMALL, s1, 0, []) == s1;
    assert HandlePromises(SMALL, s0, 0, [p]) == s1;
    var s2 := s1.(anyBallot := -1, anyIids := []);
    var s3 := Decide(SMALL, s2, 2);
    assert DecideFrom(SMALL, s3, 3, 2) == s3;
    assert DecideFrom(SMALL, s2, 2, 2) == s3;
    var t := FlushAnyvals(s3);
    assert t.slots == DECIDED.slots && t.anyIids == DECIDED.anyIids;
    assert t.sent == DECIDED.sent && t.decisions == DECIDED.decisions && t.heard == DECIDED.heard;
  }

  lemma Crowds()
    ensures LeaderTraffic.Crowded(SMALL, OVERTAKEN) && Phase1Check(SMALL, OVERTAKEN) == CROWDED
  {
    NoInfoSeq();
    assert OVERTAKEN.slots[0].status == Pending;
    var s0 := OVERTAKEN.(batch := []);
    var s1 := AddPrepare(s0.(slots := s0.slots[0 := Asked(0, 30)]), Prepare(0, 30));
    var s2 := AddPrepare(s1.(slots := s1.slots[1 := Asked(1, 30)]), Prepare(1, 30));
    assert RestartFrom(SMALL, s2, 3) == s2;
    assert RestartFrom(SMALL, s2, 2) == s2;
    assert RestartFrom(SMALL, s1, 1) == s2;
    assert RestartFrom(SMALL, s0, 0) == s2;
    var s3 := AddPrepare(Opening(SMALL, s2, 3), Prepare(3, 20));
    var s4 := AddPrepare(Opening(SMALL, s3, 4), Prepare(4, 20));
    var s5 := AddPrepare(Opening(SMALL, s4, 5), Prepare(5, 20));
    assert OpenFrom(SMALL, s5, 6, 5) == s5;
    assert OpenFrom(SMALL, s4, 5, 5) == s5;
    assert OpenFrom(SMALL, s3, 4, 5) == s5;
    assert OpenFrom(SMALL, s2, 3, 5) == s5;
    assert s5.slots == CROWDED.slots && s5.batch == WIDE;
    assert Phase1Check(SMALL, OVERTAKEN).sent == CROWDED.sent;
  }

  /** The run es, in which k instances are delivered in order, leads to s. */
  ghost predicate Reaches(es: seq<Event>, s: State, k: int) {
    WellSent(SMALL, es) && InOrder(es) && Deliveries(es) == k && Run(SMALL, es) == Some(s)
  }

  lemma ReachesOneMore(es: seq<Event>, s: State, k: int, e: Event)
    requires Reaches(es, s, k) && FromAcceptor(SMALL, e) && Step(SMALL, s, e).Some?
    requires e.Delivered? ==> e.iid == k
    ensures Reaches(es + [e], Step(SMALL, s, e).value, if e.Delivered? then k + 1 else k)
  {
    OneMoreInOrder(es, e);
    RunOneMore(SMALL, es, e);
  }

  lemma FirstAnswerReaches()
    ensures Reaches(FIRST_ANSWER, DECIDED, 0)
  {
    Starts();
    Decides();
    assert Reaches([], STARTED, 0);
    ReachesOneMore([], STARTED, 0, FIRST_ANSWER[0]);
    assert [] + [FIRST_ANSWER[0]] == FIRST_ANSWER;
  }

  lemma ThreeDelivered(es: seq<Event>, s: State)
    requires Reaches(es, s, 0) && s.currentIid == 0
    ensures Reaches(es + [Delivered(0)] + [Delivered(1)] + [Delivered(2)],
                    s.(currentIid := 3, readyCount := s.readyCount - 3), 3)
  {
    var s1 := Deliver(s, 0);
    var s2 := Deliver(s1, 1);
    ReachesOneMore(es, s, 0, Delivered(0));
    ReachesOneMore(es + [Delivered(0)], s1, 1, Delivered(1));
    ReachesOneMore(es + [Delivered(0)] + [Delivered(1)], s2, 2, Delivered(2));
  }

  lemma HistoryReaches()
    ensures Reaches(HISTORY, CROWDED, 3)
  {
    FirstAnswerReaches();
    ThreeDelivered(FIRST_ANSWER, DECIDED);
    Crowds();
    ReachesOneMore(FIRST_ANSWER + [Delivered(0)] + [Delivered(1)] + [Delivered(2)], OVERTAKEN, 3, Phase1Timer);
  }

  lemma TakesNext(s: State, ps: seq<Promise>, k: nat)
    requires Shaped(SMALL, s) && k < |ps|
    ensures HandlePromises(SMALL, s, 0, ps[k..])
         == HandlePromises(SMALL, HandlePromise(SMALL, s, 0, ps[k]), 0, ps[k + 1..])
  {
    assert ps[k..][1..] == ps[k + 1..];
  }

  /** The asked record k takes its one promise and becomes ready. */
  lemma TakesWanted(s: State, k: nat, iid: int, ballot: int)
    requires Shaped(SMALL, s) && k < 4 && iid % 4 == k && iid >= 0 && s.slots[k] == Asked(iid, ballot)
    ensures HandlePromise(SMALL, s, 0, Promise(iid, ballot, -1, [])).slots == s.slots[k := Heeded(iid, ballot, Ready)]
  {
    assert TakePromise(1, s.slots[k], 0, Promise(iid, ballot, -1, [])) == Heeded(iid, ballot, Ready);
  }

  /** A promise for another instance than the record's is ignored. */
  lemma IgnoresOther(s: State, k: nat, p: Promise)
    requires Shaped(SMALL, s) && k < 4 && p.iid % 4 == k && s.slots[k].iid != p.iid
    ensures HandlePromise(SMALL, s, 0, p).slots == s.slots
  {
  }

  lemma TakesFive(s0: State, ps: seq<Promise>)
    requires Shaped(SMALL, s0) && |ps| == 5
    ensures var s1 := HandlePromise(SMALL, s0, 0, ps[0]);
            var s2 := HandlePromise(SMALL, s1, 0, ps[1]);
            var s3 := HandlePromise(SMALL, s2, 0, ps[2]);
            var s4 := HandlePromise(SMALL, s3, 0, ps[3]);
            HandlePromises(SMALL, s0, 0, ps) == HandlePromise(SMALL, s4, 0, ps[4])
  {
    var s1 := HandlePromise(SMALL, s0, 0, ps[0]);
    var s2 := HandlePromise(SMALL, s1, 0, ps[1]);
    var s3 := HandlePromise(SMALL, s2, 0, ps[2]);
    var s4 := HandlePromise(SMALL, s3, 0, ps[3]);
    assert ps[0..] == ps;
    TakesNext(s0, ps, 0);
    TakesNext(s1, ps, 1);
    TakesNext(s2, ps, 2);
    TakesNext(s3, ps, 3);
    TakesNext(s4, ps, 4);
  }

  /** The two promises for delivered instances find their slots taken. */
  lemma VotesIgnored()
    ensures var s1 := HandlePromise(SMALL, CROWDED, 0, Promise(0, 30, FixedBallot(1), [7]));
            HandlePromise(SMALL, s1, 0, Promise(1, 30, FixedBallot(1), [8])).slots == CROWDED.slots
  {
    var p0, p1 := Promise(0, 30, FixedBallot(1), [7]), Promise(1, 30, FixedBallot(1), [8]);
    IgnoresOther(CROWDED, 0, p0);
    IgnoresOther(HandlePromise(SMALL, CROWDED, 0, p0), 1, p1);
  }

  /** The other three make their records ready. */
  lemma RestTaken(s: State)
    requires Shaped(SMALL, s) && s.slots == CROWDED.slots
    ensures var s3 := HandlePromise(SMALL, s, 0, Promise(3, 20, -1, []));
            var s4 := HandlePromise(SMALL, s3, 0, Promise(4, 20, -1, []));
            var s5 := HandlePromise(SMALL, s4, 0, Promise(5, 20, -1, []));
            s5.slots == [Heeded(4, 20, Ready), Heeded(5, 20, Ready), Heeded(2, 20, Finished), Heeded(3, 20, Ready)]
  {
    TakesWanted(s, 3, 3, 20);
    var s3 := HandlePromise(SMALL, s, 0, Promise(3, 20, -1, []));
    TakesWanted(s3, 0, 4, 20);
    var s4 := HandlePromise(SMALL, s3, 0, Promise(4, 20, -1, []));
    TakesWanted(s4, 1, 5, 20);
  }

  lemma AnswerTakenIn()
    ensures HandlePromises(SMALL, CROWDED, 0, ANSWER).slots
         == [Heeded(4, 20, Ready), Heeded(5, 20, Ready), Heeded(2, 20, Finished), Heeded(3, 20, Ready)]
  {
    TakesFive(CROWDED, ANSWER);
    VotesIgnored();
    var s1 := HandlePromise(SMALL, CROWDED, 0, ANSWER[0]);
    RestTaken(HandlePromise(SMALL, s1, 0, ANSWER[1]));
  }

  lemma AnswerAnswers()
    ensures Answers.AnswersTo(ANSWER, WIDE)
  {
  }

  lemma AnswerIsSpanned()
    ensures Spanned(ANSWER) && SpannedBatches(HISTORY)
  {
  }

  /** The record of instance 4 has the first slot, and instance 0 is the first of the answer. */
  lemma StrayIsDue(s: State, ps: seq<Promise>, slot: Slot)
    requires Sound(SMALL, s) && NoneReady(s) && Spanned(ps) && FirstIid(ps) == 0
    requires slot == HandlePromises(SMALL, s, 0, ps).slots[0] == Heeded(4, 20, Ready)
    ensures Decision(0, slot) in HandlePromiseMsg(SMALL, s, 0, ps).decisions
  {
    assert Decision(0, slot) == DecisionFor(SMALL, slot, 0);
    PacketDecides(SMALL, s, 0, ps, Decision(0, slot));
    NewDecisionsAreAdded(SMALL, s, 0, ps);
  }

  lemma StrayIsSent(es: seq<Event>, s: State, k: int, ps: seq<Promise>, slot: Slot)
    requires Reaches(es, s, k) && SpannedBatches(es) && Spanned(ps) && FirstIid(ps) == 0
    requires slot == HandlePromises(SMALL, s, 0, ps).slots[0] == Heeded(4, 20, Ready)
    ensures var r := HandlePromiseMsg(SMALL, s, 0, ps);
            && Decision(0, slot) in r.decisions
            && exists k :: 0 <= k < |r.sent| && r.sent[k].Anyvals? && 0 in r.sent[k].iids && r.sent[k].ballot >= 20
  {
    OneBackedDecisionPerBallot(SMALL, es);
    StrayIsDue(s, ps, slot);
    ReachesOneMore(es, s, k, Promises(0, ps));
    PacketsAreDecisions(SMALL, es + [Promises(0, ps)]);
    var r := HandlePromiseMsg(SMALL, s, 0, ps);
    ValuelessIsTaken(r.decisions, Decision(0, slot));
    var k := AnnouncedIsSaid(AnyvalsIn(r.sent), Valueless(r.decisions), Decision(0, slot));
    var j := SaidIsSent(r.sent, k);
  }

  /** The leader's own request spans more than its ring. */
  lemma WideRequest()
    ensures WellSent(SMALL, HISTORY) && InOrder(HISTORY) && Run(SMALL, HISTORY).Some?
    ensures Prepares(WIDE) in Run(SMALL, HISTORY).value.sent && !LeaderTraffic.NarrowRequest(SMALL, WIDE)
    ensures Answers.AnswersTo(ANSWER, WIDE)
  {
    HistoryReaches();
    AnswerAnswers();
    assert CROWDED.sent[|CROWDED.sent| - 1] == Prepares(WIDE);
    assert Prepare(5, 20) in WIDE && Prepare(0, 30) in WIDE;
  }

  /**
   * Its answer arrives, and the record of instance 4 is decided for instance 0: the ANYVAL goes out for an
   * instance that the leader no longer holds.
   */
  lemma StrayDecision()
    ensures WellSent(SMALL, HISTORY) && Run(SMALL, HISTORY).Some?
    ensures var r := HandlePromiseMsg(SMALL, Run(SMALL, HISTORY).value, 0, ANSWER);
            && Decision(0, Heeded(4, 20, Ready)) in r.decisions
            && exists k :: 0 <= k < |r.sent| && r.sent[k].Anyvals? && 0 in r.sent[k].iids && r.sent[k].ballot >= 20
  {
    HistoryReaches();
    AnswerTakenIn();
    AnswerIsSpanned();
    StrayIsSent(HISTORY, CROWDED, 3, ANSWER, Heeded(4, 20, Ready));
  }
}
