/** What lib/leader.c computes: the ring of proposer records, the phase 1 window and the decisions. */
module LeaderModel {
  import opened Common

  datatype Status = New | Pending | Ready | Finished
  datatype Info = Info(iid: int, valueBallot: int, value: Value)
  datatype Slot = Slot(iid: int, ballot: int, status: Status, promiseCount: int, promises: seq<Info>)

  // ---------- one record ----------

  function FirstBallot(id: int): int {
    2 * MAX_PROPOSERS + id
  }

  function NextBallot(ballot: int): int {
    ballot + MAX_PROPOSERS
  }

  function ValueOwner(ballot: int): int {
    ballot % MAX_PROPOSERS
  }

  const NO_INFO: Info := Info(-1, -1, [])

  /** A record in statically zeroed memory. */
  function BlankSlot(n: nat): Slot {
    Slot(0, 0, New, 0, seq(n, _ => Info(0, 0, [])))
  }

  function OpenedSlot(n: nat, iid: int, id: int): Slot {
    Slot(iid, FirstBallot(id), Pending, 0, seq(n, _ => NO_INFO))
  }

  /** A record moved to its owner's next ballot, its promises forgotten. */
  function Restarted(n: nat, slot: Slot): Slot {
    Slot(slot.iid, NextBallot(slot.ballot), if slot.status == Finished then Pending else slot.status,
         0, seq(n, _ => NO_INFO))
  }

  /** Is the promise one the record still waits for? */
  predicate Wanted(slot: Slot, acceptorId: int, p: Promise)
    requires 0 <= acceptorId < |slot.promises|
  {
    && slot.iid == p.iid
    && slot.status == Pending
    && slot.ballot == p.ballot
    && slot.promises[acceptorId].iid == -1
  }

  function InfoOf(p: Promise): Info {
    Info(p.iid, p.valueBallot, if p.valueBallot != -1 then p.value else [])
  }

  function TakePromise(n: nat, slot: Slot, acceptorId: int, p: Promise): Slot
    requires 0 <= acceptorId < |slot.promises|
  {
    if !Wanted(slot, acceptorId, p) then slot else
      slot.(promises := slot.promises[acceptorId := InfoOf(p)],
            promiseCount := slot.promiseCount + 1,
            status := if slot.promiseCount + 1 < Quorum(n) then Pending else Ready)
  }

  /** Does the entry report a value that phase2_value would consider? */
  predicate Reports(i: Info) {
    i.iid != -1 && i.valueBallot > -1
  }

  /** The reported value of the highest ballot, the earliest acceptor winning a tie; None if nobody reports one. */
  function Choose(promises: seq<Info>): (r: Option<Info>)
    ensures r.None? <==> forall i :: 0 <= i < |promises| ==> !Reports(promises[i])
    ensures r.Some? ==>
      exists k :: 0 <= k < |promises| && promises[k] == r.value && Reports(promises[k])
        && (forall i :: 0 <= i < |promises| && Reports(promises[i]) ==> promises[i].valueBallot <= r.value.valueBallot)
        && (forall i :: 0 <= i < k && Reports(promises[i]) ==> promises[i].valueBallot < r.value.valueBallot)
  {
    if promises == [] then None else
      var last := |promises| - 1;
      var best := Choose(promises[..last]);
      if Reports(promises[last]) && (best.Some? ==> promises[last].valueBallot > best.value.valueBallot)
      then assert promises[last] == Some(promises[last]).value; Some(promises[last]) else best
  }

  /** The ACCEPT sent for a record in which a value was found. */
  function AcceptOf(slot: Slot, i: Info): Accept {
    Accept(slot.iid, slot.ballot, ValueOwner(i.valueBallot), i.value)
  }

  /** The acceptors whose promise the record has taken in its present ballot. */
  function Promisers(slot: Slot): set<int> {
    set a | 0 <= a < |slot.promises| && slot.promises[a].iid != -1
  }

  lemma PromisersGrow(slot: Slot, slot': Slot, a: int, i: Info)
    requires 0 <= a < |slot.promises| && slot.promises[a].iid == -1 && i.iid != -1
    requires slot'.promises == slot.promises[a := i]
    ensures Promisers(slot') == Promisers(slot) + {a} && |Promisers(slot')| == |Promisers(slot)| + 1
  {
    assert Promisers(slot') == Promisers(slot) + {a} && a !in Promisers(slot);
  }

  // ---------- the leader ----------

  /** n acceptors, a ring of `size` records, a phase 1 window and the proposer id of the leader. */
  datatype Config = Config(n: nat, size: nat, window: nat, id: int)

  datatype Packet =
    | Prepares(prepares: seq<Prepare>)
    | Anyvals(ballot: int, iids: seq<int>)
    | AcceptPacket(accept: Accept)

  /** Phase 2 run on a record: the instance it was run for, and the record as it was then. */
  datatype Decision = Decision(target: int, slot: Slot)
  datatype Heard = Heard(acceptorId: int, promise: Promise)

  /** The static variables of leader.c, the packets sent, and the history of promises and decisions. */
  datatype State = State(
    currentIid: int, checkedIid: int,
    pendingCount: int, readyCount: int, highestReady: int, firstToCheck: int, lastToCheck: int,
    slots: seq<Slot>,
    batch: seq<Prepare>,
    anyBallot: int, anyIids: seq<int>,
    sent: seq<Packet>,
    heard: set<Heard>, decisions: seq<Decision>)

  function Max(a: int, b: int): int {
    if a < b then b else a
  }

  function Min(a: int, b: int): int {
    if b < a then b else a
  }

  /** The number of turns a loop from i to last takes. */
  function Remaining(i: int, last: int): nat {
    if i > last then 0 else last - i + 1
  }

  const PREPARE_SIZE: int := 2 * INT_SIZE

  function PreparePacketSize(count: int): int {
    PAXOS_MSG_SIZE + INT_SIZE + count * PREPARE_SIZE
  }

  function AnyvalPacketSize(count: int): int {
    PAXOS_MSG_SIZE + 2 * INT_SIZE + count * INT_SIZE
  }

  function FlushPrepares(s: State): State {
    s.(sent := s.sent + [Prepares(s.batch)])
  }

  function AddPrepare(s: State, p: Prepare): State {
    var s1 := s.(batch := s.batch + [p]);
    if PreparePacketSize(|s1.batch|) + PREPARE_SIZE > MAX_UDP_MSG_SIZE
    then FlushPrepares(s1).(batch := []) else s1
  }

  predicate Shaped(c: Config, s: State) {
    && c.size > 0
    && |s.slots| == c.size
    && (forall k :: 0 <= k < c.size ==> |s.slots[k].promises| == c.n)
  }

  /** Instance i put into its slot, before its prepare is written. */
  function Opening(c: Config, s: State, i: int): (r: State)
    requires Shaped(c, s)
    ensures Shaped(c, r)
  {
    s.(pendingCount := s.pendingCount + 1, slots := s.slots[i % c.size := OpenedSlot(c.n, i, c.id)])
  }

  /** The loop of execute_phase1, from instance i on. */
  function OpenFrom(c: Config, s: State, i: int, to: int): (r: State)
    requires Shaped(c, s)
    ensures Shaped(c, r)
    decreases Remaining(i, to)
  {
    if i > to then s else
      var k := i % c.size;
      if s.slots[k].iid < i || s.slots[k].status == New then
        OpenFrom(c, AddPrepare(Opening(c, s, i), Prepare(i, FirstBallot(c.id))), i + 1, to)
      else
        OpenFrom(c, s, i + 1, to)
  }

  function ExecutePhase1(c: Config, s: State): (r: State)
    requires Shaped(c, s)
    ensures Shaped(c, r)
  {
    var from := s.highestReady + 1;
    var to := from + c.window;
    var s1 := OpenFrom(c, s, from, to);
    var s2 := s1.(lastToCheck := Max(s1.lastToCheck, to), firstToCheck := Min(s1.firstToCheck, from));
    if |s2.batch| > 0 then FlushPrepares(s2) else s2
  }

  /** The loop of phase1_check_cb, from instance i on. */
  function RestartFrom(c: Config, s: State, i: int): (r: State)
    requires Shaped(c, s)
    ensures Shaped(c, r)
    decreases Remaining(i, s.lastToCheck)
  {
    if i > s.lastToCheck then s else
      var k := i % c.size;
      if s.slots[k].iid == i && s.slots[k].status == Pending then
        var slot := Restarted(c.n, s.slots[k]);
        RestartFrom(c, AddPrepare(s.(slots := s.slots[k := slot]), Prepare(slot.iid, slot.ballot)), i + 1)
      else
        RestartFrom(c, s, i + 1)
  }

  function Phase1Check(c: Config, s: State): (r: State)
    requires Shaped(c, s)
    ensures Shaped(c, r)
  {
    var s1 := RestartFrom(c, s.(batch := []), s.firstToCheck);
    var s2 := if s1.pendingCount + s1.readyCount < c.window / 2 then ExecutePhase1(c, s1) else s1;
    if |s2.batch| > 0 then FlushPrepares(s2) else s2
  }

  function HandlePromise(c: Config, s: State, acceptorId: int, p: Promise): (r: State)
    requires Shaped(c, s) && 0 <= acceptorId < c.n
    ensures Shaped(c, r)
  {
    var k := p.iid % c.size;
    var slot := TakePromise(c.n, s.slots[k], acceptorId, p);
    var s1 := s.(slots := s.slots[k := slot], heard := s.heard + {Heard(acceptorId, p)});
    if s.slots[k].status == Pending && slot.status == Ready then
      s1.(pendingCount := s.pendingCount - 1, readyCount := s.readyCount + 1,
          highestReady := Max(s.highestReady, slot.iid),
          firstToCheck := Min(s.firstToCheck, slot.iid),
          lastToCheck := Max(s.lastToCheck, slot.iid))
    else s1
  }

  function HandlePromises(c: Config, s: State, acceptorId: int, ps: seq<Promise>): (r: State)
    requires Shaped(c, s) && 0 <= acceptorId < c.n
    ensures Shaped(c, r)
    decreases |ps|
  {
    if ps == [] then s else HandlePromises(c, HandlePromise(c, s, acceptorId, ps[0]), acceptorId, ps[1..])
  }

  function FlushAnyvals(s: State): State {
    s.(sent := s.sent + [Anyvals(s.anyBallot, s.anyIids)])
  }

  function AddAnyval(s: State, iid: int, ballot: int): State {
    var s1 := s.(anyBallot := Max(s.anyBallot, ballot), anyIids := s.anyIids + [iid]);
    if AnyvalPacketSize(|s1.anyIids|) + INT_SIZE > MAX_UDP_MSG_SIZE
    then FlushAnyvals(s1).(anyBallot := -1, anyIids := []) else s1
  }

  /** Phase 2 for instance i, whose slot is ready. */
  function Decide(c: Config, s: State, i: int): (r: State)
    requires Shaped(c, s)
    ensures Shaped(c, r)
  {
    var slot := s.slots[i % c.size];
    var choice := Choose(slot.promises);
    var s1 := if choice.None? then AddAnyval(s, i, slot.ballot)
              else s.(sent := s.sent + [AcceptPacket(AcceptOf(slot, choice.value))]);
    s1.(slots := s1.slots[i % c.size := slot.(status := Finished)],
        decisions := s1.decisions + [Decision(if choice.None? then i else slot.iid, slot)])
  }

  /** The loop of execute_phase2, from instance i on. */
  function DecideFrom(c: Config, s: State, i: int, last: int): (r: State)
    requires Shaped(c, s)
    ensures Shaped(c, r)
    decreases Remaining(i, last)
  {
    if i > last then s
    else if s.slots[i % c.size].status != Ready then DecideFrom(c, s, i + 1, last)
    else DecideFrom(c, Decide(c, s, i), i + 1, last)
  }

  function ExecutePhase2(c: Config, s: State, first: int, last: int): (r: State)
    requires Shaped(c, s)
    ensures Shaped(c, r)
  {
    var s1 := DecideFrom(c, s.(anyBallot := -1, anyIids := []), first, last);
    if |s1.anyIids| > 0 then FlushAnyvals(s1) else s1
  }

  /** The range of execute_phase2: the first and the last instance of the batch, or -1 if it is empty. */
  function FirstIid(ps: seq<Promise>): int {
    if ps == [] then -1 else ps[0].iid
  }

  function LastIid(ps: seq<Promise>): int {
    if ps == [] then -1 else ps[|ps| - 1].iid
  }

  function HandlePromiseMsg(c: Config, s: State, acceptorId: int, ps: seq<Promise>): (r: State)
    requires Shaped(c, s) && 0 <= acceptorId < c.n
    ensures Shaped(c, r)
  {
    var s1 := HandlePromises(c, s, acceptorId, ps);
    ExecutePhase2(c, s1, FirstIid(ps), LastIid(ps))
  }

  /** Does the assertion of phase2_check_cb hold? */
  predicate CheckHolds(c: Config, s: State)
    requires Shaped(c, s)
  {
    s.currentIid == s.checkedIid ==> s.slots[s.currentIid % c.size].iid == s.currentIid
  }

  function Phase2Check(c: Config, s: State): (r: State)
    requires Shaped(c, s) && CheckHolds(c, s)
    ensures Shaped(c, r)
  {
    if s.currentIid != s.checkedIid then s.(checkedIid := s.currentIid) else
      var k := s.currentIid % c.size;
      var slot := s.slots[k];
      var slot' := Restarted(c.n, slot);
      var s1 := if slot.status == Finished
                then s.(readyCount := s.readyCount - 1, pendingCount := s.pendingCount + 1) else s;
      FlushPrepares(AddPrepare(s1.(slots := s.slots[k := slot'], batch := []), Prepare(slot'.iid, slot'.ballot)))
  }

  function Deliver(s: State, iid: int): State {
    s.(currentIid := iid + 1, readyCount := s.readyCount - 1)
  }

  /** Static memory and the assignments of leader_init, up to its call of execute_phase1. */
  function Blank(c: Config): State {
    State(0, 0, 0, 0, -1, 0, 0, seq(c.size, _ => BlankSlot(c.n)), [], -1, [], [], {}, [])
  }

  function Init(c: Config): State
    requires c.size > 0
  {
    ExecutePhase1(c, Blank(c))
  }
}
