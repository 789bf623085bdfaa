/** lib/proposer.c: one client value at a time, sent for one instance after the other until it is delivered. */
module ProposerModel {
  import opened Common

  datatype Timeout = Timeout(instance: int, hash: int)

  /** The static variables of proposer.c, the accept in its send buffer, and every accept it has sent. */
  datatype State = State(id: int, clientWaiting: bool, currentIid: int, lastAcceptIid: int, lastAcceptHash: int,
                         amsg: Accept, sent: seq<Accept>, timers: seq<Timeout>)

  datatype Event =
    | Submit(value: Value)
    | Delivered(iid: int, proposer: int)
    | TimedOut(timeout: Timeout)

  function Init(id: int): State {
    State(id, false, 0, 0, 0, Accept(0, 0, 0, []), [], [])
  }

  function Send(s: State): State {
    s.(sent := s.sent + [s.amsg])
  }

  /** proposer_submit_value, up to its wait. */
  function SubmitValue(s: State, value: Value): State {
    if |value| > PAXOS_MAX_VALUE_SIZE then s else
      Send(s.(clientWaiting := true, lastAcceptIid := s.currentIid, lastAcceptHash := 1,
              amsg := Accept(s.currentIid, FixedBallot(s.id), s.id, value),
              timers := s.timers + [Timeout(s.currentIid, 1)]))
  }

  /** proposer_deliver_callback; None is its failed assertion. */
  function DeliverCallback(s: State, iid: int, proposer: int): Option<State> {
    if s.currentIid != iid then None
    else if !s.clientWaiting then Some(s.(currentIid := iid + 1))
    else if proposer == s.id then Some(s.(currentIid := iid + 1, clientWaiting := false))
    else Some(Send(s.(currentIid := iid + 1, amsg := s.amsg.(iid := iid + 1),
                      lastAcceptIid := iid, lastAcceptHash := s.lastAcceptHash + 1,
                      timers := s.timers + [Timeout(iid + 1, s.lastAcceptHash + 1)])))
  }

  /** proposer_check_timeout */
  function CheckTimeout(s: State, t: Timeout): State {
    if s.clientWaiting && t.instance == s.lastAcceptIid && t.hash == s.lastAcceptHash then
      Send(s.(lastAcceptHash := s.lastAcceptHash + 1, timers := s.timers + [Timeout(t.instance, s.lastAcceptHash + 1)]))
    else s
  }

  /** A client submits only when its last value is through: the call blocks until then. */
  function Step(s: State, e: Event): Option<State> {
    match e
    case Submit(v) => Some(if s.clientWaiting then s else SubmitValue(s, v))
    case Delivered(iid, p) => DeliverCallback(s, iid, p)
    case TimedOut(t) => Some(CheckTimeout(s, t))
  }

  function Run(id: int, es: seq<Event>): Option<State> {
    if es == [] then Some(Init(id)) else
      match Run(id, es[..|es| - 1])
      case None => None
      case Some(s) => Step(s, es[|es| - 1])
  }

  /** While a value is out, the buffer is for the current instance; what was sent before is for earlier ones. */
  ghost predicate Orderly(s: State) {
    && s.currentIid >= 0
    && (forall a :: a in s.sent ==>
          && 0 <= a.iid <= s.currentIid
          && a.ballot == FixedBallot(s.id) && a.proposerId == s.id && |a.value| <= PAXOS_MAX_VALUE_SIZE
          && (a.iid == s.currentIid ==> s.clientWaiting && a == s.amsg))
    && (s.clientWaiting ==>
          && s.amsg.iid == s.currentIid && s.amsg.ballot == FixedBallot(s.id) && s.amsg.proposerId == s.id
          && |s.amsg.value| <= PAXOS_MAX_VALUE_SIZE)
    && (forall a, b :: a in s.sent && b in s.sent && a.iid == b.iid ==> a == b)
  }

  lemma StepIsOrderly(s: State, e: Event)
    requires Orderly(s)
    ensures Step(s, e).Some? ==> Orderly(Step(s, e).value)
    ensures Step(s, e) == None <==> e.Delivered? && e.iid != s.currentIid
  {
  }

  /** All the accepts one proposer ever sends for an instance are the same message, in its fixed ballot. */
  lemma {:induction false} OneAcceptPerInstance(id: int, es: seq<Event>)
    ensures var r := Run(id, es);
            r.Some? ==>
              && Orderly(r.value) && r.value.id == id
              && (forall a :: a in r.value.sent ==> a == Accept(a.iid, FixedBallot(id), id, a.value))
              && forall a, b :: a in r.value.sent && b in r.value.sent && a.iid == b.iid ==> a == b
  {
    if es == [] {
    } else {
      OneAcceptPerInstance(id, es[..|es| - 1]);
      if Run(id, es[..|es| - 1]).Some? {
        StepIsOrderly(Run(id, es[..|es| - 1]).value, es[|es| - 1]);
      }
    }
  }

  // ---------- who waits, and for what ----------

  predicate Runs(id: int, es: seq<Event>) {
    Run(id, es).Some?
  }

  /** The k-th event of the run is a submit that the proposer takes on. */
  predicate TakenOn(id: int, es: seq<Event>, k: nat) {
    && k < |es| && es[k].Submit? && |es[k].value| <= PAXOS_MAX_VALUE_SIZE
    && Runs(id, es[..k]) && !Run(id, es[..k]).value.clientWaiting
  }

  /** The event is the delivery of a value that goes by the proposer's name. */
  predicate Releases(id: int, e: Event) {
    e.Delivered? && e.proposer == id
  }

  /** The k-th event was a submit, and its value has not been delivered since. */
  ghost predicate Outstanding(id: int, es: seq<Event>, k: nat) {
    TakenOn(id, es, k) && forall j :: k < j < |es| ==> !Releases(id, es[j])
  }

  lemma {:induction false} PrefixRuns(id: int, es: seq<Event>, k: nat)
    requires Runs(id, es) && k <= |es|
    ensures Runs(id, es[..k])
    decreases |es|
  {
    if k == |es| {
      assert es[..k] == es;
    } else {
      var before := es[..|es| - 1];
      assert before[..k] == es[..k];
      PrefixRuns(id, before, k);
    }
  }

  lemma OutstandingBefore(id: int, es: seq<Event>, k: nat)
    requires es != [] && k < |es| - 1
    ensures var before := es[..|es| - 1];
            Outstanding(id, es, k) <==> Outstanding(id, before, k) && !Releases(id, es[|es| - 1])
  {
    var before := es[..|es| - 1];
    assert before[..k] == es[..k] && before[k] == es[k];
    forall j | k < j < |before| ensures before[j] == es[j] {}
  }

  /** What a waiting proposer is at: the submit, and its accept for the current instance, which has been sent. */
  ghost predicate WaitsFor(id: int, es: seq<Event>, k: nat, s: State) {
    && Outstanding(id, es, k) && s.clientWaiting
    && s.amsg == Accept(s.currentIid, FixedBallot(id), id, es[k].value) && s.amsg in s.sent
  }

  /**
   * The client waits exactly if a submit was taken on and no value in its proposer's name delivered since. Then
   * the value of that submit has been sent for the current instance.
   */
  lemma {:induction false} WaitsIff(id: int, es: seq<Event>)
    requires Runs(id, es)
    ensures var s := Run(id, es).value;
            && (s.clientWaiting <==> exists k: nat :: Outstanding(id, es, k))
            && (forall k: nat :: Outstanding(id, es, k) ==> WaitsFor(id, es, k, s))
            && s.id == id
  {
    if es == [] {
    } else {
      var before, e := es[..|es| - 1], es[|es| - 1];
      var s0, s := Run(id, before).value, Run(id, es).value;
      WaitsIff(id, before);
      OneAcceptPerInstance(id, before);
      forall k: nat | Outstanding(id, es, k) ensures WaitsFor(id, es, k, s) {
        if k < |before| {
          OutstandingBefore(id, es, k);
          assert WaitsFor(id, before, k, s0);
          assert before[k] == es[k];
          StepKeepsWaiting(s0, e);
        } else {
          assert es[..k] == before;
          StepStartsWaiting(s0, e);
        }
      }
      if s.clientWaiting {
        if s0.clientWaiting {
          var k: nat :| Outstanding(id, before, k);
          OutstandingBefore(id, es, k);
          assert Outstanding(id, es, k);
        } else {
          assert es[..|before|] == before;
          assert Outstanding(id, es, |before|);
        }
      }
    }
  }

  lemma StepStartsWaiting(s: State, e: Event)
    requires e.Submit? && |e.value| <= PAXOS_MAX_VALUE_SIZE && !s.clientWaiting
    ensures var t := Step(s, e).value;
            && t.clientWaiting && t.currentIid == s.currentIid
            && t.amsg == Accept(s.currentIid, FixedBallot(s.id), s.id, e.value) && t.amsg in t.sent
  {
    var t := Step(s, e).value;
    assert t.sent[|s.sent|] == t.amsg;
  }

  lemma StepKeepsWaiting(s: State, e: Event)
    requires s.clientWaiting && !Releases(s.id, e) && Step(s, e).Some?
    requires s.amsg.iid == s.currentIid && s.amsg in s.sent
    ensures var t := Step(s, e).value;
            t.clientWaiting && t.amsg == s.amsg.(iid := t.currentIid) && t.amsg in t.sent
  {
    var t := Step(s, e).value;
    if e.Delivered? {
      assert t.sent[|s.sent|] == t.amsg;
    }
  }

  /** From when its client no longer waits until it takes on the next submit, a proposer sends nothing. */
  lemma {:induction false} IdleIsSilent(id: int, es: seq<Event>, i: nat)
    requires Runs(id, es) && i <= |es|
    requires Runs(id, es[..i]) && !Run(id, es[..i]).value.clientWaiting
    requires forall k: nat :: i <= k < |es| ==> !TakenOn(id, es, k)
    ensures var s := Run(id, es).value; !s.clientWaiting && s.sent == Run(id, es[..i]).value.sent
    decreases |es|
  {
    if i == |es| {
      assert es[..i] == es;
    } else {
      var before := es[..|es| - 1];
      assert before[..i] == es[..i];
      forall k: nat | i <= k < |before| ensures !TakenOn(id, before, k) {
        assert before[..k] == es[..k] && !TakenOn(id, es, k);
      }
      IdleIsSilent(id, before, i);
      assert !TakenOn(id, es, |before|) && es[..|before|] == before;
    }
  }

  // ---------- timeouts ----------

  /** Every timeout that goes off had been set. */
  predicate Genuine(id: int, es: seq<Event>) {
    es == [] || (var before, e := es[..|es| - 1], es[|es| - 1];
                 Genuine(id, before) && (Runs(id, before) && e.TimedOut? ==> e.timeout in Run(id, before).value.timers))
  }

  /**
   * The timeouts set. While the value is out for the instance it was submitted for, the last one set is the one
   * the proposer compares with, and no other is like it; once it has gone on to a later instance, none is.
   */
  predicate TimersOk(s: State) {
    if !s.clientWaiting then forall t :: t in s.timers ==> t.instance < s.currentIid
    else
      && (forall t :: t in s.timers ==> t.instance <= s.currentIid)
      && (forall t :: t in s.timers && t.instance == s.currentIid ==> t.hash <= s.lastAcceptHash)
      && if s.lastAcceptIid == s.currentIid then
           && s.timers != [] && s.timers[|s.timers| - 1] == Timeout(s.currentIid, s.lastAcceptHash)
         else
           && s.lastAcceptIid == s.currentIid - 1
           && (forall t :: t in s.timers && t.instance == s.lastAcceptIid ==> t.hash < s.lastAcceptHash)
  }

  lemma StepKeepsTimersOk(s: State, e: Event)
    requires Orderly(s) && TimersOk(s) && Step(s, e).Some? && (e.TimedOut? ==> e.timeout in s.timers)
    ensures TimersOk(Step(s, e).value)
  {
  }

  lemma {:induction false} RunsKeepTimersOk(id: int, es: seq<Event>)
    requires Genuine(id, es) && Runs(id, es)
    ensures TimersOk(Run(id, es).value)
  {
    if es == [] {
    } else {
      var before := es[..|es| - 1];
      RunsKeepTimersOk(id, before);
      OneAcceptPerInstance(id, before);
      StepKeepsTimersOk(Run(id, before).value, es[|es| - 1]);
    }
  }

  /** The value is out for the instance it was submitted for: nothing has been delivered since. */
  ghost predicate StillThere(id: int, es: seq<Event>) {
    exists k: nat :: TakenOn(id, es, k) && forall j :: k < j < |es| ==> !es[j].Delivered?
  }

  lemma {:induction false} StillThereIff(id: int, es: seq<Event>)
    requires Runs(id, es)
    ensures var s := Run(id, es).value;
            StillThere(id, es) <==> s.clientWaiting && s.lastAcceptIid == s.currentIid
    ensures var s := Run(id, es).value;
            s.clientWaiting && s.lastAcceptIid != s.currentIid ==> s.lastAcceptIid == s.currentIid - 1
  {
    if es == [] {
    } else {
      var before, e := es[..|es| - 1], es[|es| - 1];
      var s0, s := Run(id, before).value, Run(id, es).value;
      StillThereIff(id, before);
      OneAcceptPerInstance(id, before);
      assert es[..|before|] == before;
      if StillThere(id, before) && !e.Delivered? {
        var k: nat :| TakenOn(id, before, k) && forall j :: k < j < |before| ==> !before[j].Delivered?;
        assert before[..k] == es[..k] && TakenOn(id, es, k);
      }
      if TakenOn(id, es, |before|) {
        assert StillThere(id, es);
      }
      if StillThere(id, es) {
        var k: nat :| TakenOn(id, es, k) && forall j :: k < j < |es| ==> !es[j].Delivered?;
        if k < |before| {
          assert before[..k] == es[..k] && TakenOn(id, before, k) && !es[|before|].Delivered?;
          assert StillThere(id, before);
        }
      }
    }
  }

  /**
   * When exactly a timeout makes the proposer send its accept again: it is the last one set, and the value is still
   * out for the instance it was submitted for. Once another value was delivered there, nothing is sent again.
   */
  lemma TimeoutResendsIff(id: int, es: seq<Event>, t: Timeout)
    requires Genuine(id, es) && Runs(id, es) && t in Run(id, es).value.timers
    ensures var s := Run(id, es).value;
            var again := StillThere(id, es) && t == s.timers[|s.timers| - 1];
            Runs(id, es + [TimedOut(t)])
            && Run(id, es + [TimedOut(t)]).value.sent == if again then s.sent + [s.amsg] else s.sent
  {
    assert (es + [TimedOut(t)])[..|es|] == es;
    RunsKeepTimersOk(id, es);
    StillThereIff(id, es);
    OneAcceptPerInstance(id, es);
  }

  predicate TimeoutsMatch(s: State) {
    |s.timers| == |s.sent| && forall k :: 0 <= k < |s.sent| ==> s.timers[k].instance == s.sent[k].iid
  }

  lemma StepKeepsMatch(s: State, e: Event)
    requires Orderly(s) && TimersOk(s) && TimeoutsMatch(s) && Step(s, e).Some?
    requires e.TimedOut? ==> e.timeout in s.timers
    ensures TimeoutsMatch(Step(s, e).value)
  {
  }

  /** Every accept sent sets a timeout, for its instance. */
  lemma {:induction false} EveryAcceptSetsTimeout(id: int, es: seq<Event>)
    requires Genuine(id, es) && Runs(id, es)
    ensures TimeoutsMatch(Run(id, es).value)
  {
    if es == [] {
    } else {
      var before := es[..|es| - 1];
      EveryAcceptSetsTimeout(id, before);
      RunsKeepTimersOk(id, before);
      OneAcceptPerInstance(id, before);
      StepKeepsMatch(Run(id, before).value, es[|es| - 1]);
    }
  }

  /** Proposer 0 has [7] out, somebody else's value is delivered in its place, and the timeout set then goes off. */
  lemma MovedIsNotResent()
    ensures var es := [Submit([7]), Delivered(0, 3)];
            && Genuine(0, es) && Runs(0, es)
            && var s := Run(0, es).value;
               && s.clientWaiting && s.timers == [Timeout(0, 1), Timeout(1, 2)] && s.amsg == Accept(1, 10, 0, [7])
               && Step(s, TimedOut(Timeout(1, 2))) == Some(s)
  {
    var es := [Submit([7]), Delivered(0, 3)];
    assert es[..1] == [Submit([7])] && es[..1][..0] == [];
    assert Run(0, es[..1]) == Some(SubmitValue(Init(0), [7]));
  }
}

module ProposerBuffer {
  import opened Common
  import M = ProposerModel

  class Proposer {
    const id: int
    var clientWaiting: bool
    var currentIid: int
    var lastAcceptIid: int
    var lastAcceptHash: int
    var amsg: Accept              // the accept in proposer_send_buffer
    var sent: seq<Accept>
    var timers: seq<M.Timeout>    // the timeouts set

    ghost function View(): M.State
      reads this
    {
      M.State(id, clientWaiting, currentIid, lastAcceptIid, lastAcceptHash, amsg, sent, timers)
    }

    constructor (id: int)
      ensures this.id == id && View() == M.Init(id)
    {
      this.id := id;
      clientWaiting, currentIid, lastAcceptIid, lastAcceptHash := false, 0, 0, 0;
      amsg, sent, timers := Accept(0, 0, 0, []), [], [];
    }

    method Send()
      modifies this`sent
      ensures View() == M.Send(old(View()))
    {
      sent := sent + [amsg];
    }

    /** proposer_submit_value, up to its wait; the client has no other value out. */
    method SubmitValue(value: Value)
      requires !clientWaiting
      modifies this
      ensures Some(View()) == M.Step(old(View()), M.Submit(value))
    {
      if |value| > PAXOS_MAX_VALUE_SIZE {
        return;
      }
      amsg := amsg.(iid := currentIid);
      lastAcceptIid := currentIid;
      lastAcceptHash := 1;
      clientWaiting := true;
      amsg := Accept(amsg.iid, FixedBallot(id), id, value);
      Send();
      timers := timers + [M.Timeout(amsg.iid, 1)];
    }

    /** proposer_deliver_callback; `aborted` is its failed assertion. */
    method DeliverCallback(iid: int, proposer: int) returns (aborted: bool)
      modifies this
      ensures (if aborted then None else Some(View())) == M.Step(old(View()), M.Delivered(iid, proposer))
    {
      var justAccepted := currentIid;
      currentIid := currentIid + 1;
      if justAccepted != iid {
        return true;
      }
      aborted := false;
      if !clientWaiting {
        return;
      }
      if id == proposer {
        clientWaiting := false;
      } else {
        amsg := amsg.(iid := currentIid);
        lastAcceptIid := justAccepted;
        lastAcceptHash := lastAcceptHash + 1;
        Send();
        timers := timers + [M.Timeout(amsg.iid, lastAcceptHash)];
      }
    }

    /** proposer_check_timeout */
    method CheckTimeout(t: M.Timeout)
      modifies this
      ensures Some(View()) == M.Step(old(View()), M.TimedOut(t))
    {
      if clientWaiting && t.instance == lastAcceptIid && t.hash == lastAcceptHash {
        lastAcceptHash := lastAcceptHash + 1;
        Send();
        timers := timers + [M.Timeout(t.instance, lastAcceptHash)];
      }
    }
  }
}
