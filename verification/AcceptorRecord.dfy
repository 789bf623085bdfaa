/** The rules that lib/acceptor.c applies to one slot of its record array. */
module AcceptorRecord {
  import opened Common

  datatype Record = Record(iid: int, proposerId: int, ballot: int, valueBallot: int,
                           value: Option<Value>, anyEnabled: bool)

  // acceptor_start, on top of statically zeroed memory
  const EMPTY: Record := Record(-1, 0, -1, 0, None, false)

  /** The value bytes a record is written to disk or sent with. */
  function Bytes(r: Record): Value {
    if r.value.Some? then r.value.value else []
  }

  predicate AdmitsPrepare(r: Record, p: Prepare) {
    p.iid > r.iid || (p.iid == r.iid && p.ballot > r.ballot)
  }

  function Prepared(r: Record, p: Prepare): Record {
    if p.iid > r.iid then
      r.(iid := p.iid, ballot := p.ballot, valueBallot := -1, value := None)
    else if p.iid == r.iid && p.ballot > r.ballot then
      r.(ballot := p.ballot)
    else
      r
  }

  function PromiseOf(r: Record): Promise {
    Promise(r.iid, r.ballot, r.valueBallot, Bytes(r))
  }

  predicate AdmitsAccept(r: Record, a: Accept) {
    if a.iid == r.iid then
      r.anyEnabled || (a.ballot >= r.ballot && a.ballot >= MIN_BALLOT)
    else
      a.iid > r.iid && a.ballot >= MIN_BALLOT
  }

  function ApplyAccept(r: Record, a: Accept): Record {
    r.(iid := a.iid, ballot := a.ballot, valueBallot := a.ballot,
       proposerId := a.proposerId, value := Some(a.value))
  }

  function Accepted(r: Record, a: Accept): Record {
    if !AdmitsAccept(r, a) then r
    else if a.iid == r.iid then ApplyAccept(r.(anyEnabled := false), a)
    else ApplyAccept(r, a)
  }

  predicate AdmitsAnyval(r: Record, iid: int, ballot: int) {
    iid > r.iid || (iid == r.iid && (r.anyEnabled || ballot >= r.ballot))
  }

  function ApplyAnyval(r: Record, iid: int, ballot: int): Record {
    r.(iid := iid, ballot := ballot, valueBallot := -1, proposerId := -1,
       value := None, anyEnabled := true)
  }

  function Opened(r: Record, iid: int, ballot: int): Record {
    if AdmitsAnyval(r, iid, ballot) then ApplyAnyval(r, iid, ballot) else r
  }

  function LearnOf(acceptorId: int, r: Record): Learn {
    Learn(acceptorId, r.iid, r.ballot, r.proposerId, Bytes(r))
  }

  // ---------- runs of one slot ----------

  datatype SlotEvent =
    | OnPrepare(prepare: Prepare)
    | OnAccept(accept: Accept)
    | OnAnyval(iid: int, ballot: int)
    | OnLsync(instance: int)

  function EventIid(e: SlotEvent): int {
    match e
    case OnPrepare(p) => p.iid
    case OnAccept(a) => a.iid
    case OnAnyval(iid, _) => iid
    case OnLsync(iid) => iid
  }

  function SlotStep(r: Record, e: SlotEvent): Record {
    match e
    case OnPrepare(p) => Prepared(r, p)
    case OnAccept(a) => Accepted(r, a)
    case OnAnyval(iid, ballot) => Opened(r, iid, ballot)
    case OnLsync(_) => r
  }

  function SlotRun(r: Record, es: seq<SlotEvent>): Record {
    if es == [] then r else SlotStep(SlotRun(r, es[..|es| - 1]), es[|es| - 1])
  }

  /** Does the event leave a value held for its instance alone, as far as ANYVAL is concerned? */
  predicate SparesValue(r: Record, e: SlotEvent) {
    e.OnAnyval? && e.iid == r.iid && r.value.Some? ==> !AdmitsAnyval(r, e.iid, e.ballot)
  }

  /** Events of one instance, none of which lets an ANYVAL erase a held value. */
  ghost predicate SparingRun(r: Record, iid: int, es: seq<SlotEvent>) {
    forall i :: 0 <= i < |es| ==> EventIid(es[i]) == iid && SparesValue(SlotRun(r, es[..i]), es[i])
  }

  predicate WellFormed(r: Record) {
    && (r.anyEnabled ==> r.value.None?)
    && (r.value.Some? ==> r.valueBallot <= r.ballot)
  }

  lemma PrefixIsSparing(r: Record, iid: int, es: seq<SlotEvent>, k: nat)
    requires SparingRun(r, iid, es) && k <= |es|
    ensures SparingRun(r, iid, es[..k])
    ensures k < |es| ==> SparesValue(SlotRun(r, es[..k]), es[k]) && EventIid(es[k]) == iid
  {
    forall i | 0 <= i < k ensures es[..k][..i] == es[..i] {}
  }

  lemma {:induction false} RunIsWellFormed(iid: int, es: seq<SlotEvent>)
    requires iid >= 0
    requires SparingRun(EMPTY, iid, es)
    ensures WellFormed(SlotRun(EMPTY, es))
    ensures SlotRun(EMPTY, es).iid == iid || SlotRun(EMPTY, es) == EMPTY
  {
    if es == [] {
    } else {
      PrefixIsSparing(EMPTY, iid, es, |es| - 1);
      RunIsWellFormed(iid, es[..|es| - 1]);
    }
  }

  lemma StepRaisesBallots(r: Record, e: SlotEvent)
    requires WellFormed(r) && r.value.Some? && EventIid(e) == r.iid && SparesValue(r, e)
    ensures SlotStep(r, e).value.Some?
    ensures r.ballot <= SlotStep(r, e).ballot
    ensures r.valueBallot <= SlotStep(r, e).valueBallot <= SlotStep(r, e).ballot
  {
  }

  /** Once a value is held, neither ballot ever falls and the value's ballot stays within the promise. */
  lemma {:induction false} BallotsRiseAfterValue(iid: int, es: seq<SlotEvent>, i: nat)
    requires iid >= 0
    requires SparingRun(EMPTY, iid, es)
    requires i <= |es|
    requires SlotRun(EMPTY, es[..i]).value.Some?
    ensures SlotRun(EMPTY, es).value.Some?
    ensures SlotRun(EMPTY, es[..i]).ballot <= SlotRun(EMPTY, es).ballot
    ensures SlotRun(EMPTY, es[..i]).valueBallot <= SlotRun(EMPTY, es).valueBallot <= SlotRun(EMPTY, es).ballot
  {
    if i == |es| {
      assert es[..i] == es;
      RunIsWellFormed(iid, es);
    } else {
      var before := es[..|es| - 1];
      PrefixIsSparing(EMPTY, iid, es, |es| - 1);
      assert before[..i] == es[..i];
      BallotsRiseAfterValue(iid, before, i);
      RunIsWellFormed(iid, before);
      StepRaisesBallots(SlotRun(EMPTY, before), es[|es| - 1]);
    }
  }

  /** A promise given while a value is held is never undercut by a later vote. */
  lemma NoVoteBelowPromise(iid: int, es: seq<SlotEvent>, i: nat, j: nat)
    requires iid >= 0
    requires SparingRun(EMPTY, iid, es)
    requires i < j < |es|
    requires SlotRun(EMPTY, es[..i]).value.Some?
    requires es[i].OnPrepare? && AdmitsPrepare(SlotRun(EMPTY, es[..i]), es[i].prepare)
    requires es[j].OnAccept? && AdmitsAccept(SlotRun(EMPTY, es[..j]), es[j].accept)
    ensures es[i].prepare.ballot <= es[j].accept.ballot
    ensures SlotRun(EMPTY, es[..j]).valueBallot <= es[j].accept.ballot
  {
    PrefixIsSparing(EMPTY, iid, es, i);
    PrefixIsSparing(EMPTY, iid, es, j);
    RunIsWellFormed(iid, es[..i]);
    RunIsWellFormed(iid, es[..j]);
    assert es[..i + 1][..i] == es[..i] && es[..j][..i + 1] == es[..i + 1];
    assert SlotRun(EMPTY, es[..i + 1]) == SlotStep(SlotRun(EMPTY, es[..i]), es[i]);
    BallotsRiseAfterValue(iid, es[..j], i + 1);
  }

  /** When does an ANYVAL leave a held value in place? Exactly when its ballot is below the record's. */
  lemma AnyvalKeepsValueIff(r: Record, ballot: int)
    requires WellFormed(r) && r.value.Some?
    ensures Opened(r, r.iid, ballot).value == r.value <==> ballot < r.ballot
    ensures SparesValue(r, OnAnyval(r.iid, ballot)) <==> ballot < r.ballot
  {
  }

  // ---------- the credit of fast votes ----------

  function Bit(b: bool): nat {
    if b then 1 else 0
  }

  /** How many accepts below MIN_BALLOT the slot took in the run. */
  function FastAccepts(r: Record, es: seq<SlotEvent>): nat {
    if es == [] then 0 else
      var e := es[|es| - 1];
      FastAccepts(r, es[..|es| - 1])
      + Bit(e.OnAccept? && e.accept.ballot < MIN_BALLOT && AdmitsAccept(SlotRun(r, es[..|es| - 1]), e.accept))
  }

  /** How many ANYVALs were applied to the slot in the run. */
  function AnyvalsApplied(r: Record, es: seq<SlotEvent>): nat {
    if es == [] then 0 else
      var e := es[|es| - 1];
      AnyvalsApplied(r, es[..|es| - 1])
      + Bit(e.OnAnyval? && AdmitsAnyval(SlotRun(r, es[..|es| - 1]), e.iid, e.ballot))
  }

  /** One ANYVAL admits at most one fast value, whatever instances pass through the slot. */
  lemma {:induction false} FastVoteCredit(es: seq<SlotEvent>)
    ensures FastAccepts(EMPTY, es) + Bit(SlotRun(EMPTY, es).anyEnabled) <= AnyvalsApplied(EMPTY, es)
  {
    if es == [] {
    } else {
      FastVoteCredit(es[..|es| - 1]);
    }
  }

  // ---------- any_enabled ----------

  /** The k-th event enables fast votes in the slot: an ANYVAL that is applied. */
  predicate Enables(r: Record, es: seq<SlotEvent>, k: nat) {
    k < |es| && es[k].OnAnyval? && AdmitsAnyval(SlotRun(r, es[..k]), es[k].iid, es[k].ballot)
  }

  /** The k-th event uses the slot's leave: an accept taken for the instance that is in it. */
  predicate Uses(r: Record, es: seq<SlotEvent>, k: nat) {
    && k < |es| && es[k].OnAccept? && es[k].accept.iid == SlotRun(r, es[..k]).iid
    && AdmitsAccept(SlotRun(r, es[..k]), es[k].accept)
  }

  ghost predicate LeftEnabled(r: Record, es: seq<SlotEvent>) {
    exists k: nat :: Enables(r, es, k) && forall j: nat :: k < j < |es| ==> !Uses(r, es, j)
  }

  /**
   * any_enabled is set exactly if an ANYVAL was applied and no accept taken since for the instance then in the
   * slot. Neither prepares nor a later instance that takes the slot reset it.
   */
  lemma {:induction false} EnabledIff(es: seq<SlotEvent>)
    ensures SlotRun(EMPTY, es).anyEnabled <==> LeftEnabled(EMPTY, es)
  {
    if es == [] {
    } else {
      var before := es[..|es| - 1];
      EnabledIff(before);
      assert es[..|before|] == before;
      if LeftEnabled(EMPTY, es) {
        var k: nat :| Enables(EMPTY, es, k) && forall j: nat :: k < j < |es| ==> !Uses(EMPTY, es, j);
        if k < |before| {
          assert !Uses(EMPTY, es, |before|);
          EnabledBefore(es, k);
        }
      }
      if SlotRun(EMPTY, es).anyEnabled {
        if Enables(EMPTY, es, |before|) {
          assert LeftEnabled(EMPTY, es);
        } else {
          var k: nat :| Enables(EMPTY, before, k) && forall j: nat :: k < j < |before| ==> !Uses(EMPTY, before, j);
          EnabledAfter(before, es, k);
        }
      }
    }
  }

  lemma EnabledBefore(es: seq<SlotEvent>, k: nat)
    requires es != [] && k < |es| - 1 && Enables(EMPTY, es, k) && forall j: nat :: k < j < |es| ==> !Uses(EMPTY, es, j)
    ensures LeftEnabled(EMPTY, es[..|es| - 1])
  {
    var before := es[..|es| - 1];
    assert before[..k] == es[..k] && Enables(EMPTY, before, k);
    forall j: nat | k < j < |before| ensures !Uses(EMPTY, before, j) {
      assert before[..j] == es[..j] && !Uses(EMPTY, es, j);
    }
  }

  lemma EnabledAfter(before: seq<SlotEvent>, es: seq<SlotEvent>, k: nat)
    requires |es| == |before| + 1 && es[..|before|] == before && k < |before|
    requires Enables(EMPTY, before, k) && !Uses(EMPTY, es, |before|)
    requires forall j: nat :: k < j < |before| ==> !Uses(EMPTY, before, j)
    ensures LeftEnabled(EMPTY, es)
  {
    assert before[..k] == es[..k] && Enables(EMPTY, es, k);
    forall j: nat | k < j < |es| ensures !Uses(EMPTY, es, j) {
      if j < |before| {
        assert before[..j] == es[..j] && !Uses(EMPTY, before, j);
      }
    }
  }
}
