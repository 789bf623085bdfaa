/** Runs of an acceptor, array and database together: which of its votes a retransmission request brings back. */
module AcceptorRuns {
  import opened Common
  import R = AcceptorRecord
  import opened AcceptorCache

  datatype Event =
    | OnPrepare(prepare: Prepare)
    | OnAccept(accept: Accept, any: bool)
    | OnAnyval(iid: int, ballot: int, any: bool)
    | OnLsync(iid: int)

  /** Instances and ballots are not negative. */
  predicate Proper(e: Event) {
    match e
    case OnPrepare(p) => p.iid >= 0 && p.ballot >= 0
    case OnAccept(a, _) => a.iid >= 0 && a.ballot >= 0
    case OnAnyval(i, b, _) => i >= 0 && b >= 0
    case OnLsync(i) => i >= 0
  }

  function Step(m: Memory, e: Event): (r: Memory)
    requires |m.slots| > 0
    ensures |r.slots| == |m.slots|
  {
    match e
    case OnPrepare(p) => AfterPrepare(m, p)
    case OnAccept(a, any) => AfterAccept(m, any, a)
    case OnAnyval(i, b, any) => AfterAnyval(m, any, i, b)
    case OnLsync(_) => m
  }

  function Run(size: nat, es: seq<Event>): (r: Memory)
    requires size > 0
    ensures |r.slots| == size
  {
    if es == [] then Empty(size) else Step(Run(size, es[..|es| - 1]), es[|es| - 1])
  }

  predicate AllProper(es: seq<Event>) {
    forall i :: 0 <= i < |es| ==> Proper(es[i])
  }

  lemma StepKeepsCoherent(m: Memory, e: Event)
    requires Coherent(m.slots, m.disk) && Proper(e)
    ensures Coherent(Step(m, e).slots, Step(m, e).disk)
  {
    match e
    case OnPrepare(p) => PrepareKeepsCoherent(m, p);
    case OnAccept(a, any) => AcceptKeepsCoherent(m, any, a);
    case OnAnyval(i, b, any) => AnyvalKeepsCoherent(m, any, i, b);
    case OnLsync(_) =>
  }

  lemma PrepareKeepsCoherent(m: Memory, p: Prepare)
    requires Coherent(m.slots, m.disk) && p.iid >= 0 && p.ballot >= 0
    ensures var r := AfterPrepare(m, p); Coherent(r.slots, r.disk)
  {
  }

  lemma AcceptKeepsCoherent(m: Memory, any: bool, a: Accept)
    requires Coherent(m.slots, m.disk) && a.iid >= 0 && a.ballot >= 0
    ensures var r := AfterAccept(m, any, a); Coherent(r.slots, r.disk)
  {
  }

  lemma AnyvalKeepsCoherent(m: Memory, any: bool, iid: int, ballot: int)
    requires Coherent(m.slots, m.disk) && iid >= 0
    ensures var r := AfterAnyval(m, any, iid, ballot); Coherent(r.slots, r.disk)
  {
  }

  lemma {:induction false} RunIsCoherent(size: nat, es: seq<Event>)
    requires size > 0 && AllProper(es)
    ensures Coherent(Run(size, es).slots, Run(size, es).disk)
  {
    if es == [] {
    } else {
      RunIsCoherent(size, es[..|es| - 1]);
      StepKeepsCoherent(Run(size, es[..|es| - 1]), es[|es| - 1]);
    }
  }

  // ---------- one request ----------

  /**
   * A record of the plain map that holds a value is answered, from its slot or from the database, by one learn
   * with the value and the record's ballot. Nothing is answered exactly if there is no record, or if it is in its
   * slot and has no value.
   */
  lemma LsyncAnswersRecord(m: Memory, iid: int, any: bool, proposerId: int, id: int)
    requires Coherent(m.slots, m.disk) && iid >= 0
    ensures var r, answer := RecordAt(m.disk, iid, any), LsyncAnswer(m, proposerId, id, iid);
            && (r.value.Some? ==>
                  |answer| == 1 && answer[0].acceptorId == id && answer[0].iid == iid
                  && answer[0].ballot == r.ballot && answer[0].value == r.value.value)
            && (answer == [] <==> iid !in m.disk || (m.slots[iid % |m.slots|].iid == iid && r.value.None?))
            && (answer != [] && r.value.None? ==>
                  answer == [Learn(id, iid, r.ballot, proposerId, m.disk[iid].value)]
                  && m.slots[iid % |m.slots|].iid > iid)
  {
    SlotDecidesCoherent(m, iid);
  }

  lemma SlotDecidesCoherent(m: Memory, iid: int)
    requires Coherent(m.slots, m.disk) && iid >= 0
    ensures var r := m.slots[iid % |m.slots|];
            && (iid > r.iid ==> iid !in m.disk)
            && (iid == r.iid ==> iid in m.disk && m.disk[iid] == Flatten(r))
  {
  }

  /**
   * An accept is answered by one learn with its ballot, proposer and value exactly if it is taken: for an instance
   * never seen if it is classic, for one on record if any_enabled is set or its ballot is classic and not below the
   * record's.
   */
  lemma AcceptAnswersVote(m: Memory, a: Accept, any: bool, id: int)
    requires Coherent(m.slots, m.disk) && a.iid >= 0 && a.ballot >= 0
    ensures AcceptAnswer(m, any, id, a)
         == if (if a.iid in m.disk
                then BitAt(m, a.iid, any) || (a.ballot >= m.disk[a.iid].ballot && a.ballot >= MIN_BALLOT)
                else a.ballot >= MIN_BALLOT)
            then [Learn(id, a.iid, a.ballot, a.proposerId, a.value)] else []
  {
    SlotDecidesCoherent(m, a.iid);
  }

  /** A prepare is answered by what is on record, exactly if its ballot is above the record's or there is none. */
  lemma PrepareAnswersRecord(m: Memory, p: Prepare)
    requires Coherent(m.slots, m.disk) && p.iid >= 0 && p.ballot >= 0
    ensures MapPromise(m.disk, p)
         == if p.iid !in m.disk then [Promise(p.iid, p.ballot, -1, [])]
            else var r := m.disk[p.iid];
                 if p.ballot > r.ballot
                 then [Promise(p.iid, p.ballot, r.valueBallot, if r.valueBallot == -1 then [] else r.value)] else []
  {
  }

  // ---------- every run ----------

  /** Does the event put something else in the place of what the acceptor has voted for in instance iid? */
  predicate Replaces(m: Memory, e: Event, iid: int)
    requires |m.slots| > 0
  {
    match e
    case OnAccept(a, any) => a.iid == iid && R.AdmitsAccept(Looked(m, iid, any), a)
    case OnAnyval(i, b, any) => i == iid && !Faults(m, iid) && R.AdmitsAnyval(Looked(m, iid, any), i, b)
    case _ => false
  }

  /** The database has the vote, perhaps with a higher ballot promised since. */
  predicate HasVote(m: Memory, a: Accept) {
    a.iid in m.disk && m.disk[a.iid].valueBallot == a.ballot && m.disk[a.iid].value == a.value
  }

  lemma VoteIsStored(m: Memory, a: Accept, any: bool)
    requires Coherent(m.slots, m.disk) && a.iid >= 0 && a.ballot >= 0 && Replaces(m, OnAccept(a, any), a.iid)
    ensures HasVote(AfterAccept(m, any, a), a)
  {
    SlotDecidesCoherent(m, a.iid);
  }

  lemma VoteStays(m: Memory, a: Accept, e: Event)
    requires Coherent(m.slots, m.disk) && Proper(e) && a.iid >= 0 && a.ballot >= 0
    requires HasVote(m, a) && !Replaces(m, e, a.iid)
    ensures HasVote(Step(m, e), a)
  {
    SlotDecidesCoherent(m, a.iid);
  }

  lemma {:induction false} UnreplacedVoteStays(size: nat, es: seq<Event>, j: nat)
    requires size > 0 && AllProper(es) && j < |es| && es[j].OnAccept?
    requires Replaces(Run(size, es[..j]), es[j], es[j].accept.iid)
    requires forall i :: j < i < |es| ==> !Replaces(Run(size, es[..i]), es[i], es[j].accept.iid)
    ensures HasVote(Run(size, es), es[j].accept)
    decreases |es|
  {
    var before, last := es[..|es| - 1], es[|es| - 1];
    RunIsCoherent(size, before);
    if j == |es| - 1 {
      VoteIsStored(Run(size, before), last.accept, last.any);
    } else {
      assert before[..j] == es[..j];
      forall i | j < i < |before| ensures before[..i] == es[..i] {}
      UnreplacedVoteStays(size, before, j);
      VoteStays(Run(size, before), es[j].accept, last);
    }
  }

  /** Every vote that nothing replaced since is answered, whether its instance is still in its slot or not. */
  lemma EveryVoteIsAnswered(size: nat, es: seq<Event>, j: nat, proposerId: int, id: int)
    requires size > 0 && AllProper(es) && j < |es| && es[j].OnAccept?
    requires Replaces(Run(size, es[..j]), es[j], es[j].accept.iid)
    requires forall i :: j < i < |es| ==> !Replaces(Run(size, es[..i]), es[i], es[j].accept.iid)
    ensures var a, answer := es[j].accept, LsyncAnswer(Run(size, es), proposerId, id, es[j].accept.iid);
            && |answer| == 1 && answer[0].acceptorId == id && answer[0].iid == a.iid && answer[0].value == a.value
            && a.iid in Run(size, es).disk && answer[0].ballot == Run(size, es).disk[a.iid].ballot
  {
    RunIsCoherent(size, es);
    UnreplacedVoteStays(size, es, j);
    LsyncAnswersRecord(Run(size, es), es[j].accept.iid, false, proposerId, id);
  }
}
