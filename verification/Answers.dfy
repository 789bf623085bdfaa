/**
 * From the leader's requests to its decisions: an acceptor's answers are no wider than what they answer, so
 * a leader none of whose ticks is crowded decides every record for its own instance.
 */
module Answers {
  import opened Common
  import opened LeaderModel
  import opened LeaderWindow
  import opened LeaderTargets
  import opened LeaderTraffic
  import LeaderRequests
  import P = PromisePackets
  import A = AcceptorCache

  /** A promise packet that answers a part of the request, in its order. */
  predicate AnswersTo(ps: seq<Promise>, request: seq<Prepare>) {
    && P.Ascending(ps)
    && (forall p :: p in ps ==> Prepare(p.iid, p.ballot) in request)
  }

  lemma {:induction false} PromisesAnswer(d: A.Disk, request: seq<Prepare>)
    requires forall k :: k in d ==> d[k].iid == k
    ensures forall p :: p in A.MapPromises(d, request) ==> Prepare(p.iid, p.ballot) in request
    ensures forall k :: k in A.MapPrepares(d, request) ==> A.MapPrepares(d, request)[k].iid == k
  {
    if request == [] {
    } else {
      PromisesAnswer(d, request[..|request| - 1]);
    }
  }

  /** Each packet an acceptor sends in answer to an ascending request answers a part of it. */
  lemma PacketsAnswer(d: A.Disk, request: seq<Prepare>, before: seq<seq<Byte>>, after: seq<seq<Byte>>)
    requires forall k :: k in d ==> d[k].iid == k
    requires LeaderRequests.Ascending(request) && forall i :: 0 <= i < |request| ==> request[i].iid >= 0
    requires before <= after && P.Received(after) == P.Received(before) + A.MapPromises(d, request)
    ensures forall k :: |before| <= k < |after| ==> AnswersTo(P.Contents(after[k]), request)
  {
    A.PromisesAscend(d, request);
    PromisesAnswer(d, request);
    var ps := A.MapPromises(d, request);
    forall k | |before| <= k < |after| ensures AnswersTo(P.Contents(after[k]), request) {
      P.PacketsAscend(before, after, ps, k);
    }
  }

  lemma AnswerIsNarrow(c: Config, ps: seq<Promise>, request: seq<Prepare>)
    requires c.size > 0 && AnswersTo(ps, request) && NarrowRequest(c, request)
    ensures Narrow(c, ps)
  {
    forall p | p in ps ensures ps[0].iid <= p.iid <= ps[|ps| - 1].iid {
      var i :| 0 <= i < |ps| && ps[i] == p;
    }
    if ps != [] {
      var p, q := ps[0], ps[|ps| - 1];
      assert Prepare(p.iid, p.ballot) in request && Prepare(q.iid, q.ballot) in request;
    }
  }

  /** Every promise packet of the run answers a request of this leader, or a narrow one of another. */
  ghost predicate Solicited(c: Config, es: seq<Event>)
    requires c.size > 0 && WellSent(c, es)
  {
    es != [] ==>
      && Solicited(c, es[..|es| - 1])
      && var r, e := Run(c, es[..|es| - 1]), es[|es| - 1];
         r.Some? && e.Promises? ==>
           exists request :: AnswersTo(e.promises, request)
                             && (Prepares(request) in r.value.sent || NarrowRequest(c, request))
  }

  /**
   * As long as no tick of the leader is crowded, and the other leaders' requests are narrow, the answers are
   * decided for their own instances. RequestsAreNarrowIff says when the others' are.
   */
  lemma {:induction false} QuietRunsAlign(c: Config, es: seq<Event>)
    requires 0 < c.size && c.window < c.size && WellSent(c, es) && InOrder(es)
    requires Solicited(c, es) && QuietTicks(c, es) && Run(c, es).Some?
    ensures NarrowBatches(c, es) && AllAligned(Run(c, es).value)
  {
    if es != [] {
      var before, e := es[..|es| - 1], es[|es| - 1];
      PrefixInOrder(es);
      QuietRunsAlign(c, before);
      RequestsAreNarrowIff(c, before);
      var sent := Run(c, before).value.sent;
      if e.Promises? {
        var request :| AnswersTo(e.promises, request) && (Prepares(request) in sent || NarrowRequest(c, request));
        if k :| 0 <= k < |sent| && sent[k] == Prepares(request) {
          assert NarrowRequest(c, sent[k].prepares);
        }
        AnswerIsNarrow(c, e.promises, request);
      }
      forall i | 0 <= i < |es| && es[i].Promises? ensures Narrow(c, es[i].promises) {
        assert i < |before| ==> before[i] == es[i];
      }
    }
    NarrowRunsAlign(c, es);
  }
}
