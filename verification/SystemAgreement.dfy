/** When exactly two learners of the whole system always agree: the conditions of Disagreement, carried over. */
module SystemAgreement {
  import opened Common
  import M = LearnerModel
  import D = Deployment
  import Q = Protocol
  import opened Projection
  import Eviction
  import Lifting
  import Disagreement

  /** In every run that keeps the provisos, two learners with rings of w deliver the same values. */
  ghost predicate AlwaysAgrees(u: D.Setup, h: Q.Provisos, w: nat)
    requires u.Works()
  {
    forall es, ms, ms' :: Legal(u, h, es) && Heard(D.Exec(u, es), ms) && Heard(D.Exec(u, es), ms') ==>
      SameValues(M.Run(u.n, w, ms).log, M.Run(u.n, w, ms').log)
  }

  /** The same for the runs in which leaders hear of deliveries only from learners. */
  ghost predicate GroundedAgree(u: D.Setup, h: Q.Provisos, w: nat)
    requires u.Works()
  {
    forall es, ms, ms' ::
      Legal(u, h, es) && Eviction.Grounded(u, es) && Heard(D.Exec(u, es), ms) && Heard(D.Exec(u, es), ms') ==>
        SameValues(M.Run(u.n, w, ms).log, M.Run(u.n, w, ms').log)
  }

  lemma {:induction false} NoDeliveryIsGrounded(u: D.Setup, es: seq<D.Event>)
    requires u.Works() && Lifting.NoDelivery(es)
    ensures Eviction.Grounded(u, es)
  {
    if es == [] {
    } else {
      assert es[|es| - 1] in es;
      NoDeliveryIsGrounded(u, es[..|es| - 1]);
    }
  }

  /** What splits two learners in a plain run of the protocol splits them in the system. */
  lemma SplitsLift(u: D.Setup, h: Q.Provisos, w: nat)
    requires u.Works() && u.window < u.size && Disagreement.Splits(u.n, h, true, w)
    ensures !AlwaysAgrees(u, h, w) && !GroundedAgree(u, h, w)
  {
    var sys := Disagreement.Sys(u.n);
    var q, ms, ms' :| Disagreement.Reached(sys, h, true, q) && Disagreement.SplitBy(u.n, q, w, ms, ms');
    var ps :| Q.Legal(sys, h, ps) && Q.PlainRun(sys, ps) && Q.Exec(sys, ps) == q;
    var es := Lifting.PlainRunLifts(u, h, ps);
    NoDeliveryIsGrounded(u, es);
    LearnsAreHeard(u, D.Exec(u, es), q, ms);
    LearnsAreHeard(u, D.Exec(u, es), q, ms');
    assert !SameValues(M.Run(u.n, w, ms).log, M.Run(u.n, w, ms').log);
  }

  lemma LearnsAreHeard(u: D.Setup, s: D.State, q: Q.State, ms: seq<Learn>)
    requires D.Shaped(u, s) && Lifting.Lifts(u, s, q) && forall m :: m in ms ==> Q.MLearn(m) in q.net
    ensures Heard(s, ms)
  {
    forall m | m in ms ensures exists a :: 0 <= a < |s.acceptors| && m in s.acceptors[a].learns {
      assert Lifting.Offered(u, s, Q.MLearn(m));
    }
  }

  /**
   * The exact condition, for every number of acceptors, every array, and every window that fits the leaders'
   * rings, where the database itself does no harm.
   */
  lemma SystemAgreementIff(u: D.Setup, h: Q.Provisos, w: nat)
    requires u.Works() && u.window < u.size && u.n >= 1 && w >= 2 && h.fetchSpares && h.lsyncHeld
    ensures AlwaysAgrees(u, h, w) <==> h.anyvalSpares && (u.n == 1 || (h.lsyncCurrent && u.n <= 3))
  {
    if !h.anyvalSpares {
      Disagreement.AnyvalOverValueSplits(u.n, h, w);
      SplitsLift(u, h, w);
    } else if u.n > 1 && !h.lsyncCurrent {
      Disagreement.StaleLsyncSplits(u.n, h, w);
      SplitsLift(u, h, w);
    } else if u.n > 3 {
      Disagreement.FourAcceptorsSplit(u.n, h, w);
      SplitsLift(u, h, w);
    } else {
      forall es, ms, ms' | Legal(u, h, es) && Heard(D.Exec(u, es), ms) && Heard(D.Exec(u, es), ms')
        ensures SameValues(M.Run(u.n, w, ms).log, M.Run(u.n, w, ms').log)
      {
        SystemAgrees(u, h, es, w, ms, w, ms');
      }
    }
  }

  /** In grounded runs, with one and a half windows inside the acceptors' arrays, database answers do no harm. */
  lemma GroundedAgreementIff(u: D.Setup, h: Q.Provisos, w: nat)
    requires u.Works() && 2 <= u.window < u.size && u.window + u.window / 2 <= u.slots
    requires u.n >= 1 && w >= 2 && h.fetchSpares
    ensures GroundedAgree(u, h, w) <==> h.anyvalSpares && (u.n == 1 || (h.lsyncCurrent && u.n <= 3))
  {
    if !h.anyvalSpares {
      Disagreement.AnyvalOverValueSplits(u.n, h, w);
      SplitsLift(u, h, w);
    } else if u.n > 1 && !h.lsyncCurrent {
      Disagreement.StaleLsyncSplits(u.n, h, w);
      SplitsLift(u, h, w);
    } else if u.n > 3 {
      Disagreement.FourAcceptorsSplit(u.n, h, w);
      SplitsLift(u, h, w);
    } else {
      forall es, ms, ms' |
        Legal(u, h, es) && Eviction.Grounded(u, es) && Heard(D.Exec(u, es), ms) && Heard(D.Exec(u, es), ms')
        ensures SameValues(M.Run(u.n, w, ms).log, M.Run(u.n, w, ms').log)
      {
        Eviction.GroundedRunsAgree(u, h, es, w, ms, w, ms');
      }
    }
  }
}
