/** What phase 2 puts on the network: exactly its decisions. */
module LeaderEmission {
  import opened Common
  import opened LeaderModel
  import opened LeaderWindow

  /** The decisions taken without a value, in order. */
  function Valueless(ds: seq<Decision>): seq<Decision> {
    if ds == [] then [] else
      var d := ds[|ds| - 1];
      Valueless(ds[..|ds| - 1]) + if Choose(d.slot.promises).None? then [d] else []
  }

  /** The accepts of the instances decided with a value, in order. */
  function ValuedAccepts(ds: seq<Decision>): seq<Accept> {
    if ds == [] then [] else
      var d := ds[|ds| - 1];
      var choice := Choose(d.slot.promises);
      ValuedAccepts(ds[..|ds| - 1]) + if choice.Some? then [AcceptOf(d.slot, choice.value)] else []
  }

  function AcceptsIn(packets: seq<Packet>): seq<Accept> {
    if packets == [] then [] else
      var p := packets[|packets| - 1];
      AcceptsIn(packets[..|packets| - 1]) + if p.AcceptPacket? then [p.accept] else []
  }

  /** The ballot and the instances of an ANYVAL packet. */
  datatype Say = Say(ballot: int, iids: seq<int>)

  /** What the ANYVAL packets say, in order. */
  function AnyvalsIn(packets: seq<Packet>): seq<Say> {
    if packets == [] then [] else
      var p := packets[|packets| - 1];
      AnyvalsIn(packets[..|packets| - 1]) + if p.Anyvals? then [Say(p.ballot, p.iids)] else []
  }

  /** It says just what the decisions are: their targets, and the highest of their ballots. */
  predicate States(say: Say, ds: seq<Decision>) {
    && |say.iids| == |ds| > 0
    && (forall k :: 0 <= k < |ds| ==> say.iids[k] == ds[k].target)
    && (forall k :: 0 <= k < |ds| ==> ds[k].slot.ballot <= say.ballot)
    && (exists k :: 0 <= k < |ds| && ds[k].slot.ballot == say.ballot)
  }

  predicate AllState(says: seq<Say>, parts: seq<seq<Decision>>) {
    |says| == |parts| && forall k :: 0 <= k < |says| ==> States(says[k], parts[k])
  }

  /** One after the other they state the decisions, each its part of them. */
  ghost predicate Announces(says: seq<Say>, ds: seq<Decision>) {
    exists parts :: AllState(says, parts) && Joined(parts) == ds
  }

  /** Ballots are not negative. */
  predicate Positive(slots: seq<Slot>) {
    forall k :: 0 <= k < |slots| ==> slots[k].ballot >= 0
  }

  /** Between events: the packets sent carry exactly the decisions taken. */
  ghost predicate Emitted(s: State) {
    && Announces(AnyvalsIn(s.sent), Valueless(s.decisions))
    && AcceptsIn(s.sent) == ValuedAccepts(s.decisions)
    && Positive(s.slots)
  }

  /** The packet being filled states the decisions, or is empty. */
  predicate Open(say: Say, ds: seq<Decision>) {
    if say.iids == [] then say.ballot == -1 && ds == [] else States(say, ds)
  }

  /** The decisions are stated by packets and the one being filled. */
  ghost predicate Announcing(says: seq<Say>, say: Say, ds: seq<Decision>) {
    exists done, rest :: Announces(says, done) && Open(say, rest) && done + rest == ds
  }

  /** In the middle of execute_phase2 the last of the decisions are in the packet being filled. */
  ghost predicate Emitting(s: State) {
    && Announcing(AnyvalsIn(s.sent), Say(s.anyBallot, s.anyIids), Valueless(s.decisions))
    && AcceptsIn(s.sent) == ValuedAccepts(s.decisions)
    && Positive(s.slots)
  }

  lemma OneMoreDecision(ds: seq<Decision>, d: Decision)
    ensures Valueless(ds + [d]) == if Choose(d.slot.promises).None? then Valueless(ds) + [d] else Valueless(ds)
    ensures ValuedAccepts(ds + [d]) == if Choose(d.slot.promises).None? then ValuedAccepts(ds)
      else ValuedAccepts(ds) + [AcceptOf(d.slot, Choose(d.slot.promises).value)]
  {
    assert (ds + [d])[..|ds|] == ds;
  }

  lemma OneMorePacket(packets: seq<Packet>, p: Packet)
    ensures AcceptsIn(packets + [p]) == if p.AcceptPacket? then AcceptsIn(packets) + [p.accept] else AcceptsIn(packets)
    ensures AnyvalsIn(packets + [p])
         == if p.Anyvals? then AnyvalsIn(packets) + [Say(p.ballot, p.iids)] else AnyvalsIn(packets)
  {
    assert (packets + [p])[..|packets|] == packets;
  }

  lemma OneMoreSaid(says: seq<Say>, say: Say, done: seq<Decision>, rest: seq<Decision>)
    requires Announces(says, done) && States(say, rest)
    ensures Announces(says + [say], done + rest)
  {
    var parts :| AllState(says, parts) && Joined(parts) == done;
    JoinedOneMore(parts, rest);
    assert AllState(says + [say], parts + [rest]);
  }

  /** So every decision without a value was sent in an ANYVAL packet, of at least its ballot. */
  lemma AnnouncedIsSaid(says: seq<Say>, ds: seq<Decision>, d: Decision) returns (k: nat)
    requires Announces(says, ds) && d in ds
    ensures k < |says| && d.target in says[k].iids && d.slot.ballot <= says[k].ballot
  {
    var parts :| AllState(says, parts) && Joined(parts) == ds;
    k := JoinedHas(parts, d);
    assert States(says[k], parts[k]);
    var i :| 0 <= i < |parts[k]| && parts[k][i] == d;
    assert says[k].iids[i] == d.target;
  }

  lemma {:induction false} JoinedHas<T>(parts: seq<seq<T>>, x: T) returns (k: nat)
    requires x in Joined(parts)
    ensures k < |parts| && x in parts[k]
  {
    var front := parts[..|parts| - 1];
    if x in Joined(front) {
      k := JoinedHas(front, x);
    } else {
      k := |parts| - 1;
    }
  }

  lemma {:induction false} SaidIsSent(packets: seq<Packet>, k: nat) returns (j: nat)
    requires k < |AnyvalsIn(packets)|
    ensures j < |packets| && packets[j].Anyvals? && AnyvalsIn(packets)[k] == Say(packets[j].ballot, packets[j].iids)
  {
    var front := packets[..|packets| - 1];
    if k < |AnyvalsIn(front)| {
      j := SaidIsSent(front, k);
    } else {
      j := |packets| - 1;
    }
  }

  lemma {:induction false} ValuelessIsTaken(ds: seq<Decision>, d: Decision)
    requires d in ds && Choose(d.slot.promises).None?
    ensures d in Valueless(ds)
  {
    var front := ds[..|ds| - 1];
    if ds[|ds| - 1] != d {
      assert d in front;
      ValuelessIsTaken(front, d);
    }
  }

  // ---------- prepares do not interfere ----------

  lemma PreparesKeepEmitted(s: State, t: State, batch: seq<Prepare>)
    requires Emitted(s) && t.decisions == s.decisions && Positive(t.slots)
    requires t.sent == s.sent || t.sent == s.sent + [Prepares(batch)]
    ensures Emitted(t)
  {
    OneMorePacket(s.sent, Prepares(batch));
  }

  lemma AddPrepareKeepsEmitted(s: State, t: State, p: Prepare)
    requires Emitted(s) && t.sent == s.sent && t.decisions == s.decisions && Positive(t.slots)
    ensures Emitted(AddPrepare(t, p))
  {
    PreparesKeepEmitted(s, AddPrepare(t, p), t.batch + [p]);
  }

  lemma OpenFromKeepsEmitted(c: Config, s: State, i: int, to: int)
    requires Shaped(c, s) && Emitted(s) && c.id >= 0
    ensures Emitted(OpenFrom(c, s, i, to))
  {
    forall t, j | Shaped(c, t) && Emitted(t)
      ensures Emitted(AddPrepare(Opening(c, t, j), Prepare(j, FirstBallot(c.id))))
    {
      AddPrepareKeepsEmitted(t, Opening(c, t, j), Prepare(j, FirstBallot(c.id)));
    }
    OpenFromKeeps(c, s, i, to, t => Emitted(t));
  }

  lemma RestartFromKeepsEmitted(c: Config, s: State, i: int)
    requires Shaped(c, s) && Emitted(s)
    ensures Emitted(RestartFrom(c, s, i))
  {
    forall t, k | Shaped(c, t) && Emitted(t) && 0 <= k < c.size ensures Emitted(Restarting(c, t, k)) {
      var slot := Restarted(c.n, t.slots[k]);
      AddPrepareKeepsEmitted(t, t.(slots := t.slots[k := slot]), Prepare(slot.iid, slot.ballot));
    }
    RestartFromKeeps(c, s, i, t => Emitted(t));
  }

  lemma ExecutePhase1KeepsEmitted(c: Config, s: State)
    requires Shaped(c, s) && Emitted(s) && c.id >= 0
    ensures Emitted(ExecutePhase1(c, s))
  {
    var from := s.highestReady + 1;
    OpenFromKeepsEmitted(c, s, from, from + c.window);
    var s1 := OpenFrom(c, s, from, from + c.window);
    PreparesKeepEmitted(s1, ExecutePhase1(c, s), s1.batch);
  }

  lemma Phase1CheckKeepsEmitted(c: Config, s: State)
    requires Shaped(c, s) && Emitted(s) && c.id >= 0
    ensures Emitted(Phase1Check(c, s))
  {
    var s0 := s.(batch := []);
    RestartFromKeepsEmitted(c, s0, s.firstToCheck);
    var s1 := RestartFrom(c, s0, s.firstToCheck);
    var s2 := if s1.pendingCount + s1.readyCount < c.window / 2 then ExecutePhase1(c, s1) else s1;
    if s1.pendingCount + s1.readyCount < c.window / 2 { ExecutePhase1KeepsEmitted(c, s1); }
    PreparesKeepEmitted(s2, Phase1Check(c, s), s2.batch);
  }

  lemma Phase2CheckKeepsEmitted(c: Config, s: State)
    requires Shaped(c, s) && Emitted(s) && CheckHolds(c, s)
    ensures Emitted(Phase2Check(c, s))
  {
    if s.currentIid == s.checkedIid {
      var k := s.currentIid % c.size;
      var slot := Restarted(c.n, s.slots[k]);
      var p := Prepare(slot.iid, slot.ballot);
      var s1 := if s.slots[k].status == Finished
                then s.(readyCount := s.readyCount - 1, pendingCount := s.pendingCount + 1) else s;
      var s2 := s1.(slots := s.slots[k := slot], batch := []);
      AddPrepareKeepsEmitted(s, s2, p);
      PreparesKeepEmitted(AddPrepare(s2, p), Phase2Check(c, s), AddPrepare(s2, p).batch);
    }
  }

  // ---------- phase 2 ----------

  lemma {:induction false} HandlePromisesKeepsPositive(c: Config, s: State, a: int, ps: seq<Promise>)
    requires Shaped(c, s) && 0 <= a < c.n && Positive(s.slots)
    ensures Positive(HandlePromises(c, s, a, ps).slots)
    decreases |ps|
  {
    if ps == [] {
    } else {
      HandlePromisesKeepsPositive(c, HandlePromise(c, s, a, ps[0]), a, ps[1..]);
    }
  }

  /** One more instance in the packet being filled, for one more decision. */
  lemma FillingStates(say: Say, ds: seq<Decision>, d: Decision)
    requires Open(say, ds) && d.slot.ballot >= 0
    ensures States(Say(Max(say.ballot, d.slot.ballot), say.iids + [d.target]), ds + [d])
  {
    var more, ds' := Say(Max(say.ballot, d.slot.ballot), say.iids + [d.target]), ds + [d];
    if more.ballot == d.slot.ballot {
      assert ds'[|ds|].slot.ballot == more.ballot;
    } else {
      var k :| 0 <= k < |ds| && ds[k].slot.ballot == say.ballot;
      assert ds'[k].slot.ballot == more.ballot;
    }
  }

  lemma OneMoreAnnouncing(says: seq<Say>, say: Say, ds: seq<Decision>, d: Decision)
    requires Announcing(says, say, ds) && d.slot.ballot >= 0
    ensures Announcing(says, Say(Max(say.ballot, d.slot.ballot), say.iids + [d.target]), ds + [d])
  {
    var done, rest :| Announces(says, done) && Open(say, rest) && done + rest == ds;
    FillingStates(say, rest, d);
    assert done + (rest + [d]) == ds + [d];
  }

  lemma AnnouncingEnds(says: seq<Say>, say: Say, ds: seq<Decision>)
    requires Announcing(says, say, ds)
    ensures say.iids != [] ==> Announces(says + [say], ds)
    ensures say.iids == [] ==> Announces(says, ds)
  {
    var done, rest :| Announces(says, done) && Open(say, rest) && done + rest == ds;
    if say.iids != [] {
      OneMoreSaid(says, say, done, rest);
    } else {
      assert done + [] == done;
    }
  }

  lemma AnnouncingStarts(says: seq<Say>, ds: seq<Decision>)
    requires Announces(says, ds)
    ensures Announcing(says, Say(-1, []), ds)
  {
    assert ds + [] == ds && Open(Say(-1, []), []);
  }

  /** s with one more instance in the packet being filled, and the decision noted. */
  function Filled(s: State, d: Decision): State {
    s.(anyBallot := Max(s.anyBallot, d.slot.ballot), anyIids := s.anyIids + [d.target], decisions := s.decisions + [d])
  }

  lemma FillingKeepsEmitting(s: State, d: Decision)
    requires Emitting(s) && Choose(d.slot.promises).None? && d.slot.ballot >= 0
    ensures Emitting(Filled(s, d))
  {
    OneMoreDecision(s.decisions, d);
    OneMoreAnnouncing(AnyvalsIn(s.sent), Say(s.anyBallot, s.anyIids), Valueless(s.decisions), d);
  }

  /** The packet being filled is sent, and the next one started. */
  lemma FlushingKeepsEmitting(s: State, t: State)
    requires Emitting(s) && s.anyIids != [] && t.sent == s.sent + [Anyvals(s.anyBallot, s.anyIids)]
    requires t.anyIids == [] && t.anyBallot == -1 && t.decisions == s.decisions && t.slots == s.slots
    ensures Emitting(t) && Emitted(t)
  {
    AnnouncingEnds(AnyvalsIn(s.sent), Say(s.anyBallot, s.anyIids), Valueless(s.decisions));
    OneMorePacket(s.sent, Anyvals(s.anyBallot, s.anyIids));
    AnnouncingStarts(AnyvalsIn(t.sent), Valueless(t.decisions));
  }

  lemma DecideValueless(c: Config, s: State, i: int)
    requires Shaped(c, s) && Emitting(s) && Choose(s.slots[i % c.size].promises).None?
    ensures Emitting(Decide(c, s, i))
  {
    var k := i % c.size;
    var d := Decision(i, s.slots[k]);
    FillingKeepsEmitting(s, d);
    var t := Filled(s, d).(slots := s.slots[k := s.slots[k].(status := Finished)]);
    assert Emitting(t);
    var r := Decide(c, s, i);
    if AnyvalPacketSize(|t.anyIids|) + INT_SIZE > MAX_UDP_MSG_SIZE {
      FlushingKeepsEmitting(t, r);
    } else {
      assert r == t;
    }
  }

  lemma DecideValued(c: Config, s: State, i: int)
    requires Shaped(c, s) && Emitting(s) && Choose(s.slots[i % c.size].promises).Some?
    ensures Emitting(Decide(c, s, i))
  {
    var slot := s.slots[i % c.size];
    DecidedEmits(s, Decide(c, s, i), slot);
  }

  /** One more ACCEPT packet, for one more decision. */
  lemma DecidedEmits(s: State, t: State, slot: Slot)
    requires Emitting(s) && Choose(slot.promises).Some? && Positive(t.slots)
    requires t.sent == s.sent + [AcceptPacket(AcceptOf(slot, Choose(slot.promises).value))]
    requires t.decisions == s.decisions + [Decision(slot.iid, slot)]
    requires t.anyBallot == s.anyBallot && t.anyIids == s.anyIids
    ensures Emitting(t)
  {
    OneMoreDecision(s.decisions, Decision(slot.iid, slot));
    OneMorePacket(s.sent, AcceptPacket(AcceptOf(slot, Choose(slot.promises).value)));
  }

  lemma DecideKeepsEmitting(c: Config, s: State, i: int)
    requires Shaped(c, s) && Emitting(s)
    ensures Emitting(Decide(c, s, i))
  {
    if Choose(s.slots[i % c.size].promises).None? { DecideValueless(c, s, i); } else { DecideValued(c, s, i); }
  }

  lemma DecideFromKeepsEmitting(c: Config, s: State, i: int, last: int)
    requires Shaped(c, s) && Emitting(s)
    ensures Emitting(DecideFrom(c, s, i, last))
  {
    forall t, j | Shaped(c, t) && Emitting(t) ensures Emitting(Decide(c, t, j)) {
      DecideKeepsEmitting(c, t, j);
    }
    DecideFromKeeps(c, s, i, last, t => Emitting(t));
  }

  lemma ExecutePhase2KeepsEmitted(c: Config, s: State, first: int, last: int)
    requires Shaped(c, s) && Emitted(s)
    ensures Emitted(ExecutePhase2(c, s, first, last))
  {
    var s0 := s.(anyBallot := -1, anyIids := []);
    AnnouncingStarts(AnyvalsIn(s.sent), Valueless(s.decisions));
    DecideFromKeepsEmitting(c, s0, first, last);
    var s1 := DecideFrom(c, s0, first, last);
    if |s1.anyIids| > 0 {
      FlushingKeepsEmitting(s1, FlushAnyvals(s1).(anyBallot := -1, anyIids := []));
    } else {
      AnnouncingEnds(AnyvalsIn(s1.sent), Say(s1.anyBallot, s1.anyIids), Valueless(s1.decisions));
    }
  }

  lemma StepKeepsEmitted(c: Config, s: State, e: Event)
    requires Shaped(c, s) && FromAcceptor(c, e) && Emitted(s) && c.id >= 0
    ensures Step(c, s, e).Some? ==> Emitted(Step(c, s, e).value)
  {
    match e
    case Delivered(iid) =>
    case Phase1Timer => Phase1CheckKeepsEmitted(c, s);
    case Promises(a, ps) =>
      HandlePromisesKeepsSent(c, s, a, ps);
      HandlePromisesKeepsPositive(c, s, a, ps);
      ExecutePhase2KeepsEmitted(c, HandlePromises(c, s, a, ps), FirstIid(ps), LastIid(ps));
    case Phase2Timer => if CheckHolds(c, s) { Phase2CheckKeepsEmitted(c, s); }
  }

  /**
   * In every run the ACCEPTs sent are the decisions taken with a value, one for one and in order, and the ANYVAL
   * packets, part by part and in order, the decisions taken without: each packet lists the instances of its part
   * and carries the highest of their ballots.
   */
  lemma {:induction false} PacketsAreDecisions(c: Config, es: seq<Event>)
    requires c.size > 0 && c.id >= 0 && WellSent(c, es)
    ensures Run(c, es).Some? ==> Emitted(Run(c, es).value)
  {
    if es == [] {
      assert AllState([], []) && Joined<Decision>([]) == [];
      ExecutePhase1KeepsEmitted(c, Blank(c));
    } else {
      PacketsAreDecisions(c, es[..|es| - 1]);
      if Run(c, es[..|es| - 1]).Some? {
        StepKeepsEmitted(c, Run(c, es[..|es| - 1]).value, es[|es| - 1]);
      }
    }
  }
}
