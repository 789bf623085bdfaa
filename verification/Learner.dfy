/**
 * lib/learner.c: the learner over its ring of records. Every method is proved against LearnerModel,
 * so the ring behaves as the unbounded map does.
 */
module LearnerRing {
  import opened Common
  import M = LearnerModel

  datatype Record = Record(iid: int, ballot: int, proposerId: int, finalValue: Option<Value>,
                           learns: seq<Option<Learn>>)

  const LSYNC_HEADER: int := PAXOS_MSG_SIZE + INT_SIZE

  /** The size in bytes of a retransmission request for the given number of instances. */
  function LsyncSize(count: int): int {
    LSYNC_HEADER + count * INT_SIZE
  }

  function Flatten(packets: seq<seq<int>>): seq<int> {
    if packets == [] then [] else Flatten(packets[..|packets| - 1]) + packets[|packets| - 1]
  }

  lemma FlattenOneMore(packets: seq<seq<int>>, p: seq<int>)
    ensures Flatten(packets + [p]) == Flatten(packets) + p
  {
    assert (packets + [p])[..|packets|] == packets;
  }

  /** The instances from lo up to hi that are not closed, in ascending order. */
  function Missing(s: M.State, lo: int, hi: int): seq<int>
    decreases if hi <= lo then 0 else hi - lo
  {
    if hi <= lo then [] else Missing(s, lo, hi - 1) + if M.ClosedAt(s, hi - 1) then [] else [hi - 1]
  }

  /** Missing is exactly the unclosed instances of the range, each once, ascending. */
  lemma {:induction false} MissingIsExact(s: M.State, lo: int, hi: int)
    ensures forall i :: i in Missing(s, lo, hi) <==> lo <= i < hi && !M.ClosedAt(s, i)
    ensures forall j, k :: 0 <= j < k < |Missing(s, lo, hi)| ==> Missing(s, lo, hi)[j] < Missing(s, lo, hi)[k]
    decreases if hi <= lo then 0 else hi - lo
  {
    if lo >= hi {
    } else {
      MissingIsExact(s, lo, hi - 1);
      var before := Missing(s, lo, hi - 1);
      forall k | 0 <= k < |before| ensures before[k] < hi - 1 {
        assert before[k] in before;
      }
    }
  }

  /** The slot of an instance against the record the map has for it. */
  predicate Holds(r: Record, rec: M.Rec) {
    && r.learns == rec.learns
    && (rec.closed.None? ==> r.finalValue.None?)
    && (rec.closed.Some? ==>
          r.finalValue.Some? && rec.closed.value == M.Closed(r.ballot, r.proposerId, r.finalValue.value))
  }

  ghost predicate SlotAgrees(recs: seq<Record>, s: M.State, iid: int)
    requires |recs| == s.window > 0
  {
    if recs[iid % s.window].iid == iid then Holds(recs[iid % s.window], M.Get(s, iid))
    else M.Get(s, iid) == M.Fresh(s.n)
  }

  /** The ring of records stands for the unbounded map. */
  ghost predicate RingFor(recs: seq<Record>, s: M.State) {
    && |recs| == s.window > 0
    && M.Consistent(s)
    && (forall k :: 0 <= k < s.window ==> |recs[k].learns| == s.n)
    && (forall k :: 0 <= k < s.window ==>
          recs[k].iid == 0 || (recs[k].iid % s.window == k && 0 <= recs[k].iid < s.delivered + s.window))
    && (forall iid :: M.InWindow(s, iid) ==> SlotAgrees(recs, s, iid))
    // a slot with a final value holds an undelivered instance of the window, congruent to its index
    && (forall k :: 0 <= k < s.window && recs[k].finalValue.Some? ==>
          recs[k].iid % s.window == k && M.InWindow(s, recs[k].iid))
  }

  /** The slot deliver_values looks at next tells whether that instance is closed, by final_value alone. */
  lemma NextSlot(recs: seq<Record>, s: M.State)
    requires RingFor(recs, s)
    ensures var r := recs[(s.delivered + 1) % s.window];
            && (r.finalValue.Some? <==> M.ClosedAt(s, s.delivered + 1))
            && (r.finalValue.Some? ==>
                  r.iid == s.delivered + 1
                  && M.DeliveryOf(s, r.iid) == M.Delivery(r.iid, r.ballot, r.proposerId, r.finalValue.value))
  {
    var i := s.delivered + 1;
    var r := recs[i % s.window];
    if r.finalValue.Some? {
      SameSlot(r.iid, i, s.window);
      assert SlotAgrees(recs, s, i);
    } else if M.InWindow(s, i) {
      assert SlotAgrees(recs, s, i);
    }
  }

  /** Freeing the slot of the next instance goes with delivering it. */
  lemma DeliveringKeepsRing(recs: seq<Record>, s: M.State)
    requires RingFor(recs, s) && M.ClosedAt(s, s.delivered + 1)
    ensures var k := (s.delivered + 1) % s.window;
            RingFor(recs[k := recs[k].(finalValue := None)], M.DeliverOne(s))
  {
    NextSlot(recs, s);
    M.DeliveringOneKeepsConsistent(s);
    var i := s.delivered + 1;
    var k := i % s.window;
    var recs' := recs[k := recs[k].(finalValue := None)];
    var t := M.DeliverOne(s);
    forall j | M.InWindow(t, j) ensures SlotAgrees(recs', t, j) {
      assert M.Get(t, j) == M.Get(s, j);
      if j % s.window == k { SameSlot(i, j, s.window); }
      if M.InWindow(s, j) {
        assert SlotAgrees(recs, s, j);
      } else {
        assert recs'[j % s.window].iid != j;
      }
    }
  }

  /** Writing the offered record back to its slot goes with recording it in the map. */
  lemma RecordingKeepsRing(recs: seq<Record>, s: M.State, m: Learn, r: Record)
    requires RingFor(recs, s) && M.Inv(s) && M.InWindow(s, m.iid)
    requires r.iid == m.iid && Holds(r, M.Offer(s.n, M.Get(s, m.iid), m))
    ensures RingFor(recs[m.iid % s.window := r], M.Recorded(s, m))
  {
    M.RecordingKeepsConsistent(s, m);
    var t := M.Recorded(s, m);
    var recs' := recs[m.iid % s.window := r];
    assert SlotAgrees(recs, s, m.iid);
    forall j | M.InWindow(t, j) ensures SlotAgrees(recs', t, j) {
      if j % s.window == m.iid % s.window {
        SameSlot(j, m.iid, s.window);
      } else {
        assert SlotAgrees(recs, s, j) && M.Get(t, j) == M.Get(s, j);
      }
    }
  }

  lemma SeeingKeepsRing(recs: seq<Record>, s: M.State, iid: int)
    requires RingFor(recs, s)
    ensures RingFor(recs, M.See(s, iid))
  {
    var t := M.See(s, iid);
    forall i ensures M.Get(t, i) == M.Get(s, i) {}
    forall i | 0 <= i <= t.delivered ensures M.ClosedAt(t, i) && t.log[i] == M.DeliveryOf(t, i) {
      assert M.ClosedAt(s, i) && s.log[i] == M.DeliveryOf(s, i);
    }
    forall i | M.InWindow(t, i) ensures SlotAgrees(recs, t, i) {
      assert SlotAgrees(recs, s, i);
    }
  }

  /** A message that is not news moves at most the highest instance seen. */
  lemma IgnoringKeepsRing(recs: seq<Record>, recs': seq<Record>, s: M.State, m: Learn)
    requires |recs'| == |recs| && RingFor(recs, s) && M.Inv(s)
    requires M.InWindow(s, m.iid) ==>
      var k, r := m.iid % s.window, M.Get(s, m.iid);
      && !(r.closed.None? && M.Stores(r, m))
      && recs' == recs[k := recs'[k]] && recs'[k].iid == m.iid && Holds(recs'[k], r)
    requires !M.InWindow(s, m.iid) ==> recs' == recs
    ensures RingFor(recs', M.HandleLearn(s, m))
  {
    if M.InWindow(s, m.iid) {
      RecordingKeepsRing(recs, s, m, recs'[m.iid % s.window]);
    } else {
      SeeingKeepsRing(recs, s, m.iid);
    }
  }

  lemma MissingOneMore(s: M.State, lo: int, i: int, front: seq<int>, back: seq<int>)
    requires lo <= i && front + back == Missing(s, lo, i)
    ensures M.ClosedAt(s, i) ==> front + back == Missing(s, lo, i + 1)
    ensures !M.ClosedAt(s, i) ==> front + (back + [i]) == Missing(s, lo, i + 1)
  {
    assert front + (back + [i]) == (front + back) + [i];
    assert (front + back) + [] == front + back;
  }

  lemma NothingMore(s: M.State, lo: int, i: int, hi: int)
    requires i == hi || (i == lo && hi <= i)
    ensures Missing(s, lo, i) == Missing(s, lo, hi)
  {
  }

  predicate Fitting(packets: seq<seq<int>>) {
    forall p :: p in packets ==> 0 < |p| && LsyncSize(|p|) <= MAX_UDP_MSG_SIZE
  }

  /** No packet has room for one more. */
  predicate Full(packets: seq<seq<int>>) {
    forall p :: p in packets ==> LsyncSize(|p| + 1) > MAX_UDP_MSG_SIZE
  }

  lemma OneMoreFits(packets: seq<seq<int>>, p: seq<int>)
    requires Fitting(packets) && 0 < |p| && LsyncSize(|p|) <= MAX_UDP_MSG_SIZE
    ensures Full(packets) && LsyncSize(|p| + 1) > MAX_UDP_MSG_SIZE ==> Full(packets + [p])
    ensures Fitting(packets + [p]) && Flatten(packets + [p]) == Flatten(packets) + p
  {
    FlattenOneMore(packets, p);
  }

  /** The last packet is sent too, unless it is empty. */
  function WithLast(packets: seq<seq<int>>, last: seq<int>): seq<seq<int>> {
    if |last| > 0 then packets + [last] else packets
  }

  lemma RestFits(packets: seq<seq<int>>, rest: seq<int>)
    requires Fitting(packets) && Full(packets) && LsyncSize(|rest|) <= MAX_UDP_MSG_SIZE
    ensures var all := WithLast(packets, rest); all != [] ==> Full(all[..|all| - 1])
    ensures Fitting(WithLast(packets, rest)) && Flatten(WithLast(packets, rest)) == Flatten(packets) + rest
  {
    if |rest| > 0 {
      OneMoreFits(packets, rest);
    }
  }

  /** The packets sent and the one being filled ask for what is missing from lo up to i. */
  predicate Asks(s: M.State, lo: int, i: int, packets: seq<seq<int>>, ids: seq<int>) {
    && Flatten(packets) + ids == Missing(s, lo, i)
    && Fitting(packets) && Full(packets) && LsyncSize(|ids| + 1) <= MAX_UDP_MSG_SIZE
  }

  class Learner {
    const n: nat
    const size: nat
    const records: array<Record>
    var highestDelivered: int
    var highestSeen: int
    var log: seq<M.Delivery>           // the calls of the deliver callback
    ghost var model: M.State           // the unbounded map this ring stands for

    /** What the ring satisfies at all times, even in the middle of a delivery. */
    ghost predicate Ring()
      reads this, records
    {
      && model.n == n && model.window == size
      && model.delivered == highestDelivered && model.seen == highestSeen && model.log == log
      && RingFor(records[..], model)
    }

    /** What holds between messages. */
    ghost predicate Valid()
      reads this, records
    {
      Ring() && M.Inv(model)
    }

    constructor (n: nat, size: nat)
      requires size > 0
      ensures Valid() && fresh(records)
      ensures this.n == n && this.size == size
      ensures model == M.Init(n, size)
    {
      this.n := n;
      this.size := size;
      this.records := new Record[size](_ => Record(0, 0, 0, None, seq(n, _ => None)));
      this.highestDelivered := -1;
      this.highestSeen := -1;
      this.log := [];
      this.model := M.Init(n, size);
    }

    /** add_learn_to_record on the record in slot k. */
    method AddLearnToRecord(k: nat, m: Learn) returns (stored: bool)
      requires k < records.Length
      requires |records[k].learns| == n
      modifies records
      ensures stored == M.Stores(M.Rec(old(records[k]).learns, None), m)
      ensures records[..] == old(records[..])[k := if stored
                then old(records[k]).(learns := old(records[k]).learns[m.acceptorId := Some(m)]) else old(records[k])]
    {
      if m.acceptorId < 0 || m.acceptorId >= n {
        return false;
      }
      var oldLearn := records[k].learns[m.acceptorId];
      if oldLearn.None? {
        records[k] := records[k].(learns := records[k].learns[m.acceptorId := Some(m)]);
        return true;
      }
      if oldLearn.value.ballot >= m.ballot {
        return false;
      }
      records[k] := records[k].(learns := records[k].learns[m.acceptorId := Some(m)]);
      return true;
    }

    /** Empties the record in slot k for a new instance. */
    method CleanRecord(k: nat, iid: int)
      requires k < records.Length
      requires |records[k].learns| == n
      modifies records
      ensures records[..] == old(records[..])[k :=
                old(records[k]).(iid := iid, finalValue := None, learns := seq(n, _ => None))]
    {
      records[k] := records[k].(iid := iid, finalValue := None);
      var i := 0;
      while i < n
        invariant 0 <= i <= n
        invariant |records[k].learns| == n
        invariant records[..] == old(records[..])[k :=
                    old(records[k]).(iid := iid, finalValue := None, learns := records[k].learns)]
        invariant forall j :: 0 <= j < i ==> records[k].learns[j] == None
      {
        records[k] := records[k].(learns := records[k].learns[i := None]);
        i := i + 1;
      }
      assert records[k].learns == seq(n, _ => None);
    }

    /** update_record: stores the message if its instance is in the window, open, and the message is news. */
    method UpdateRecord(m: Learn) returns (relevant: bool)
      requires size == records.Length == model.window && n == model.n && highestDelivered == model.delivered
      requires RingFor(records[..], model)
      modifies records
      ensures var r := M.Get(model, m.iid);
              relevant <==> M.InWindow(model, m.iid) && r.closed.None? && M.Stores(r, m)
      ensures !M.InWindow(model, m.iid) ==> records[..] == old(records[..])
      ensures M.InWindow(model, m.iid) ==>
        var k := m.iid % size;
        var rec := M.Get(model, m.iid);
        && records[..] == old(records[..])[k := records[k]]
        && records[k].iid == m.iid
        && Holds(records[k], if relevant then rec.(learns := rec.learns[m.acceptorId := Some(m)]) else rec)
    {
      if m.iid >= highestDelivered + size || m.iid <= highestDelivered {
        return false;
      }
      var k := m.iid % size;
      assert SlotAgrees(records[..], model, m.iid);
      if records[k].iid != m.iid {
        CleanRecord(k, m.iid);
        relevant := AddLearnToRecord(k, m);
      } else if records[k].finalValue.Some? {
        return false;
      } else {
        relevant := AddLearnToRecord(k, m);
      }
    }

    /** check_quorum: closes the record of m.iid if a quorum of stored learns has the ballot of m. */
    method CheckQuorum(m: Learn) returns (closed: bool)
      requires size > 0 && records.Length == size
      requires |records[m.iid % size].learns| == n
      modifies records
      ensures closed <==> |M.Voters(old(records[m.iid % size]).learns, m.ballot)| >= Quorum(n)
      ensures records[..] == old(records[..])[m.iid % size := if closed
                then old(records[m.iid % size]).(ballot := m.ballot, proposerId := m.proposerId,
                                                 finalValue := Some(m.value))
                else old(records[m.iid % size])]
    {
      var k := m.iid % size;
      var learns := records[k].learns;
      var count := 0;
      for i := 0 to n
        invariant count == |M.Voters(learns[..i], m.ballot)|
      {
        ghost var before, after := M.Voters(learns[..i], m.ballot), M.Voters(learns[..i + 1], m.ballot);
        if learns[i].Some? && learns[i].value.ballot == m.ballot {
          assert after == before + {i};
          count := count + 1;
        } else {
          assert after == before;
        }
      }
      assert learns[..n] == learns;
      if count >= Quorum(n) {
        records[k] := records[k].(ballot := m.ballot, proposerId := m.proposerId, finalValue := Some(m.value));
        return true;
      }
      return false;
    }

    /** One turn of the loop of deliver_values. */
    method DeliverNext(i: int)
      requires Ring() && i == highestDelivered + 1 && M.ClosedAt(model, i)
      modifies this`highestDelivered, this`log, this`model, records
      ensures Ring()
      ensures model == M.DeliverOne(old(model))
    {
      NextSlot(records[..], model);
      DeliveringKeepsRing(records[..], model);
      var k := i % size;
      ghost var freed := records[..][k := records[k].(finalValue := None)];
      log := log + [M.Delivery(i, records[k].ballot, records[k].proposerId, records[k].finalValue.value)];
      records[k] := records[k].(finalValue := None);
      assert records[..] == freed;
      highestDelivered := i;
      model := M.DeliverOne(model);
    }

    /** deliver_values: hands over the closed instances from instance on, freeing their slots. */
    method DeliverValues(instance: int)
      requires Ring() && instance == highestDelivered + 1
      modifies this`highestDelivered, this`log, this`model, records
      ensures Valid()
      ensures model == M.DeliverPrefix(old(model))
    {
      var i := instance;
      while true
        invariant Ring() && i == highestDelivered + 1
        invariant M.DeliverPrefix(model) == M.DeliverPrefix(old(model))
        decreases |M.Undelivered(model)|
      {
        NextSlot(records[..], model);
        if records[i % size].finalValue.None? {
          break;
        }
        M.DeliveringOneKeepsConsistent(model);
        DeliverNext(i);
        i := i + 1;
      }
    }

    /** learner_handle_learn_msg: the ring takes the message exactly as the unbounded map does. */
    method HandleLearnMsg(m: Learn)
      requires Valid()
      modifies this`highestDelivered, this`highestSeen, this`log, this`model, records
      ensures Valid()
      ensures model == M.HandleLearn(old(model), m)
      ensures highestDelivered == model.delivered && highestSeen == model.seen && log == model.log
    {
      if m.iid > highestSeen {
        highestSeen := m.iid;
      }
      M.HandleLearnKeepsInv(model, m);
      ghost var before, k := records[..], m.iid % size;
      var relevant := UpdateRecord(m);
      if !relevant {
        IgnoringKeepsRing(before, records[..], model, m);
        model := M.HandleLearn(model, m);
        return;
      }
      var closed := CheckQuorum(m);
      RecordingKeepsRing(before, model, m, records[k]);
      assert records[..] == before[k := records[k]];
      model := M.Recorded(model, m);
      if closed && m.iid == highestDelivered + 1 {
        DeliverValues(m.iid);
      }
    }

    /** The test of ask_retransmission: is the instance still to be asked for? */
    method IsMissing(i: int) returns (missing: bool)
      requires Ring() && i > highestDelivered
      ensures missing <==> !M.ClosedAt(model, i)
    {
      var rec := records[i % size];
      MissingTest(records[..], model, i);
      missing := (rec.iid == i && rec.finalValue.None?) || rec.iid < i;
    }

    /** Asks for one more instance, sending the packet when it is full. */
    method AddRequest(sent: seq<seq<int>>, pending: seq<int>, lo: int, i: int)
      returns (packets: seq<seq<int>>, ids: seq<int>)
      requires Asks(model, lo, i, sent, pending) && lo <= i && !M.ClosedAt(model, i)
      ensures Asks(model, lo, i + 1, packets, ids)
    {
      MissingOneMore(model, lo, i, Flatten(sent), pending);
      packets, ids := sent, pending + [i];
      if MAX_UDP_MSG_SIZE - LsyncSize(|ids|) < INT_SIZE {
        OneMoreFits(packets, ids);
        packets, ids := packets + [ids], [];
        assert Flatten(packets) + [] == Flatten(packets);
      }
    }

    /** One turn of ask_retransmission. */
    method AskFor(sent: seq<seq<int>>, pending: seq<int>, lo: int, i: int)
      returns (packets: seq<seq<int>>, ids: seq<int>)
      requires Ring() && lo <= i && i > highestDelivered && Asks(model, lo, i, sent, pending)
      ensures Asks(model, lo, i + 1, packets, ids)
    {
      packets, ids := sent, pending;
      var missing := IsMissing(i);
      if missing {
        packets, ids := AddRequest(packets, ids, lo, i);
      } else {
        MissingOneMore(model, lo, i, Flatten(packets), ids);
      }
    }

    /** The loop of ask_retransmission, from the instance after the last delivered one on. */
    method GatherRequests() returns (packets: seq<seq<int>>, ids: seq<int>)
      requires Ring()
      ensures Asks(model, highestDelivered + 1, highestSeen, packets, ids)
    {
      packets, ids := [], [];
      var lo := highestDelivered + 1;
      var i := lo;
      while i < highestSeen
        invariant lo <= i && (i <= highestSeen || i == lo)
        invariant Asks(model, lo, i, packets, ids)
      {
        packets, ids := AskFor(packets, ids, lo, i);
        i := i + 1;
      }
      NothingMore(model, lo, i, highestSeen);
    }

    /** ask_retransmission: asks for exactly the instances that are not closed, below the highest seen. */
    method AskRetransmission() returns (packets: seq<seq<int>>)
      requires Valid()
      ensures Flatten(packets) == Missing(model, highestDelivered + 1, highestSeen)
      ensures Fitting(packets) && (packets != [] ==> Full(packets[..|packets| - 1]))
    {
      var ids;
      packets, ids := GatherRequests();
      RestFits(packets, ids);
      packets := WithLast(packets, ids);
    }
  }

  /** The test of ask_retransmission is right even for instances beyond the ring's window. */
  lemma MissingTest(recs: seq<Record>, s: M.State, i: int)
    requires RingFor(recs, s) && i > s.delivered
    ensures var r := recs[i % s.window];
            (r.iid == i && r.finalValue.None?) || r.iid < i <==> !M.ClosedAt(s, i)
  {
    var r := recs[i % s.window];
    if M.InWindow(s, i) {
      assert SlotAgrees(recs, s, i);
      if r.iid > i {
        SameSlot(r.iid, i, s.window);
      }
    }
  }
}
