/**
 * lib/acceptor.c with lib/acceptor_disk_helpers.c: an array of records in front of a database.
 * Every handler is proved to act as the record rules do on a plain map from instances to records,
 * in which nothing is ever evicted.
 */
module AcceptorCache {
  import opened Common
  import R = AcceptorRecord
  import opened PromisePackets

  /** A flattened record, as the database keeps it: any_enabled and proposer_id are not written. */
  datatype Stored = Stored(iid: int, ballot: int, valueBallot: int, value: Value)
  type Disk = map<int, Stored>

  function Flatten(r: R.Record): Stored {
    Stored(r.iid, r.ballot, r.valueBallot, R.Bytes(r))
  }

  // ---------- the plain map ----------

  /** The record of an instance in the plain map, with what the database does not say about it. */
  function RecordAt(d: Disk, iid: int, anyEnabled: bool): R.Record {
    if iid in d then
      R.Record(d[iid].iid, 0, d[iid].ballot, d[iid].valueBallot,
               if d[iid].valueBallot == -1 then None else Some(d[iid].value), anyEnabled)
    else R.EMPTY
  }

  function MapPrepare(d: Disk, p: Prepare): Disk {
    var r := RecordAt(d, p.iid, false);
    if R.AdmitsPrepare(r, p) then d[p.iid := Flatten(R.Prepared(r, p))] else d
  }

  function MapPromise(d: Disk, p: Prepare): seq<Promise> {
    var r := RecordAt(d, p.iid, false);
    if R.AdmitsPrepare(r, p) then [R.PromiseOf(R.Prepared(r, p))] else []
  }

  function MapPrepares(d: Disk, ps: seq<Prepare>): Disk {
    if ps == [] then d else MapPrepare(MapPrepares(d, ps[..|ps| - 1]), ps[|ps| - 1])
  }

  function MapPromises(d: Disk, ps: seq<Prepare>): seq<Promise> {
    if ps == [] then [] else
      MapPromises(d, ps[..|ps| - 1]) + MapPromise(MapPrepares(d, ps[..|ps| - 1]), ps[|ps| - 1])
  }

  function MapAccept(d: Disk, any: bool, a: Accept): Disk {
    var r := RecordAt(d, a.iid, any);
    if R.AdmitsAccept(r, a) then d[a.iid := Flatten(R.Accepted(r, a))] else d
  }

  function MapLearn(d: Disk, any: bool, acceptorId: int, a: Accept): seq<Learn> {
    var r := RecordAt(d, a.iid, any);
    if R.AdmitsAccept(r, a) then [R.LearnOf(acceptorId, R.Accepted(r, a))] else []
  }

  function MapAnyval(d: Disk, any: bool, iid: int, ballot: int): Disk {
    var r := RecordAt(d, iid, any);
    if R.AdmitsAnyval(r, iid, ballot) then d[iid := Flatten(R.ApplyAnyval(r, iid, ballot))] else d
  }

  /**
   * So every message acts on the plain map as on one record per instance, kept for ever, and is answered from
   * it: the map loses nothing of a record but whose proposal it holds.
   */
  lemma PlainMapFollowsRecords(d: Disk, i: int, any: bool, id: int, p: Prepare, a: Accept, iid: int, ballot: int)
    requires forall k :: k in d ==> d[k].iid == k && k >= 0
    requires i >= 0 && p.iid >= 0 && a.iid >= 0 && a.ballot >= 0 && iid >= 0
    requires i !in d ==> !any
    ensures var r := RecordAt(d, i, any);
            && RecordAt(MapPrepare(d, p), i, any) == (if p.iid == i then R.Prepared(r, p) else r)
            && (p.iid == i ==>
                  MapPromise(d, p) == if R.AdmitsPrepare(r, p) then [R.PromiseOf(R.Prepared(r, p))] else [])
    ensures var r, r' := RecordAt(d, i, any), R.Accepted(RecordAt(d, i, any), a);
            && (a.iid != i ==> RecordAt(MapAccept(d, any, a), i, any) == r)
            && (a.iid == i ==>
                  && RecordAt(MapAccept(d, any, a), i, r'.anyEnabled) == r'.(proposerId := 0)
                  && MapLearn(d, any, id, a) == if R.AdmitsAccept(r, a) then [R.LearnOf(id, r')] else [])
    ensures var r, r' := RecordAt(d, i, any), R.Opened(RecordAt(d, i, any), iid, ballot);
            && (iid != i ==> RecordAt(MapAnyval(d, any, iid, ballot), i, any) == r)
            && (iid == i ==> RecordAt(MapAnyval(d, any, iid, ballot), i, r'.anyEnabled) == r'.(proposerId := 0))
  {
  }

  // ---------- array and database together ----------

  /** What an acceptor holds: its array of records, and its database. */
  datatype Memory = Memory(slots: seq<R.Record>, disk: Disk)

  /** An acceptor that has just started. */
  function Empty(size: nat): Memory {
    Memory(seq(size, _ => R.EMPTY), map[])
  }

  function SlotOf(m: Memory, iid: int): R.Record
    requires |m.slots| > 0
  {
    m.slots[iid % |m.slots|]
  }

  /** The slot has been taken by a later instance. */
  predicate Behind(m: Memory, iid: int)
    requires |m.slots| > 0
  {
    iid < SlotOf(m, iid).iid
  }

  /** The record a handler works on; `any` is the bit it finds set or not if the record comes from the database. */
  function Looked(m: Memory, iid: int, any: bool): R.Record
    requires |m.slots| > 0
  {
    if Behind(m, iid) then RecordAt(m.disk, iid, any) else SlotOf(m, iid)
  }

  /** any_enabled, as far as the handlers see it. */
  function BitAt(m: Memory, iid: int, any: bool): bool
    requires |m.slots| > 0
  {
    if Behind(m, iid) then any else SlotOf(m, iid).anyEnabled
  }

  function AfterPrepare(m: Memory, p: Prepare): Memory
    requires |m.slots| > 0
  {
    Memory(m.slots[p.iid % |m.slots| := R.Prepared(SlotOf(m, p.iid), p)], MapPrepare(m.disk, p))
  }

  function AfterPrepares(m: Memory, ps: seq<Prepare>): (r: Memory)
    requires |m.slots| > 0
    ensures |r.slots| == |m.slots| && r.disk == MapPrepares(m.disk, ps)
  {
    if ps == [] then m else AfterPrepare(AfterPrepares(m, ps[..|ps| - 1]), ps[|ps| - 1])
  }

  function AfterAccept(m: Memory, any: bool, a: Accept): Memory
    requires |m.slots| > 0
  {
    Memory(m.slots[a.iid % |m.slots| := R.Accepted(SlotOf(m, a.iid), a)], MapAccept(m.disk, BitAt(m, a.iid, any), a))
  }

  function AcceptAnswer(m: Memory, any: bool, id: int, a: Accept): seq<Learn>
    requires |m.slots| > 0
  {
    MapLearn(m.disk, BitAt(m, a.iid, any), id, a)
  }

  /** An ANYVAL for an instance that is neither in its slot nor in the database dereferences NULL. */
  predicate Faults(m: Memory, iid: int)
    requires |m.slots| > 0
  {
    Behind(m, iid) && iid !in m.disk
  }

  function AfterAnyval(m: Memory, any: bool, iid: int, ballot: int): Memory
    requires |m.slots| > 0
  {
    if Faults(m, iid) then m else
      Memory(m.slots[iid % |m.slots| := R.Opened(SlotOf(m, iid), iid, ballot)],
             MapAnyval(m.disk, BitAt(m, iid, any), iid, ballot))
  }

  /**
   * What answers a retransmission request. In memory only a record with a value answers; from the database any
   * record does, with a proposer id that was never stored.
   */
  function LsyncAnswer(m: Memory, proposerId: int, id: int, iid: int): seq<Learn>
    requires |m.slots| > 0
  {
    var r := SlotOf(m, iid);
    if iid == r.iid then if r.value.Some? then [R.LearnOf(id, r)] else []
    else if iid < r.iid && iid in m.disk then [Learn(id, iid, m.disk[iid].ballot, proposerId, m.disk[iid].value)]
    else []
  }

  /** A record fit to be sent: its fields are C ints, its value one that was submitted. */
  predicate Storable(s: Stored) {
    && IsInt32(s.iid) && IsInt32(s.ballot) && IsInt32(s.valueBallot) && |s.value| <= PAXOS_MAX_VALUE_SIZE
    && (s.valueBallot == -1 ==> s.value == [])
  }

  /**
   * Each used slot is what the database has for its instance, and no instance of the same slot above it
   * was ever written.
   */
  ghost predicate Coherent(slots: seq<R.Record>, d: Disk) {
    && |slots| > 0
    && (forall k :: 0 <= k < |slots| ==>
          || slots[k].iid == -1
          || (slots[k].iid % |slots| == k && slots[k].iid in d && d[slots[k].iid] == Flatten(slots[k])
              && (slots[k].value.None? <==> slots[k].valueBallot == -1)))
    && (forall i :: i in d ==> 0 <= i <= slots[i % |slots|].iid && d[i].iid == i)
  }

  /** And all of it is fit to be sent. */
  ghost predicate Cached(slots: seq<R.Record>, d: Disk) {
    Coherent(slots, d) && forall i :: i in d ==> Storable(d[i])
  }

  /** Writing a record through the array to the database. */
  lemma WriteThroughKeepsCached(slots: seq<R.Record>, d: Disk, r: R.Record)
    requires Cached(slots, d) && r.iid >= 0 && r.iid >= slots[r.iid % |slots|].iid && Storable(Flatten(r))
    requires r.value.None? <==> r.valueBallot == -1
    ensures Cached(slots[r.iid % |slots| := r], d[r.iid := Flatten(r)])
  {
  }

  /** Writing a record whose slot has moved on to the database alone. */
  lemma WriteBehindKeepsCached(slots: seq<R.Record>, d: Disk, s: Stored)
    requires Cached(slots, d) && 0 <= s.iid < slots[s.iid % |slots|].iid && Storable(s)
    ensures Cached(slots, d[s.iid := s])
  {
    var k := s.iid % |slots|;
    assert slots[k].iid != s.iid;
  }

  /** The slot of an instance knows whether the database has it. */
  lemma SlotDecides(slots: seq<R.Record>, d: Disk, iid: int)
    requires Cached(slots, d) && iid >= 0
    ensures var r := slots[iid % |slots|];
            && (iid > r.iid ==> iid !in d)
            && (iid == r.iid ==> iid in d && d[iid] == Flatten(r))
  {
  }

  /** handle_prepare in memory does what the plain map does. */
  lemma PrepareInMemory(slots: seq<R.Record>, d: Disk, p: Prepare)
    requires Cached(slots, d) && p.iid >= 0 && p.iid >= slots[p.iid % |slots|].iid
    requires IsInt32(p.iid) && IsInt32(p.ballot)
    ensures var k := p.iid % |slots|;
            var r := R.Prepared(slots[k], p);
            if R.AdmitsPrepare(slots[k], p) then
              && MapPrepare(d, p) == d[p.iid := Flatten(r)]
              && MapPromise(d, p) == [R.PromiseOf(r)]
              && Sendable(R.PromiseOf(r))
              && Cached(slots[k := r], MapPrepare(d, p))
            else MapPrepare(d, p) == d && MapPromise(d, p) == []
  {
    SlotDecides(slots, d, p.iid);
    var k := p.iid % |slots|;
    if R.AdmitsPrepare(slots[k], p) {
      WriteThroughKeepsCached(slots, d, R.Prepared(slots[k], p));
    }
  }

  /** handle_prepare on an instance whose slot has moved on does what the plain map does. */
  lemma PrepareBehind(slots: seq<R.Record>, d: Disk, p: Prepare, r: R.Record)
    requires Cached(slots, d) && 0 <= p.iid < slots[p.iid % |slots|].iid && p.ballot >= 0
    requires IsInt32(p.iid) && IsInt32(p.ballot)
    requires if p.iid in d then Flatten(r) == d[p.iid] else Flatten(r) == Stored(p.iid, -1, -1, [])
    ensures var r' := r.(ballot := p.ballot);
            if p.ballot > r.ballot then
              && MapPrepare(d, p) == d[p.iid := Flatten(r')]
              && MapPromise(d, p) == [R.PromiseOf(r')]
              && Sendable(R.PromiseOf(r'))
              && Cached(slots, MapPrepare(d, p))
            else MapPrepare(d, p) == d && MapPromise(d, p) == []
  {
    if p.ballot > r.ballot {
      WriteBehindKeepsCached(slots, d, Flatten(r.(ballot := p.ballot)));
    }
  }

  lemma OneMorePrepare(m: Memory, ps: seq<Prepare>, i: nat, before: seq<Promise>)
    requires |m.slots| > 0 && i < |ps|
    ensures AfterPrepares(m, ps[..i + 1]) == AfterPrepare(AfterPrepares(m, ps[..i]), ps[i])
    ensures before + MapPromises(m.disk, ps[..i + 1])
         == before + MapPromises(m.disk, ps[..i]) + MapPromise(AfterPrepares(m, ps[..i]).disk, ps[i])
  {
    var more := ps[..i + 1];
    assert more[..i] == ps[..i] && more[i] == ps[i];
    Regrouped(before, MapPromises(m.disk, ps[..i]), MapPromise(AfterPrepares(m, ps[..i]).disk, ps[i]));
  }

  lemma Regrouped<T>(a: seq<T>, b: seq<T>, c: seq<T>)
    ensures a + (b + c) == a + b + c
  {
  }

  /** A batch of prepares that ascends is answered by promises that ascend. */
  lemma {:induction false} PromisesAscend(d: Disk, ps: seq<Prepare>)
    requires forall i, j :: 0 <= i < j < |ps| ==> ps[i].iid < ps[j].iid
    requires forall i :: 0 <= i < |ps| ==> ps[i].iid >= 0
    requires forall k :: k in d ==> d[k].iid == k
    ensures Ascending(MapPromises(d, ps))
    ensures forall p :: p in MapPromises(d, ps) ==> p.iid <= ps[|ps| - 1].iid
    ensures forall k :: k in MapPrepares(d, ps) ==> MapPrepares(d, ps)[k].iid == k
  {
    if ps == [] {
    } else {
      var before := ps[..|ps| - 1];
      PromisesAscend(d, before);
      OneMoreAscends(MapPromises(d, before), MapPrepares(d, before), ps[|ps| - 1]);
    }
  }

  lemma OneMoreAscends(promises: seq<Promise>, d: Disk, p: Prepare)
    requires Ascending(promises) && forall q :: q in promises ==> q.iid < p.iid
    requires forall k :: k in d ==> d[k].iid == k
    ensures Ascending(promises + MapPromise(d, p)) && forall q :: q in promises + MapPromise(d, p) ==> q.iid <= p.iid
  {
    forall i | 0 <= i < |promises| ensures promises[i].iid < p.iid {
      assert promises[i] in promises;
    }
  }

  /** handle_accept in memory does what the plain map does. */
  lemma AcceptInMemory(slots: seq<R.Record>, d: Disk, a: Accept, acceptorId: int)
    requires Cached(slots, d) && a.iid >= 0 && a.iid >= slots[a.iid % |slots|].iid
    requires IsInt32(a.iid) && IsInt32(a.ballot) && |a.value| <= PAXOS_MAX_VALUE_SIZE && a.ballot != -1
    ensures var k := a.iid % |slots|;
            var r := R.Accepted(slots[k], a);
            var any := slots[k].anyEnabled;
            if R.AdmitsAccept(slots[k], a) then
              && MapAccept(d, any, a) == d[a.iid := Flatten(r)]
              && MapLearn(d, any, acceptorId, a) == [R.LearnOf(acceptorId, r)]
              && Cached(slots[k := r], MapAccept(d, any, a))
            else MapAccept(d, any, a) == d && MapLearn(d, any, acceptorId, a) == []
  {
    SlotDecides(slots, d, a.iid);
    var k := a.iid % |slots|;
    if R.AdmitsAccept(slots[k], a) {
      WriteThroughKeepsCached(slots, d, R.Accepted(slots[k], a));
    }
  }

  /** handle_accept on an instance whose slot has moved on does what the plain map does. */
  lemma AcceptBehind(slots: seq<R.Record>, d: Disk, a: Accept, any: bool, acceptorId: int)
    requires Cached(slots, d) && 0 <= a.iid < slots[a.iid % |slots|].iid
    requires IsInt32(a.iid) && IsInt32(a.ballot) && |a.value| <= PAXOS_MAX_VALUE_SIZE && a.ballot != -1
    ensures var admits := if a.iid in d then any || (a.ballot >= d[a.iid].ballot && a.ballot >= MIN_BALLOT)
                          else a.ballot >= MIN_BALLOT;
            if admits then
              && MapAccept(d, any, a) == d[a.iid := Stored(a.iid, a.ballot, a.ballot, a.value)]
              && MapLearn(d, any, acceptorId, a) == [Learn(acceptorId, a.iid, a.ballot, a.proposerId, a.value)]
              && Cached(slots, MapAccept(d, any, a))
            else MapAccept(d, any, a) == d && MapLearn(d, any, acceptorId, a) == []
  {
    WriteBehindKeepsCached(slots, d, Stored(a.iid, a.ballot, a.ballot, a.value));
  }

  /** handle_anyval does what the plain map does. */
  lemma AnyvalInMemory(slots: seq<R.Record>, d: Disk, iid: int, ballot: int)
    requires Cached(slots, d) && iid >= 0 && iid >= slots[iid % |slots|].iid
    requires IsInt32(iid) && IsInt32(ballot)
    ensures var k := iid % |slots|;
            var r := R.ApplyAnyval(slots[k], iid, ballot);
            var any := slots[k].anyEnabled;
            if R.AdmitsAnyval(slots[k], iid, ballot) then
              && MapAnyval(d, any, iid, ballot) == d[iid := Flatten(r)]
              && Cached(slots[k := r], MapAnyval(d, any, iid, ballot))
            else MapAnyval(d, any, iid, ballot) == d
  {
    SlotDecides(slots, d, iid);
    var k := iid % |slots|;
    if R.AdmitsAnyval(slots[k], iid, ballot) {
      WriteThroughKeepsCached(slots, d, R.ApplyAnyval(slots[k], iid, ballot));
    }
  }

  lemma AnyvalBehind(slots: seq<R.Record>, d: Disk, iid: int, ballot: int, any: bool)
    requires Cached(slots, d) && 0 <= iid < slots[iid % |slots|].iid && iid in d
    requires IsInt32(ballot)
    ensures if any || ballot >= d[iid].ballot then
              && MapAnyval(d, any, iid, ballot) == d[iid := Stored(iid, ballot, -1, [])]
              && Cached(slots, MapAnyval(d, any, iid, ballot))
            else MapAnyval(d, any, iid, ballot) == d
  {
    WriteBehindKeepsCached(slots, d, Stored(iid, ballot, -1, []));
  }

  class Acceptor {
    const id: int
    const slots: array<R.Record>
    var disk: Disk
    const buffer: PromiseBuffer
    var learns: seq<Learn>     // the messages sent to the learners

    ghost predicate Valid()
      reads this, slots, buffer, buffer.data
    {
      && Cached(slots[..], disk)
      && buffer.Valid() && buffer.acceptorId == id
    }

    ghost function Here(): (m: Memory)
      reads this, slots
      ensures |m.slots| == slots.Length
    {
      Memory(slots[..], disk)
    }

    constructor (id: int, size: nat)
      requires size > 0 && IsInt32(id)
      ensures Valid() && fresh(slots) && fresh(buffer) && fresh(buffer.data)
      ensures this.id == id && Here() == Empty(size)
      ensures learns == [] && buffer.pending == [] && buffer.sent == []
    {
      this.id := id;
      this.slots := new R.Record[size](_ => R.EMPTY);
      this.disk := map[];
      this.learns := [];
      var b := new PromiseBuffer(id);
      this.buffer := b;
    }

    /** disk_lookup_record: fields the database does not keep come back as whatever was in memory. */
    method LookupRecord(iid: int) returns (found: bool, r: R.Record)
      ensures found <==> iid in disk
      ensures found ==>
        r == R.Record(disk[iid].iid, r.proposerId, disk[iid].ballot, disk[iid].valueBallot,
                      Some(disk[iid].value), r.anyEnabled)
    {
      var proposerId: int := *;
      var anyEnabled: bool := *;
      if iid in disk {
        var s := disk[iid];
        return true, R.Record(s.iid, proposerId, s.ballot, s.valueBallot, Some(s.value), anyEnabled);
      }
      return false, R.EMPTY;
    }

    /** disk_update_record */
    method UpdateRecord(r: R.Record)
      modifies this`disk
      ensures disk == old(disk)[r.iid := Flatten(r)]
    {
      disk := disk[r.iid := Flatten(r)];
    }

    /** handle_prepare */
    method HandlePrepare(p: Prepare)
      requires Valid() && p.iid >= 0 && p.ballot >= 0 && IsInt32(p.iid) && IsInt32(p.ballot)
      modifies this`disk, slots, buffer, buffer.data
      ensures Valid()
      ensures Here() == AfterPrepare(old(Here()), p)
      ensures Received(buffer.sent) + buffer.pending
           == Received(old(buffer.sent)) + old(buffer.pending) + MapPromise(old(disk), p)
      ensures old(buffer.sent) <= buffer.sent
      ensures old(buffer.size) > 0 ==> buffer.size > 0
    {
      var k := p.iid % slots.Length;
      ghost var was, before := slots[..], Received(buffer.sent) + buffer.pending;
      assert before + [] == before;
      if p.iid > slots[k].iid {
        PrepareInMemory(was, disk, p);
        slots[k] := slots[k].(iid := p.iid, ballot := p.ballot, valueBallot := -1, value := None);
        Answer(slots[k]);
        return;
      }
      if p.iid == slots[k].iid {
        PrepareInMemory(was, disk, p);
        if p.ballot <= slots[k].ballot {
          return;
        }
        slots[k] := slots[k].(ballot := p.ballot);
        Answer(slots[k]);
        return;
      }
      var found, r := LookupRecord(p.iid);
      if !found {
        r := r.(iid := p.iid, ballot := -1, valueBallot := -1, value := None);
      }
      PrepareBehind(was, disk, p, r);
      if p.ballot > r.ballot {
        r := r.(ballot := p.ballot);
        Answer(r);
      }
    }

    /** Writes a record to the database and puts its promise into the buffer. */
    method Answer(r: R.Record)
      requires buffer.Valid() && Sendable(R.PromiseOf(r))
      modifies this`disk, buffer, buffer.data
      ensures buffer.Valid()
      ensures disk == old(disk)[r.iid := Flatten(r)]
      ensures Received(buffer.sent) + buffer.pending
           == Received(old(buffer.sent)) + old(buffer.pending) + [R.PromiseOf(r)]
      ensures old(buffer.sent) <= buffer.sent
      ensures buffer.size > 0
    {
      UpdateRecord(r);
      buffer.Add(R.PromiseOf(r));
    }

    /** handle_prepare_batch: the leader will read exactly the promises the plain map gives. */
    method HandlePrepareBatch(ps: seq<Prepare>)
      requires Valid() && buffer.pending == []
      requires forall p :: p in ps ==> p.iid >= 0 && p.ballot >= 0 && IsInt32(p.iid) && IsInt32(p.ballot)
      modifies this`disk, slots, buffer, buffer.data
      ensures Valid() && buffer.pending == []
      ensures Here() == AfterPrepares(old(Here()), ps)
      ensures Received(buffer.sent) == Received(old(buffer.sent)) + MapPromises(old(disk), ps)
      ensures old(buffer.sent) <= buffer.sent
    {
      buffer.Start();
      ghost var before, start := Received(buffer.sent), Here();
      for i := 0 to |ps|
        invariant Valid() && buffer.size > 0
        invariant Here() == AfterPrepares(start, ps[..i])
        invariant old(buffer.sent) <= buffer.sent
        invariant Received(buffer.sent) + buffer.pending == before + MapPromises(start.disk, ps[..i])
      {
        OneMorePrepare(start, ps, i, before);
        HandlePrepare(ps[i]);
      }
      assert ps[..|ps|] == ps;
      var count := buffer.Count();
      if count > 0 {
        buffer.Flush();
      } else {
        assert Received(buffer.sent) + [] == Received(buffer.sent);
      }
    }

    /** send_learn_message */
    method SendLearn(r: R.Record)
      requires buffer.Valid() && buffer.pending == []
      modifies this`learns, buffer`size
      ensures buffer.Valid()
      ensures learns == old(learns) + [R.LearnOf(id, r)]
    {
      buffer.Lend();
      learns := learns + [R.LearnOf(id, r)];
    }

    /** Writes an accepted record to the database and tells the learners. */
    method WriteAndLearn(r: R.Record)
      requires buffer.Valid() && buffer.pending == []
      modifies this`disk, this`learns, buffer`size
      ensures buffer.Valid()
      ensures disk == old(disk)[r.iid := Flatten(r)] && learns == old(learns) + [R.LearnOf(id, r)]
    {
      UpdateRecord(r);
      SendLearn(r);
    }

    /**
     * handle_accept. Whether ANYVAL is enabled is in the slot while the instance is there; for an instance
     * read back from the database it is whatever memory happened to hold.
     */
    method HandleAccept(a: Accept) returns (ghost any: bool)
      requires Valid() && buffer.pending == []
      requires a.iid >= 0 && a.ballot >= 0 && IsInt32(a.iid) && IsInt32(a.ballot) && |a.value| <= PAXOS_MAX_VALUE_SIZE
      modifies this`disk, this`learns, slots, buffer`size
      ensures Valid() && buffer.pending == []
      ensures Here() == AfterAccept(old(Here()), any, a)
      ensures learns == old(learns) + AcceptAnswer(old(Here()), any, id, a)
    {
      var k := a.iid % slots.Length;
      if a.iid < slots[k].iid {
        any := HandleAcceptBehind(a);
        return;
      }
      any := slots[k].anyEnabled;
      AcceptInMemory(slots[..], disk, a, id);
      if a.iid == slots[k].iid {
        if slots[k].anyEnabled || (a.ballot >= slots[k].ballot && a.ballot >= MIN_BALLOT) {
          if slots[k].anyEnabled {
            slots[k] := slots[k].(anyEnabled := false);
          }
          slots[k] := R.ApplyAccept(slots[k], a);
          WriteAndLearn(slots[k]);
        }
      } else if a.ballot >= MIN_BALLOT {
        slots[k] := R.ApplyAccept(slots[k], a);
        WriteAndLearn(slots[k]);
      }
    }

    /** The part of handle_accept for a record that was overwritten in the array. */
    method HandleAcceptBehind(a: Accept) returns (ghost any: bool)
      requires Valid() && buffer.pending == [] && Behind(Here(), a.iid)
      requires a.iid >= 0 && a.ballot >= 0 && IsInt32(a.iid) && IsInt32(a.ballot) && |a.value| <= PAXOS_MAX_VALUE_SIZE
      modifies this`disk, this`learns, buffer`size
      ensures Valid() && buffer.pending == []
      ensures Here() == AfterAccept(old(Here()), any, a)
      ensures learns == old(learns) + AcceptAnswer(old(Here()), any, id, a)
    {
      var found, r := LookupRecord(a.iid);
      any := r.anyEnabled;
      AcceptBehind(slots[..], disk, a, any, id);
      if !found {
        if a.ballot >= MIN_BALLOT {
          r := R.ApplyAccept(r, a);
          WriteAndLearn(r);
        }
        return;
      }
      if r.anyEnabled || (a.ballot >= r.ballot && a.ballot >= MIN_BALLOT) {
        if r.anyEnabled {
          r := r.(anyEnabled := false);
        }
        r := R.ApplyAccept(r, a);
        WriteAndLearn(r);
      }
    }

    /** handle_lsync: nothing but a learn may come of it. */
    method HandleLsync(iid: int) returns (ghost proposerId: int)
      requires Valid() && buffer.pending == [] && iid >= 0
      modifies this`learns, buffer`size
      ensures Valid() && buffer.pending == [] && Here() == old(Here())
      ensures learns == old(learns) + LsyncAnswer(Here(), proposerId, id, iid)
    {
      var k := iid % slots.Length;
      SlotDecides(slots[..], disk, iid);
      proposerId := 0;
      if iid == slots[k].iid {
        if slots[k].value.Some? {
          SendLearn(slots[k]);
        }
        return;
      }
      if iid < slots[k].iid {
        var found, r := LookupRecord(iid);
        if found {
          proposerId := r.proposerId;
          SendLearn(r);
        }
      }
    }

    /** handle_anyval; `fault` is the dereference of the NULL that the database returns for an unknown instance. */
    method HandleAnyval(iid: int, ballot: int) returns (fault: bool, ghost any: bool)
      requires Valid() && iid >= 0 && IsInt32(iid) && IsInt32(ballot)
      modifies this`disk, slots
      ensures Valid()
      ensures fault <==> Faults(old(Here()), iid)
      ensures Here() == AfterAnyval(old(Here()), any, iid, ballot)
    {
      fault := false;
      var k := iid % slots.Length;
      ghost var was := slots[..];
      any := slots[k].anyEnabled;
      if iid == slots[k].iid {
        AnyvalInMemory(was, disk, iid, ballot);
        if slots[k].anyEnabled || ballot >= slots[k].ballot {
          slots[k] := R.ApplyAnyval(slots[k], iid, ballot);
          UpdateRecord(slots[k]);
        }
        return;
      }
      if iid > slots[k].iid {
        AnyvalInMemory(was, disk, iid, ballot);
        slots[k] := R.ApplyAnyval(slots[k], iid, ballot);
        UpdateRecord(slots[k]);
        return;
      }
      var found, r := LookupRecord(iid);
      if !found {
        fault := true;
        return;
      }
      any := r.anyEnabled;
      AnyvalBehind(was, disk, iid, ballot, any);
      if r.anyEnabled || ballot >= r.ballot {
        r := R.ApplyAnyval(r, iid, ballot);
        UpdateRecord(r);
      }
    }
  }

  // ---------- two runs of the class ----------

  /** An ANYVAL for an instance that the acceptor never heard of, after its slot was taken by a later one. */
  method UnknownInstanceFaults() returns (fault: bool)
    ensures fault
  {
    var a := new Acceptor(0, 2);
    PreparesOne(a.Here(), Prepare(2, 20));
    a.HandlePrepareBatch([Prepare(2, 20)]);
    ghost var any;
    fault, any := a.HandleAnyval(0, 20);
  }

  /** Two slots of which the first holds r. */
  function Holding(r: R.Record): Memory {
    Memory([r, R.EMPTY], map[r.iid := Flatten(r)])
  }

  const ASKED: R.Record := R.Record(0, 0, 20, -1, None, false)
  const OPEN: R.Record := R.Record(0, -1, 20, -1, None, true)
  const VOTE: Accept := Accept(0, FixedBallot(1), 1, [7])

  lemma PreparesOne(m: Memory, p: Prepare)
    requires |m.slots| > 0
    ensures AfterPrepares(m, [p]) == AfterPrepare(m, p)
  {
    assert [p][..0] == [];
  }

  lemma VotesOnce(any: bool)
    ensures AfterPrepare(Empty(2), Prepare(0, 20)) == Holding(ASKED)
    ensures AfterAnyval(Holding(ASKED), any, 0, 20) == Holding(OPEN)
    ensures AfterAccept(Holding(OPEN), any, VOTE)
         == Holding(R.Record(0, 1, FixedBallot(1), FixedBallot(1), Some([7]), false))
  {
    assert AfterPrepare(Empty(2), Prepare(0, 20)).slots == [ASKED, R.EMPTY];
    assert AfterAnyval(Holding(ASKED), any, 0, 20).slots == [OPEN, R.EMPTY];
    assert AfterAnyval(Holding(ASKED), any, 0, 20).disk == map[0 := Flatten(OPEN)];
    var r := AfterAccept(Holding(OPEN), any, VOTE);
    assert r.slots == [R.Record(0, 1, FixedBallot(1), FixedBallot(1), Some([7]), false), R.EMPTY];
    assert r.disk == map[0 := Stored(0, FixedBallot(1), FixedBallot(1), [7])];
  }

  lemma LosesVote(any: bool, proposerId: int)
    ensures AfterAnyval(Holding(R.Record(0, 1, FixedBallot(1), FixedBallot(1), Some([7]), false)), any, 0, 20)
         == Holding(OPEN)
    ensures LsyncAnswer(AfterPrepare(Holding(OPEN), Prepare(2, 20)), proposerId, 0, 0)
         == [Learn(0, 0, 20, proposerId, [])]
  {
    var m := AfterAnyval(Holding(R.Record(0, 1, FixedBallot(1), FixedBallot(1), Some([7]), false)), any, 0, 20);
    assert m.slots == [OPEN, R.EMPTY] && m.disk == map[0 := Flatten(OPEN)];
  }

  /**
   * A vote for the one-byte value 7 is erased by a second ANYVAL; the slot is taken by instance 2, and the
   * answer to a retransmission request carries an empty value, which no accept carried.
   */
  method AnswersWithoutValue() returns (answer: Learn)
    ensures answer == Learn(0, 0, 20, answer.proposerId, [])
  {
    var a := new Acceptor(0, 2);
    ghost var any, proposerId;
    var fault;
    PreparesOne(a.Here(), Prepare(0, 20));
    a.HandlePrepareBatch([Prepare(0, 20)]);
    fault, any := a.HandleAnyval(0, 20);
    VotesOnce(any);
    any := a.HandleAccept(VOTE);
    VotesOnce(any);
    fault, any := a.HandleAnyval(0, 20);
    LosesVote(any, 0);
    PreparesOne(a.Here(), Prepare(2, 20));
    a.HandlePrepareBatch([Prepare(2, 20)]);
    proposerId := a.HandleLsync(0);
    LosesVote(any, proposerId);
    answer := a.learns[|a.learns| - 1];
  }
}
