/**
 * The promise packets: the acceptor's send buffer, byte by byte, and the leader's walk over what it
 * receives. Integers take four bytes, little end first, in two's complement.
 */
module PromisePackets {
  import opened Common

  const PAXOS_PROMISE: int := 4
  const BATCH_HEADER: int := PAXOS_MSG_SIZE + 2 * INT_SIZE
  const PROMISE_HEADER: int := 4 * INT_SIZE
  const TWO_32: int := 0x1_0000_0000

  predicate IsInt32(x: int) {
    -0x8000_0000 <= x < 0x8000_0000
  }

  // ---------- integers ----------

  function LowByte(x: int): Byte {
    x % 256
  }

  function IntBytes(x: int): (s: seq<Byte>)
    ensures |s| == 4
  {
    [LowByte(x), LowByte(x / 256), LowByte(x / 65536), LowByte(x / 16777216)]
  }

  function BytesInt(s: seq<Byte>): int
    requires |s| == 4
  {
    var u := s[0] as int + 256 * (s[1] as int) + 65536 * (s[2] as int) + 16777216 * (s[3] as int);
    if u < 0x8000_0000 then u else u - TWO_32
  }

  lemma IntRoundTrip(x: int)
    requires IsInt32(x)
    ensures BytesInt(IntBytes(x)) == x
  {
    var a, b, c := x / 256, x / 65536, x / 16777216;
    assert b == a / 256 && c == b / 256;
    assert x == 256 * a + x % 256 && a == 256 * b + a % 256 && b == 256 * c + b % 256;
    assert -128 <= c < 128;
  }

  // ---------- promises ----------

  /** A promise the acceptor can be asked to send: its fields are C ints, its value one that was submitted. */
  predicate Sendable(p: Promise) {
    && IsInt32(p.iid) && IsInt32(p.ballot) && IsInt32(p.valueBallot)
    && |p.value| <= PAXOS_MAX_VALUE_SIZE
  }

  function PromiseSize(p: Promise): int {
    PROMISE_HEADER + |p.value|
  }

  function PromiseBytes(p: Promise): (s: seq<Byte>)
    ensures |s| == PromiseSize(p)
  {
    IntBytes(p.iid) + IntBytes(p.ballot) + IntBytes(p.valueBallot) + IntBytes(|p.value|) + p.value
  }

  function Body(ps: seq<Promise>): seq<Byte> {
    if ps == [] then [] else PromiseBytes(ps[0]) + Body(ps[1..])
  }

  function Packet(acceptorId: int, ps: seq<Promise>): seq<Byte> {
    IntBytes(2 * INT_SIZE + |Body(ps)|) + IntBytes(PAXOS_PROMISE) + IntBytes(acceptorId) + IntBytes(|ps|) + Body(ps)
  }

  /** The promise at an offset, and the stride to the next; None if the packet ends too early. */
  function PromiseAt(data: seq<Byte>, offset: nat): Option<Promise> {
    if offset + PROMISE_HEADER > |data| then None else
      var size := BytesInt(data[offset + 12..offset + 16]);
      if size < 0 || offset + PROMISE_HEADER + size > |data| then None else
        Some(Promise(BytesInt(data[offset..offset + 4]), BytesInt(data[offset + 4..offset + 8]),
                     BytesInt(data[offset + 8..offset + 12]), data[offset + 16..offset + 16 + size]))
  }

  /** The leader's walk: count promises from the offset on, each as long as its value makes it. */
  function Walk(data: seq<Byte>, offset: nat, count: int): Option<seq<Promise>>
    decreases if count <= 0 then 0 else count
  {
    if count <= 0 then Some([]) else
      match PromiseAt(data, offset)
      case None => None
      case Some(p) =>
        match Walk(data, offset + PromiseSize(p), count - 1)
        case None => None
        case Some(ps) => Some([p] + ps)
  }

  /** What the leader makes of a packet: the acceptor's id and its promises. */
  function Unpack(packet: seq<Byte>): Option<(int, seq<Promise>)> {
    if |packet| < BATCH_HEADER then None else
      match Walk(packet, BATCH_HEADER, BytesInt(packet[12..16]))
      case None => None
      case Some(ps) => Some((BytesInt(packet[8..12]), ps))
  }

  lemma SubSlice(data: seq<Byte>, offset: nat, bytes: seq<Byte>, i: nat, j: nat)
    requires i <= j <= |bytes| && offset + |bytes| <= |data| && data[offset..offset + |bytes|] == bytes
    ensures data[offset + i..offset + j] == bytes[i..j]
  {
    forall k | 0 <= k < j - i ensures data[offset + i..offset + j][k] == bytes[i..j][k] {
      assert data[offset..offset + |bytes|][i + k] == bytes[i + k];
    }
  }

  lemma PromiseRoundTrip(data: seq<Byte>, offset: nat, p: Promise)
    requires Sendable(p)
    requires offset + PromiseSize(p) <= |data| && data[offset..offset + PromiseSize(p)] == PromiseBytes(p)
    ensures PromiseAt(data, offset) == Some(p)
  {
    var bytes := PromiseBytes(p);
    SubSlice(data, offset, bytes, 0, 4);
    SubSlice(data, offset, bytes, 4, 8);
    SubSlice(data, offset, bytes, 8, 12);
    SubSlice(data, offset, bytes, 12, 16);
    SubSlice(data, offset, bytes, 16, 16 + |p.value|);
    assert bytes[0..4] == IntBytes(p.iid) && bytes[4..8] == IntBytes(p.ballot);
    assert bytes[8..12] == IntBytes(p.valueBallot) && bytes[12..16] == IntBytes(|p.value|);
    assert bytes[16..16 + |p.value|] == p.value;
    IntRoundTrip(p.iid);
    IntRoundTrip(p.ballot);
    IntRoundTrip(p.valueBallot);
    IntRoundTrip(|p.value|);
  }

  lemma {:induction false} BodyOneMore(ps: seq<Promise>, p: Promise)
    ensures Body(ps + [p]) == Body(ps) + PromiseBytes(p)
  {
    if ps == [] {
      assert ([] + [p])[1..] == [] && ([] + [p])[0] == p;
    } else {
      BodyOneMore(ps[1..], p);
      assert (ps + [p])[1..] == ps[1..] + [p] && (ps + [p])[0] == ps[0];
    }
  }

  /** The promises lie in the data one after the other from the offset on. */
  predicate LieAt(data: seq<Byte>, offset: nat, ps: seq<Promise>)
    decreases |ps|
  {
    ps == [] || (PromiseAt(data, offset) == Some(ps[0]) && LieAt(data, offset + PromiseSize(ps[0]), ps[1..]))
  }

  lemma {:induction false} WalkRecovers(data: seq<Byte>, offset: nat, ps: seq<Promise>)
    requires LieAt(data, offset, ps)
    ensures Walk(data, offset, |ps|) == Some(ps)
    decreases |ps|
  {
    if ps == [] {
    } else {
      WalkRecovers(data, offset + PromiseSize(ps[0]), ps[1..]);
      assert [ps[0]] + ps[1..] == ps;
    }
  }

  lemma SliceSplits(data: seq<Byte>, offset: nat, a: seq<Byte>, b: seq<Byte>)
    requires offset + |a| + |b| <= |data| && data[offset..offset + |a| + |b|] == a + b
    ensures data[offset..offset + |a|] == a
    ensures data[offset + |a|..offset + |a| + |b|] == b
  {
    var all := data[offset..offset + |a| + |b|];
    assert all[..|a|] == a && all[|a|..] == b;
  }

  lemma {:induction false} BodyLies(data: seq<Byte>, offset: nat, ps: seq<Promise>)
    requires offset + |Body(ps)| <= |data| && data[offset..offset + |Body(ps)|] == Body(ps)
    requires forall p :: p in ps ==> Sendable(p)
    ensures LieAt(data, offset, ps)
    decreases |ps|
  {
    if ps == [] {
    } else {
      SliceSplits(data, offset, PromiseBytes(ps[0]), Body(ps[1..]));
      PromiseRoundTrip(data, offset, ps[0]);
      BodyLies(data, offset + PromiseSize(ps[0]), ps[1..]);
    }
  }

  lemma {:induction false} BodyIsLong(ps: seq<Promise>)
    ensures |Body(ps)| >= PROMISE_HEADER * |ps|
  {
    if ps == [] {
    } else {
      BodyIsLong(ps[1..]);
    }
  }

  /** The leader reads back exactly the promises the acceptor wrote into the packet. */
  lemma PacketRoundTrip(acceptorId: int, ps: seq<Promise>)
    requires IsInt32(acceptorId) && IsInt32(|ps|)
    requires forall p :: p in ps ==> Sendable(p)
    ensures Unpack(Packet(acceptorId, ps)) == Some((acceptorId, ps))
  {
    var packet := Packet(acceptorId, ps);
    var header := IntBytes(2 * INT_SIZE + |Body(ps)|) + IntBytes(PAXOS_PROMISE) + IntBytes(acceptorId) + IntBytes(|ps|);
    assert packet == header + Body(ps);
    assert packet[8..12] == header[8..12] == IntBytes(acceptorId);
    assert packet[12..16] == header[12..16] == IntBytes(|ps|);
    IntRoundTrip(acceptorId);
    IntRoundTrip(|ps|);
    BodyLies(packet, BATCH_HEADER, ps);
    WalkRecovers(packet, BATCH_HEADER, ps);
  }

  /** What the rest of the walk adds to the promises read so far. */
  function Prepend(ps: seq<Promise>, rest: Option<seq<Promise>>): Option<seq<Promise>> {
    if rest.None? then None else Some(ps + rest.value)
  }

  lemma WalkTurn(data: seq<Byte>, offset: nat, count: int, ps: seq<Promise>, p: Promise)
    requires count > 0 && PromiseAt(data, offset) == Some(p)
    ensures Prepend(ps, Walk(data, offset, count)) == Prepend(ps + [p], Walk(data, offset + PromiseSize(p), count - 1))
  {
    var rest := Walk(data, offset + PromiseSize(p), count - 1);
    if rest.Some? {
      assert ps + ([p] + rest.value) == (ps + [p]) + rest.value;
    }
  }

  /** Is `all` what the walk yields once `ps` have been read and `left` promises remain from the offset on? */
  predicate Remains(data: seq<Byte>, all: Option<seq<Promise>>, ps: seq<Promise>, offset: nat, left: int) {
    all == Prepend(ps, Walk(data, offset, left))
  }

  lemma WalkStarts(data: seq<Byte>, offset: nat, count: int)
    ensures Remains(data, Walk(data, offset, count), [], offset, count)
  {
    var all := Walk(data, offset, count);
    assert all.Some? ==> [] + all.value == all.value;
  }

  lemma WalkEnds(data: seq<Byte>, all: Option<seq<Promise>>, ps: seq<Promise>, offset: nat, left: int)
    requires Remains(data, all, ps, offset, left)
    ensures left <= 0 ==> all == Some(ps)
    ensures left > 0 && PromiseAt(data, offset).None? ==> all == None
  {
    assert ps + [] == ps;
  }

  /** leader_handle_promise_msg's loop over the bytes of a packet. */
  method ReadPromises(packet: seq<Byte>) returns (r: Option<seq<Promise>>)
    requires |packet| >= BATCH_HEADER
    ensures r == Walk(packet, BATCH_HEADER, BytesInt(packet[12..16]))
  {
    var count := BytesInt(packet[12..16]);
    var offset: nat := BATCH_HEADER;
    var ps := [];
    var i := 0;
    ghost var all := Walk(packet, BATCH_HEADER, count);
    WalkStarts(packet, BATCH_HEADER, count);
    while i < count
      invariant 0 <= i
      invariant Remains(packet, all, ps, offset, count - i)
    {
      WalkEnds(packet, all, ps, offset, count - i);
      var p := PromiseAt(packet, offset);
      if p.None? {
        return None;
      }
      WalkTurn(packet, offset, count - i, ps, p.value);
      ps := ps + [p.value];
      offset := offset + PromiseSize(p.value);
      i := i + 1;
    }
    WalkEnds(packet, all, ps, offset, count - i);
    return Some(ps);
  }

  // ---------- the acceptor's send buffer ----------

  /** The promises the leader reads out of one packet. */
  function Contents(packet: seq<Byte>): seq<Promise> {
    var r := Unpack(packet);
    if r.Some? then r.value.1 else []
  }

  /** The promises the leader reads out of a series of packets. */
  function Received(packets: seq<seq<Byte>>): seq<Promise> {
    if packets == [] then [] else Received(packets[..|packets| - 1]) + Contents(packets[|packets| - 1])
  }

  lemma ReceivedOneMore(packets: seq<seq<Byte>>, acceptorId: int, ps: seq<Promise>)
    requires IsInt32(acceptorId) && IsInt32(|ps|) && forall p :: p in ps ==> Sendable(p)
    ensures Received(packets + [Packet(acceptorId, ps)]) == Received(packets) + ps
  {
    assert (packets + [Packet(acceptorId, ps)])[..|packets|] == packets;
    PacketRoundTrip(acceptorId, ps);
  }

  predicate Ascending(ps: seq<Promise>) {
    forall i, j :: 0 <= i < j < |ps| ==> ps[i].iid < ps[j].iid
  }

  predicate AscendingPart(part: seq<Promise>, ps: seq<Promise>) {
    Ascending(part) && forall p :: p in part ==> p in ps
  }

  lemma SliceAscends(ps: seq<Promise>, i: nat, j: nat)
    requires i <= j <= |ps| && Ascending(ps)
    ensures AscendingPart(ps[i..j], ps)
  {
  }

  lemma SliceOfSuffix<T>(head: seq<T>, tail: seq<T>, i: nat, j: nat)
    requires |head| <= i <= j <= |head + tail|
    ensures (head + tail)[i..j] == tail[i - |head|..j - |head|]
  {
  }

  lemma {:induction false} ReceivedIsJoined(packets: seq<seq<Byte>>, parts: seq<seq<Promise>>)
    requires |parts| == |packets| && forall k :: 0 <= k < |packets| ==> parts[k] == Contents(packets[k])
    ensures Received(packets) == Joined(parts)
  {
    if packets == [] {
    } else {
      ReceivedIsJoined(packets[..|packets| - 1], parts[..|parts| - 1]);
    }
  }

  /** Part k stands in the whole from where the parts before it end. */
  lemma {:induction false} PartStands<T>(parts: seq<seq<T>>, k: nat)
    requires k < |parts|
    ensures var from := |Joined(parts[..k])|;
            from + |parts[k]| <= |Joined(parts)| && Joined(parts)[from..from + |parts[k]|] == parts[k]
  {
    var front := parts[..|parts| - 1];
    if k >= |front| {
    } else {
      PartStands(front, k);
      assert front[..k] == parts[..k];
    }
  }

  lemma {:induction false} JoinedGrows<T>(parts: seq<seq<T>>, i: nat, j: nat)
    requires i <= j <= |parts|
    ensures |Joined(parts[..i])| <= |Joined(parts[..j])|
  {
    if i >= j {
    } else {
      JoinedGrows(parts, i, j - 1);
      assert parts[..j][..j - 1] == parts[..j - 1];
    }
  }

  /** If what several packets add to the promises received ascends, each of those packets is an ascending part of it. */
  lemma PacketsAscend(before: seq<seq<Byte>>, after: seq<seq<Byte>>, ps: seq<Promise>, k: nat)
    requires before <= after && Received(after) == Received(before) + ps && Ascending(ps)
    requires |before| <= k < |after|
    ensures AscendingPart(Contents(after[k]), ps)
  {
    var parts := seq(|after|, i requires 0 <= i < |after| => Contents(after[i]));
    ReceivedIsJoined(after, parts);
    ReceivedIsJoined(before, parts[..|before|]);
    JoinedPartAscends(parts, |before|, ps, k);
  }

  lemma JoinedPartAscends(parts: seq<seq<Promise>>, from: nat, ps: seq<Promise>, k: nat)
    requires from <= k < |parts| && Joined(parts) == Joined(parts[..from]) + ps && Ascending(ps)
    ensures AscendingPart(parts[k], ps)
  {
    PartStands(parts, k);
    JoinedGrows(parts, from, k);
    var head, start := Joined(parts[..from]), |Joined(parts[..k])|;
    SliceOfSuffix(head, ps, start, start + |parts[k]|);
    SliceAscends(ps, start - |head|, start - |head| + |parts[k]|);
  }

  /** What the buffer holds, as bytes: the batch header after the packet header, then the promises. */
  ghost predicate Laid(data: seq<Byte>, size: int, acceptorId: int, ps: seq<Promise>) {
    && BATCH_HEADER <= size == BATCH_HEADER + |Body(ps)| <= |data|
    && data[8..12] == IntBytes(acceptorId)
    && data[12..16] == IntBytes(|ps|)
    && data[16..size] == Body(ps)
  }

  function Overwrite(data: seq<Byte>, offset: nat, bytes: seq<Byte>): (r: seq<Byte>)
    requires offset + |bytes| <= |data|
    ensures |r| == |data|
  {
    data[..offset] + bytes + data[offset + |bytes|..]
  }

  lemma LayHeader(data: seq<Byte>, acceptorId: int)
    requires |data| >= BATCH_HEADER
    ensures Laid(Overwrite(Overwrite(data, 12, IntBytes(0)), 8, IntBytes(acceptorId)), BATCH_HEADER, acceptorId, [])
  {
    var d1 := Overwrite(data, 12, IntBytes(0));
    var d := Overwrite(d1, 8, IntBytes(acceptorId));
    assert d1[12..16] == IntBytes(0);
    assert d[12..16] == d1[12..16] && d[8..12] == IntBytes(acceptorId) && d[16..16] == [];
  }

  lemma LayPromise(data: seq<Byte>, size: int, acceptorId: int, ps: seq<Promise>, p: Promise)
    requires Laid(data, size, acceptorId, ps) && size + PromiseSize(p) <= |data|
    ensures Laid(Overwrite(Overwrite(data, size, PromiseBytes(p)), 12, IntBytes(|ps| + 1)),
                 size + PromiseSize(p), acceptorId, ps + [p])
  {
    BodyOneMore(ps, p);
    LayBytes(data, size, PromiseBytes(p), IntBytes(|ps| + 1));
  }

  lemma LayBytes(data: seq<Byte>, size: int, bytes: seq<Byte>, count: seq<Byte>)
    requires 16 <= size && size + |bytes| <= |data| && |count| == 4
    ensures var d := Overwrite(Overwrite(data, size, bytes), 12, count);
            && d[8..12] == data[8..12]
            && d[12..16] == count
            && d[16..size + |bytes|] == data[16..size] + bytes
  {
    var d1 := Overwrite(data, size, bytes);
    assert d1[16..size + |bytes|] == data[16..size] + bytes;
    var d := Overwrite(d1, 12, count);
    assert d1[8..12] == data[8..12] && d[8..12] == d1[8..12] && d[12..16] == count;
    assert d[16..size + |bytes|] == d1[16..size + |bytes|];
  }

  lemma LayPacketHeader(data: seq<Byte>, size: int, acceptorId: int, ps: seq<Promise>)
    requires Laid(data, size, acceptorId, ps)
    ensures Overwrite(Overwrite(data, 0, IntBytes(size - PAXOS_MSG_SIZE)), 4, IntBytes(PAXOS_PROMISE))[..size]
         == Packet(acceptorId, ps)
  {
    var first, second := IntBytes(size - PAXOS_MSG_SIZE), IntBytes(PAXOS_PROMISE);
    var d1 := Overwrite(data, 0, first);
    var d := Overwrite(d1, 4, second);
    assert d1[..4] == first && d[..4] == d1[..4] && d[4..8] == second;
    forall i, j | 8 <= i <= j <= |data| ensures d[i..j] == data[i..j] {
      assert d1[i..j] == data[i..j] && d[i..j] == d1[i..j];
    }
    assert d[..size] == d[..4] + d[4..8] + d[8..12] + d[12..16] + d[16..size];
  }

  class PromiseBuffer {
    const acceptorId: int
    const data: array<Byte>
    var size: int                    // send_buffer_size
    var sent: seq<seq<Byte>>         // the packets handed to the network
    ghost var pending: seq<Promise>  // the promises in the buffer

    ghost predicate Valid()
      reads this, data
    {
      && data.Length == MAX_UDP_MSG_SIZE && IsInt32(acceptorId)
      && (forall p :: p in pending ==> Sendable(p))
      && (forall packet :: packet in sent ==> |packet| <= MAX_UDP_MSG_SIZE)
      && (if size == 0 then pending == [] else Laid(data[..], size, acceptorId, pending))
    }

    constructor (acceptorId: int)
      requires IsInt32(acceptorId)
      ensures Valid() && fresh(data)
      ensures this.acceptorId == acceptorId && size == 0 && pending == [] && sent == []
    {
      this.acceptorId := acceptorId;
      this.data := new Byte[MAX_UDP_MSG_SIZE](_ => 0);
      this.size := 0;
      this.sent := [];
      this.pending := [];
    }

    method Write(offset: nat, bytes: seq<Byte>)
      requires offset + |bytes| <= data.Length
      modifies data
      ensures data[..] == Overwrite(old(data[..]), offset, bytes)
    {
      forall i | 0 <= i < |bytes| {
        data[offset + i] := bytes[i];
      }
    }

    /** An empty batch, as handle_prepare_batch starts with; also the first lines of a batch after a flush. */
    method Start()
      requires Valid() && pending == []
      modifies this`size, data
      ensures Valid() && size == BATCH_HEADER
    {
      LayHeader(data[..], acceptorId);
      Write(12, IntBytes(0));
      Write(8, IntBytes(acceptorId));
      size := BATCH_HEADER;
    }

    /** The packet header, filled in last. */
    method Seal()
      requires Valid() && size > 0
      modifies data
      ensures data[..size] == Packet(acceptorId, pending)
    {
      ghost var was := data[..];
      LayPacketHeader(was, size, acceptorId, pending);
      Write(0, IntBytes(size - PAXOS_MSG_SIZE));
      Write(4, IntBytes(PAXOS_PROMISE));
      assert data[..size] == data[..][..size];
    }

    /** flush_send_buffer: sends the batch and empties the buffer. */
    method Flush()
      requires Valid() && size > 0
      modifies this, data
      ensures Valid() && size == 0 && pending == []
      ensures sent == old(sent) + [Packet(acceptorId, old(pending))]
      ensures Received(sent) == Received(old(sent)) + old(pending)
    {
      Seal();
      BodyIsLong(pending);
      ReceivedOneMore(sent, acceptorId, pending);
      sent := sent + [data[..size]];
      size := 0;
      pending := [];
    }

    /** Writes a promise behind the others and counts it in the header. */
    method Append(p: Promise)
      requires Valid() && Sendable(p) && 0 < size && size + PromiseSize(p) <= MAX_UDP_MSG_SIZE
      modifies this`size, this`pending, data
      ensures Valid() && pending == old(pending) + [p] && size > 0
    {
      LayPromise(data[..], size, acceptorId, pending, p);
      var count := Count();
      Write(size, PromiseBytes(p));
      Write(12, IntBytes(count + 1));
      size := size + PromiseSize(p);
      pending := pending + [p];
    }

    /** The count field of the batch header. */
    method Count() returns (count: int)
      requires Valid() && size > 0
      ensures count == |pending|
    {
      BodyIsLong(pending);
      IntRoundTrip(|pending|);
      count := BytesInt(data[..][12..16]);
    }

    /** add_promise_to_send_buffer: flushes first if the promise does not fit. */
    method Add(p: Promise)
      requires Valid() && Sendable(p)
      modifies this, data
      ensures Valid()
      ensures if old(size) + PromiseSize(p) > MAX_UDP_MSG_SIZE
              then pending == [p] && sent == old(sent) + [Packet(acceptorId, old(pending))] && old(pending) != []
              else pending == old(pending) + [p] && sent == old(sent)
      ensures Received(sent) + pending == Received(old(sent)) + old(pending) + [p]
      ensures old(sent) <= sent
      ensures size > 0
    {
      if PromiseSize(p) + size > MAX_UDP_MSG_SIZE {
        Flush();
      }
      if size == 0 {
        Start();
      }
      Append(p);
    }

    /** send_learn_message fills the same buffer and flushes it to the learners. */
    method Lend()
      requires Valid() && pending == []
      modifies this`size
      ensures Valid() && size == 0
    {
      size := 0;
    }
  }
}
