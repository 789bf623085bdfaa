/** Types, constants and messages shared by every role. */
module Common {

  datatype Option<+T> = None | Some(value: T)

  type Byte = b: int | 0 <= b < 256
  type Value = seq<Byte>

  // config.h
  const MAX_PROPOSERS: int := 10
  // libpaxos.h
  const MAX_UDP_MSG_SIZE: int := 9000
  const PAXOS_MAX_VALUE_SIZE: int := 8960
  // acceptor.c: accepts below this ballot come straight from proposers
  const MIN_BALLOT: int := 2 * MAX_PROPOSERS
  // sizes of the fixed parts of the packets, in bytes
  const INT_SIZE: int := 4
  const PAXOS_MSG_SIZE: int := 8

  // The bodies of the paxos messages (libpaxos_priv.h).
  datatype Prepare = Prepare(iid: int, ballot: int)
  datatype Promise = Promise(iid: int, ballot: int, valueBallot: int, value: Value)
  datatype Accept = Accept(iid: int, ballot: int, proposerId: int, value: Value)
  datatype Learn = Learn(acceptorId: int, iid: int, ballot: int, proposerId: int, value: Value)

  /** Proposers and leaders share their ids. */
  predicate IsProposer(p: int) {
    0 <= p < MAX_PROPOSERS
  }

  /** The ballot of everything a proposer sends on its own. */
  function FixedBallot(proposer: int): int {
    MAX_PROPOSERS + proposer
  }

  /** The quorum used by leaders and learners alike. */
  function Quorum(n: nat): nat {
    1 + (2 * n) / 3
  }

  /** The acceptor ids of a system of n acceptors. */
  function Ids(n: nat): (ids: set<int>)
    ensures |ids| == n
    ensures forall a :: a in ids <==> 0 <= a < n
  {
    if n == 0 then {} else Ids(n - 1) + {n - 1}
  }

  /** Several sequences, one after the other. */
  function Joined<T>(parts: seq<seq<T>>): seq<T> {
    if parts == [] then [] else Joined(parts[..|parts| - 1]) + parts[|parts| - 1]
  }

  lemma JoinedOneMore<T>(parts: seq<seq<T>>, part: seq<T>)
    ensures Joined(parts + [part]) == Joined(parts) + part
  {
    assert (parts + [part])[..|parts|] == parts;
  }

  lemma SubsetSize<T>(a: set<T>, b: set<T>)
    requires a <= b
    ensures |a| <= |b|
    ensures |a| == |b| ==> a == b
  {
    assert b == a + (b - a);
    assert |b| == |a| + |b - a|;
  }

  /** A quorum is the whole group exactly for one, two or three acceptors. */
  lemma QuorumIsEverybody(n: nat)
    ensures Quorum(n) == n <==> 1 <= n <= 3
    ensures Quorum(n) >= n <==> n <= 3
  {
  }

  /** A set of acceptors that is a quorum of at most three leaves nobody out. */
  lemma SmallQuorumIsAll(n: nat, q: set<int>)
    requires n <= 3
    requires forall a :: a in q ==> 0 <= a < n
    requires |q| >= Quorum(n)
    ensures forall a :: 0 <= a < n ==> a in q
    ensures n >= 1
  {
    assert q <= Ids(n);
    SubsetSize(q, Ids(n));
  }

  /** Any three quorums share an acceptor, and so do any two. */
  lemma ThreeQuorumsIntersect(n: nat, p: set<int>, q: set<int>, r: set<int>)
    requires p <= Ids(n) && q <= Ids(n) && r <= Ids(n)
    requires |p| >= Quorum(n) && |q| >= Quorum(n) && |r| >= Quorum(n)
    ensures exists a :: a in p && a in q && a in r
  {
    var pq := p * q;
    assert |p + q| == |p| + |q| - |pq|;
    assert |pq + r| == |pq| + |r| - |pq * r|;
    assert p + q <= Ids(n) && pq + r <= Ids(n);
    SubsetSize(p + q, Ids(n));
    SubsetSize(pq + r, Ids(n));
    assert |pq * r| > 0;
    var a :| a in pq * r;
    assert a in p && a in q && a in r;
  }

  /** One acceptor fewer would not do: there are then three groups of that size with nobody in common. */
  lemma QuorumIsLeast(n: nat) returns (p: set<int>, q: set<int>, r: set<int>)
    ensures p <= Ids(n) && q <= Ids(n) && r <= Ids(n)
    ensures |p| == |q| == |r| == Quorum(n) - 1
    ensures !exists a :: a in p && a in q && a in r
  {
    var size := Quorum(n) - 1;
    var out := n - size;
    var from := if out < size then out else size;
    p, r := Ids(size), Ids(n) - Ids(out);
    var hole := Ids(from + out) - Ids(from);
    q := Ids(n) - hole;
    assert Ids(size) <= Ids(n) && Ids(out) <= Ids(n) && Ids(from) <= Ids(from + out) && hole <= Ids(n);
  }

  /** Two numbers less than a ring apart share a slot only if they are equal. */
  lemma SameSlot(i: int, j: int, size: int)
    requires size > 0
    requires i % size == j % size
    requires -size < i - j < size
    ensures i == j
  {
    assert i == size * (i / size) + i % size;
    assert j == size * (j / size) + j % size;
    var d := i / size - j / size;
    assert i - j == size * d;
    MultipleGrows(size, d);
  }

  /** Quotient and remainder determine each other. */
  lemma RemainderUnique(x: int, q: int, r: int, size: int)
    requires size > 0 && 0 <= r < size && x == size * q + r
    ensures x % size == r
  {
    assert x == size * (x / size) + x % size;
    var d := q - x / size;
    assert size * d == x % size - r;
    MultipleGrows(size, d);
  }

  lemma MultipleGrows(size: int, d: int)
    requires size > 0
    ensures d >= 1 ==> size * d >= size
    ensures d <= -1 ==> size * d <= -size
  {
  }
}
