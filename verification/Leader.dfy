/** lib/leader.c: the leader over its ring of records, each handler proved against LeaderModel. */
module LeaderRing {
  import opened Common
  import L = LeaderModel

  /** The choice among the first i entries is the one at index, or none if that is -1. */
  predicate ChoiceAt(ps: seq<L.Info>, i: nat, index: int)
    requires i <= |ps| && -1 <= index < |ps|
  {
    L.Choose(ps[..i]) == if index == -1 then None else Some(ps[index])
  }

  lemma ChoiceMovesOn(ps: seq<L.Info>, i: nat, index: int)
    requires i < |ps| && -1 <= index < i && ChoiceAt(ps, i, index)
    ensures index >= 0 ==> ps[index].valueBallot > -1
    ensures ChoiceAt(ps, i + 1,
              if L.Reports(ps[i]) && (index == -1 || ps[i].valueBallot > ps[index].valueBallot) then i else index)
  {
    assert ps[..i + 1][..i] == ps[..i];
  }

  class Leader {
    const c: L.Config
    const records: array<L.Slot>
    var currentIid: int
    var checkedIid: int          // p2info.current_iid
    var pendingCount: int
    var readyCount: int
    var highestReady: int
    var firstToCheck: int
    var lastToCheck: int
    var batch: seq<Prepare>      // the PREPARE packet in leader_send_buffer
    var anyBallot: int           // the ANYVAL packet in leader_send_buffer
    var anyIids: seq<int>
    var sent: seq<L.Packet>
    ghost var heard: set<L.Heard>
    ghost var decisions: seq<L.Decision>

    ghost function View(): L.State
      reads this, records
    {
      L.State(currentIid, checkedIid, pendingCount, readyCount, highestReady, firstToCheck, lastToCheck,
              records[..], batch, anyBallot, anyIids, sent, heard, decisions)
    }

    ghost predicate Valid()
      reads this, records
    {
      L.Shaped(c, View())
    }

    /** leader_init */
    constructor (c: L.Config)
      requires c.size > 0
      ensures Valid() && fresh(records) && this.c == c
      ensures View() == L.Init(c)
    {
      this.c := c;
      records := new L.Slot[c.size](_ => L.BlankSlot(c.n));
      currentIid, checkedIid := 0, 0;
      pendingCount, readyCount, highestReady := 0, 0, -1;
      firstToCheck, lastToCheck := 0, 0;
      batch, anyBallot, anyIids, sent := [], -1, [], [];
      heard, decisions := {}, [];
      new;
      assert records[..] == L.Blank(c).slots;
      ExecutePhase1();
    }

    /** leader_deliver_value */
    method DeliverValue(iid: int)
      requires Valid()
      modifies this`currentIid, this`readyCount
      ensures Valid() && View() == L.Deliver(old(View()), iid)
    {
      currentIid := iid + 1;
      readyCount := readyCount - 1;
    }

    method FlushPrepares()
      modifies this`sent
      ensures View() == L.FlushPrepares(old(View()))
    {
      sent := sent + [L.Prepares(batch)];
    }

    /** add_prepare_to_buffer */
    method AddPrepare(iid: int, ballot: int)
      modifies this`sent, this`batch
      ensures View() == L.AddPrepare(old(View()), Prepare(iid, ballot))
    {
      batch := batch + [Prepare(iid, ballot)];
      if L.PreparePacketSize(|batch|) + L.PREPARE_SIZE > MAX_UDP_MSG_SIZE {
        FlushPrepares();
        batch := [];
      }
    }

    /** The loop over the acceptors that forgets a record's promises. */
    method ClearPromises(k: nat)
      requires k < records.Length && |records[k].promises| == c.n
      modifies records
      ensures records[..] == old(records[..])[k := old(records[k]).(promises := seq(c.n, _ => L.NO_INFO))]
    {
      ghost var was := records[..];
      var j := 0;
      while j < c.n
        invariant 0 <= j <= c.n
        invariant |records[k].promises| == c.n
        invariant records[..] == was[k := was[k].(promises := records[k].promises)]
        invariant forall a :: 0 <= a < j ==> records[k].promises[a] == L.NO_INFO
      {
        records[k] := records[k].(promises := records[k].promises[j := L.NO_INFO]);
        j := j + 1;
      }
      assert records[k].promises == seq(c.n, _ => L.NO_INFO);
    }

    /** Opens instance i in slot k and asks for promises for it. */
    method OpenRecord(k: nat, i: int)
      requires Valid() && k == i % c.size
      modifies this`pendingCount, this`batch, this`sent, records
      ensures View() == L.AddPrepare(L.Opening(c, old(View()), i), Prepare(i, L.FirstBallot(c.id)))
    {
      ghost var was := records[..];
      pendingCount := pendingCount + 1;
      records[k] := L.Slot(i, L.FirstBallot(c.id), L.Pending, 0, records[k].promises);
      ClearPromises(k);
      assert records[..] == was[k := L.OpenedSlot(c.n, i, c.id)];
      AddPrepare(records[k].iid, records[k].ballot);
    }

    /** execute_phase1 */
    method ExecutePhase1()
      requires Valid()
      modifies this`pendingCount, this`firstToCheck, this`lastToCheck, this`batch, this`sent, records
      ensures Valid() && View() == L.ExecutePhase1(c, old(View()))
    {
      var from := highestReady + 1;
      var to := from + c.window;
      ghost var start := View();
      var i := from;
      while i <= to
        invariant Valid() && highestReady == old(highestReady)
        invariant L.OpenFrom(c, View(), i, to) == L.OpenFrom(c, start, from, to)
      {
        var k := i % c.size;
        if records[k].iid < i || records[k].status == L.New {
          OpenRecord(k, i);
        }
        i := i + 1;
      }
      if lastToCheck < to {
        lastToCheck := to;
      }
      if firstToCheck > from {
        firstToCheck := from;
      }
      if |batch| > 0 {
        FlushPrepares();
      }
    }

    /** Moves the pending record in slot k to its next ballot and asks for promises again. */
    method AskAgain(k: nat)
      requires Valid() && k < c.size && records[k].status == L.Pending
      modifies this`batch, this`sent, records
      ensures Valid()
      ensures View() == var s, slot := old(View()), L.Restarted(c.n, old(records[k]));
        L.AddPrepare(s.(slots := s.slots[k := slot]), Prepare(slot.iid, slot.ballot))
    {
      ghost var was := records[..];
      records[k] := records[k].(ballot := L.NextBallot(records[k].ballot), promiseCount := 0);
      ClearPromises(k);
      assert records[..] == was[k := L.Restarted(c.n, was[k])];
      AddPrepare(records[k].iid, records[k].ballot);
    }

    /** The loop of phase1_check_cb */
    method RestartPending()
      requires Valid()
      modifies this`batch, this`sent, records
      ensures Valid() && View() == L.RestartFrom(c, old(View()), old(firstToCheck))
    {
      ghost var start := View();
      var i := firstToCheck;
      while i <= lastToCheck
        invariant Valid()
        invariant L.RestartFrom(c, View(), i) == L.RestartFrom(c, start, start.firstToCheck)
      {
        var k := i % c.size;
        if records[k].iid == i && records[k].status == L.Pending {
          AskAgain(k);
        }
        i := i + 1;
      }
    }

    /** phase1_check_cb */
    method Phase1Check()
      requires Valid()
      modifies this`pendingCount, this`firstToCheck, this`lastToCheck, this`batch, this`sent, records
      ensures Valid() && View() == L.Phase1Check(c, old(View()))
    {
      batch := [];
      RestartPending();
      if pendingCount + readyCount < c.window / 2 {
        ExecutePhase1();
      }
      if |batch| > 0 {
        FlushPrepares();
      }
    }

    /** The first half of handle_promise: is the promise wanted, and does it complete a quorum? */
    method TakePromise(k: nat, acceptorId: int, p: Promise) returns (complete: bool)
      requires k < records.Length && |records[k].promises| == c.n && 0 <= acceptorId < c.n
      modifies records
      ensures records[..] == old(records[..])[k := L.TakePromise(c.n, old(records[k]), acceptorId, p)]
      ensures complete <==> old(records[k]).status == L.Pending && records[k].status == L.Ready
    {
      if records[k].iid != p.iid {
        return false;
      }
      if records[k].status != L.Pending {
        return false;
      }
      if records[k].ballot != p.ballot {
        return false;
      }
      if records[k].promises[acceptorId].iid != -1 && records[k].ballot == p.ballot {
        return false;
      }
      var info := L.Info(p.iid, p.valueBallot, []);
      if p.valueBallot != -1 {
        info := info.(value := p.value);
      }
      records[k] := records[k].(promises := records[k].promises[acceptorId := info],
                                promiseCount := records[k].promiseCount + 1);
      if records[k].promiseCount < Quorum(c.n) {
        return false;
      }
      records[k] := records[k].(status := L.Ready);
      return true;
    }

    /** handle_promise */
    method HandlePromise(acceptorId: int, p: Promise)
      requires Valid() && 0 <= acceptorId < c.n
      modifies this`pendingCount, this`readyCount, this`highestReady, this`firstToCheck, this`lastToCheck,
               this`heard, records
      ensures Valid() && View() == L.HandlePromise(c, old(View()), acceptorId, p)
    {
      var k := p.iid % c.size;
      heard := heard + {L.Heard(acceptorId, p)};
      var complete := TakePromise(k, acceptorId, p);
      if complete {
        CountReady(records[k].iid);
      }
    }

    /** The last lines of handle_promise: instance iid has become ready. */
    method CountReady(iid: int)
      modifies this`pendingCount, this`readyCount, this`highestReady, this`firstToCheck, this`lastToCheck
      ensures pendingCount == old(pendingCount) - 1 && readyCount == old(readyCount) + 1
      ensures highestReady == L.Max(old(highestReady), iid)
      ensures firstToCheck == L.Min(old(firstToCheck), iid) && lastToCheck == L.Max(old(lastToCheck), iid)
    {
      pendingCount := pendingCount - 1;
      readyCount := readyCount + 1;
      if highestReady < iid {
        highestReady := iid;
      }
      if firstToCheck > iid {
        firstToCheck := iid;
      }
      if lastToCheck < iid {
        lastToCheck := iid;
      }
    }

    /** phase2_value: the index of the choice, or -1 */
    method Phase2Value(k: nat) returns (index: int)
      requires Valid() && k < c.size
      ensures -1 <= index < c.n
      ensures ChoiceAt(records[k].promises, c.n, index)
    {
      var ps := records[k].promises;
      var maxBallot := -1;
      index := -1;
      var i := 0;
      while i < c.n
        invariant 0 <= i <= c.n && -1 <= index < i
        invariant ChoiceAt(ps, i, index)
        invariant maxBallot == if index == -1 then -1 else ps[index].valueBallot
      {
        ChoiceMovesOn(ps, i, index);
        if ps[i].iid != -1 {
          if ps[i].valueBallot != -1 {
            if ps[i].valueBallot > maxBallot {
              maxBallot := ps[i].valueBallot;
              index := i;
            }
          }
        }
        i := i + 1;
      }
    }

    /** append_anymsg_to_buffer, after the ballot of the packet has been raised */
    method AddAnyval(iid: int, ballot: int)
      modifies this`anyBallot, this`anyIids, this`sent
      ensures View() == L.AddAnyval(old(View()), iid, ballot)
    {
      if ballot > anyBallot {
        anyBallot := ballot;
      }
      anyIids := anyIids + [iid];
      if L.AnyvalPacketSize(|anyIids|) + INT_SIZE > MAX_UDP_MSG_SIZE {
        sent := sent + [L.Anyvals(anyBallot, anyIids)];
        anyIids := [];
        anyBallot := -1;
      }
    }

    /** One turn of execute_phase2's loop, on a ready record. */
    method Decide(i: int)
      requires Valid() && records[i % c.size].status == L.Ready
      modifies this`anyBallot, this`anyIids, this`sent, this`decisions, records
      ensures Valid() && View() == L.Decide(c, old(View()), i)
    {
      var k := i % c.size;
      ghost var was := records[..];
      var index := Phase2Value(k);
      assert records[k].promises[..c.n] == records[k].promises;
      decisions := decisions + [L.Decision(if index == -1 then i else records[k].iid, records[k])];
      if index == -1 {
        AddAnyval(i, records[k].ballot);
      } else {
        sent := sent + [L.AcceptPacket(L.AcceptOf(records[k], records[k].promises[index]))];
      }
      records[k] := records[k].(status := L.Finished);
      assert records[..] == was[k := was[k].(status := L.Finished)];
    }

    /** execute_phase2 */
    method ExecutePhase2(first: int, last: int)
      requires Valid()
      modifies this`anyBallot, this`anyIids, this`sent, this`decisions, records
      ensures Valid() && View() == L.ExecutePhase2(c, old(View()), first, last)
    {
      anyIids := [];
      anyBallot := -1;
      ghost var start := View();
      var i := first;
      while i <= last
        invariant Valid()
        invariant L.DecideFrom(c, View(), i, last) == L.DecideFrom(c, start, first, last)
        decreases last - i
      {
        if records[i % c.size].status == L.Ready {
          Decide(i);
        }
        i := i + 1;
      }
      if |anyIids| > 0 {
        sent := sent + [L.Anyvals(anyBallot, anyIids)];
      }
    }

    /** leader_handle_promise_msg */
    method HandlePromiseMsg(acceptorId: int, ps: seq<Promise>)
      requires Valid() && 0 <= acceptorId < c.n
      modifies this`pendingCount, this`readyCount, this`highestReady, this`firstToCheck, this`lastToCheck, this`heard,
               this`anyBallot, this`anyIids, this`sent, this`decisions, records
      ensures Valid() && View() == L.HandlePromiseMsg(c, old(View()), acceptorId, ps)
    {
      var first, last := -1, -1;
      var i := 0;
      while i < |ps|
        invariant 0 <= i <= |ps| && Valid()
        invariant L.HandlePromises(c, View(), acceptorId, ps[i..]) == L.HandlePromises(c, old(View()), acceptorId, ps)
        invariant i > 0 ==> first == ps[0].iid
        invariant if i == |ps| && i > 0 then last == ps[i - 1].iid else last == -1
        invariant i == 0 ==> first == -1
      {
        if i == 0 {
          first := ps[i].iid;
        }
        if i == |ps| - 1 {
          last := ps[i].iid;
        }
        assert ps[i..][1..] == ps[i + 1..];
        HandlePromise(acceptorId, ps[i]);
        i := i + 1;
      }
      ExecutePhase2(first, last);
    }

    /** The record's way from phase2_check_cb back to phase 1. */
    method RestartRecord(k: nat) returns (finished: bool)
      requires k < records.Length && |records[k].promises| == c.n
      modifies records
      ensures finished <==> old(records[k]).status == L.Finished
      ensures records[..] == old(records[..])[k := L.Restarted(c.n, old(records[k]))]
    {
      finished := records[k].status == L.Finished;
      if finished {
        records[k] := records[k].(status := L.Pending);
      }
      records[k] := records[k].(ballot := L.NextBallot(records[k].ballot), promiseCount := 0);
      ClearPromises(k);
    }

    /** phase2_check_cb; `aborted` is its failed assertion */
    method Phase2Check() returns (aborted: bool)
      requires Valid()
      modifies this`pendingCount, this`readyCount, this`checkedIid, this`batch, this`sent, records
      ensures Valid()
      ensures aborted <==> !L.CheckHolds(c, old(View()))
      ensures !aborted ==> View() == L.Phase2Check(c, old(View()))
    {
      aborted := false;
      if currentIid == checkedIid {
        batch := [];
        var k := currentIid % c.size;
        if records[k].iid != currentIid {
          return true;
        }
        var finished := RestartRecord(k);
        if finished {
          readyCount := readyCount - 1;
          pendingCount := pendingCount + 1;
        }
        AddPrepare(records[k].iid, records[k].ballot);
        FlushPrepares();
      }
      checkedIid := currentIid;
    }
  }
}
