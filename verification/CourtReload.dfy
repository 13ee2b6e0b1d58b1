/** Reading the stored requests back: what the table holds afterwards, alone and among the steps of the other threads. */
module CourtReload {
  import opened Labels
  import opened SignalLog
  import opened Pending
  import opened Court
  import opened CourtTheorems
  import opened CourtSchedules

  /** The table after the first n of the rows read back have been put into it. */
  function Reloaded(pending: seq<Slot>, list: seq<Request>, n: nat): (r: seq<Slot>)
    requires n <= |list|
    ensures |r| == |pending|
  {
    if n == 0 then pending else Enqueued(Reloaded(pending, list, n - 1), list[n - 1])
  }

  /** Reading back at most thirty-two rows puts each of them, unanswered, into its own slot, oldest first. */
  lemma {:induction false} ReloadFills(list: seq<Request>, n: nat)
    requires n <= |list| <= MAX_PENDING
    ensures |Reloaded(EmptyTable(), list, n)| == MAX_PENDING
    ensures forall k :: 0 <= k < n ==> Reloaded(EmptyTable(), list, n)[k] == Slot(true, list[k], 0, 0)
    ensures forall k :: n <= k < MAX_PENDING ==> Reloaded(EmptyTable(), list, n)[k] == BLANK
  {
    if n > 0 {
      ReloadFills(list, n - 1);
      FreeSlotIs(Reloaded(EmptyTable(), list, n - 1), n - 1);
    }
  }

  /** n reloading steps, as many as are possible. */
  ghost function Reloads(t: Tiers, s: State, n: nat): State {
    if n == 0 then s
    else
      var r := Reloads(t, s, n - 1);
      if Enabled(r, ReloadOne) then Next(t, r, ReloadOne) else r
  }

  /** Reloading steps fill the table with the rows read, one after the other; polling starts after the last. */
  lemma {:induction false} ReloadsFill(t: Tiers, s: State, list: seq<Request>, n: nat)
    requires s.cthread.CBoot? && Enabled(s, ReadRows(list)) && n <= |list|
    ensures Reloads(t, Next(t, s, ReadRows(list)), n)
         == s.(pending := Reloaded(s.pending, list, n), cthread := if n == |list| then CPoll else CReload(list[n..]))
  {
    hide Oldest, Enqueued;
    if n == 0 {
      assert list[0..] == list;
    } else {
      ReloadsFill(t, s, list, n - 1);
      assert list[n - 1..][1..] == list[n..];
    }
  }

  // ---- among the other threads ---------------------------------------------------------------

  predicate InTable(pending: seq<Slot>, req: Request) {
    exists i :: 0 <= i < |pending| && pending[i].active && pending[i].req == req
  }

  /** The first n rows read are in the table, or it is full; the others are still to come. */
  ghost predicate UnderWay(s: State, list: seq<Request>, n: nat) {
    && n <= |list|
    && s.cthread == (if n == |list| then CPoll else CReload(list[n..]))
    && forall j :: 0 <= j < n ==> InTable(s.pending, list[j]) || FreeCount(s.pending) == 0
  }

  lemma EnqueueKeepsIn(pending: seq<Slot>, req: Request, other: Request)
    requires InTable(pending, other)
    ensures InTable(Enqueued(pending, req), other)
  {
    var i :| 0 <= i < |pending| && pending[i].active && pending[i].req == other;
    assert Enqueued(pending, req)[i] == pending[i];
  }

  lemma ReplyKeepsIn(pending: seq<Slot>, id: CaseId, approved: bool, other: Request)
    requires InTable(pending, other)
    ensures InTable(Replied(pending, id, approved), other)
  {
    var i :| 0 <= i < |pending| && pending[i].active && pending[i].req == other;
    assert Replied(pending, id, approved)[i].active && Replied(pending, id, approved)[i].req == other;
  }

  lemma EnqueueEnters(pending: seq<Slot>, req: Request)
    ensures InTable(Enqueued(pending, req), req) || FreeCount(pending) == 0
  {
    NoneFree(pending);
    var k := FreeSlot(pending);
    if k < |pending| {
      assert Enqueued(pending, req)[k] == Slot(true, req, 0, 0);
    }
  }

  lemma UnderWayEnqueued(s: State, list: seq<Request>, n: nat, req: Request)
    requires UnderWay(s, list, n)
    ensures forall j :: 0 <= j < n ==> InTable(Enqueued(s.pending, req), list[j]) || FreeCount(Enqueued(s.pending, req)) == 0
  {
    hide InTable, FreeCount, Enqueued;
    EnqueueTakesOne(s.pending, req);
    forall j | 0 <= j < n ensures InTable(Enqueued(s.pending, req), list[j]) || FreeCount(Enqueued(s.pending, req)) == 0 {
      if FreeCount(s.pending) != 0 {
        EnqueueKeepsIn(s.pending, req, list[j]);
      }
    }
  }

  lemma UnderWayReplied(s: State, list: seq<Request>, n: nat, id: CaseId, approved: bool)
    requires UnderWay(s, list, n)
    ensures UnderWay(Answered(s, id, approved), list, n)
  {
    hide InTable, FreeCount, Replied, SlotOf;
    ReplyTakesNone(s.pending, id, approved);
    forall j | 0 <= j < n ensures InTable(Replied(s.pending, id, approved), list[j]) || FreeCount(s.pending) == 0 {
      if FreeCount(s.pending) != 0 {
        ReplyKeepsIn(s.pending, id, approved, list[j]);
      }
    }
  }

  lemma UnderWayReload(t: Tiers, s: State, list: seq<Request>, n: nat)
    requires UnderWay(s, list, n) && Enabled(s, ReloadOne)
    ensures n < |list| && UnderWay(Next(t, s, ReloadOne), list, n + 1)
  {
    hide InTable, FreeCount, Enqueued;
    UnderWayEnqueued(s, list, n, list[n]);
    EnqueueEnters(s.pending, list[n]);
    EnqueueTakesOne(s.pending, list[n]);
    assert list[n..][1..] == list[n + 1..];
  }

  lemma UnderWayKept(t: Tiers, s: State, st: Step, list: seq<Request>, n: nat)
    requires UnderWay(s, list, n) && Enabled(s, st) && !st.Crash? && !st.Poll?
    ensures UnderWay(Next(t, s, st), list, if st.ReloadOne? then n + 1 else n)
  {
    hide InTable, FreeCount, Enqueued, Oldest, Pruned, Replied, SlotOf, Judged, Decided, Assembled, Answered;
    match st
    case Reply(id, approved) => UnderWayReplied(s, list, n, id, approved);
    case EnqueueRow => UnderWayEnqueued(s, list, n, s.vthread.req);
    case ReloadOne => UnderWayReload(t, s, list, n);
    case Judge(locked) => JudgeKeepsBoot(t, s, locked);
    case Decide => DecideKeepsBoot(t, s);
    case Assemble(c) => AssembleKeepsTables(s, c);
    case _ =>
  }

  function Reloadings(steps: seq<Step>): nat {
    if steps == [] then 0 else Reloadings(steps[..|steps| - 1]) + (if steps[|steps| - 1].ReloadOne? then 1 else 0)
  }

  /**
    After a restart, whatever the other threads do between the reloading steps: the rows read are put
    back in order, each is in the table from then on unless the table has filled up, and polling starts
    with the last.
   */
  lemma {:induction false} ReloadAmidOthers(t: Tiers, now: int, before: seq<Step>, list: seq<Request>, more: seq<Step>)
    requires CanRun(t, now, before) && CanRun(t, now, before + [ReadRows(list)] + more)
    requires Enabled(Run(t, now, before), ReadRows(list))
    requires forall k :: 0 <= k < |more| ==> !more[k].Crash? && !more[k].Poll?
    ensures UnderWay(Run(t, now, before + [ReadRows(list)] + more), list, Reloadings(more))
    decreases |more|
  {
    hide UnderWay, Enabled, Next, Oldest;
    var base := before + [ReadRows(list)];
    if more == [] {
      assert base + more == base && base[..|base| - 1] == before;
      ReadingStarts(t, Run(t, now, before), list);
    } else {
      var front := more[..|more| - 1];
      assert (base + more)[..|base + more| - 1] == base + front;
      ReloadAmidOthers(t, now, before, list, front);
      UnderWayKept(t, Run(t, now, base + front), more[|more| - 1], list, Reloadings(front));
    }
  }

  lemma ReadingStarts(t: Tiers, s: State, list: seq<Request>)
    requires Enabled(s, ReadRows(list))
    ensures UnderWay(Next(t, s, ReadRows(list)), list, 0)
  {
    hide Oldest;
    assert list[0..] == list;
  }
}
