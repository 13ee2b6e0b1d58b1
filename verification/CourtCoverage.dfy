/**
  That the daemon does not forget a stored request: as long as no more are stored than the table has slots, each is in
  the table or on its way into or out of it once the rows have been read back.
 */
module CourtCoverage {
  import opened Labels
  import opened SignalLog
  import opened Pending
  import opened Court
  import opened CourtPlaces
  import opened CourtHolders
  import opened CourtTheorems
  import opened Counting

  predicate Listing(c: ConsentThread, id: CaseId) {
    c.CReload? && exists k :: 0 <= k < |c.todo| && c.todo[k].id == id
  }

  predicate Releasing(c: ConsentThread, id: CaseId) {
    c.CReleased? && c.req.id == id
  }

  /** In a slot, about to be put into one, or just taken out of one with its answer. */
  predicate InHand(s: State, id: CaseId) {
    Holds(s.pending, id) || Entering(s.vthread, id) || Listing(s.cthread, id) || Releasing(s.cthread, id)
  }

  ghost predicate Covered(s: State) {
    s.cthread.CBoot? || forall id :: id in s.rows ==> InHand(s, id)
  }

  /** A full table and a stored request outside it are more requests than there are slots. */
  lemma FullTableCounts(pending: seq<Slot>, rows: map<CaseId, Request>, id: CaseId)
    requires SlotsStored(pending, rows) && id in rows && !Holds(pending, id)
    requires forall k :: 0 <= k < |pending| ==> pending[k].active
    ensures |rows| > MAX_PENDING
  {
    var ids := seq(|pending|, k requires 0 <= k < |pending| => pending[k].req.id);
    var held := set x | x in ids;
    assert forall k :: 0 <= k < |pending| ==> ids[k] == pending[k].req.id;
    Counting.Listed(ids, held);
    assert held + {id} <= rows.Keys;
    assert id !in held;
    Within(held + {id}, rows.Keys);
    assert |rows| == |rows.Keys|;
  }

  /** A stored request outside the table leaves a slot free for it. */
  lemma RoomLeft(pending: seq<Slot>, rows: map<CaseId, Request>, id: CaseId)
    requires SlotsStored(pending, rows) && id in rows && !Holds(pending, id) && |rows| <= MAX_PENDING
    ensures FreeSlot(pending) < |pending|
  {
    FreeSlotMeans(pending);
    if forall k :: 0 <= k < |pending| ==> pending[k].active {
      FullTableCounts(pending, rows, id);
    }
  }

  lemma EnqueuedCovers(pending: seq<Slot>, rows: map<CaseId, Request>, req: Request)
    requires SlotsStored(pending, rows) && req.id in rows && |rows| <= MAX_PENDING
    ensures forall id :: Holds(pending, id) || id == req.id ==> Holds(Enqueued(pending, req), id)
  {
    hide SlotsStored, Holds, Enqueued, FreeSlot;
    if !Holds(pending, req.id) {
      RoomLeft(pending, rows, req.id);
    }
    forall id | Holds(pending, id) || id == req.id ensures Holds(Enqueued(pending, req), id) {
      HoldsAfterEnqueue(pending, req, id);
    }
  }

  /** With no more rows than slots, the start-up read returns every one. */
  lemma AllAreRead(rows: map<CaseId, Request>, list: seq<Request>, id: CaseId)
    requires Oldest(rows, list) && |rows| <= MAX_PENDING && id in rows
    ensures exists k :: 0 <= k < |list| && list[k].id == id
  {
    var ids := seq(|list|, k requires 0 <= k < |list| => list[k].id);
    var read := set x | x in ids;
    assert forall k :: 0 <= k < |list| ==> ids[k] == list[k].id;
    Counting.Listed(ids, read);
    assert read <= rows.Keys;
    assert |rows| == |rows.Keys|;
    Within(read, rows.Keys);
    assert id in ids;
  }

  lemma ReadCovers(s: State, list: seq<Request>)
    requires Enabled(s, ReadRows(list)) && |s.rows| <= MAX_PENDING
    ensures Covered(Reloading(s, list))
  {
    var next := Reloading(s, list);
    hide Oldest;
    forall id | id in s.rows ensures InHand(next, id) {
      AllAreRead(s.rows, list, id);
    }
  }

  lemma ReloadCovers(s: State)
    requires Covered(s) && Holders(s) && s.cthread.CReload? && s.cthread.todo != [] && |s.rows| <= MAX_PENDING
    ensures Covered(Reloading(s.(pending := Enqueued(s.pending, s.cthread.todo[0])), s.cthread.todo[1..]))
  {
    var todo := s.cthread.todo;
    var next := Reloading(s.(pending := Enqueued(s.pending, todo[0])), todo[1..]);
    EnqueuedCovers(s.pending, s.rows, todo[0]);
    hide Enqueued, Holds, Holders;
    forall id | id in s.rows ensures InHand(next, id) {
      assert InHand(s, id);
      if Listing(s.cthread, id) {
        var k :| 0 <= k < |todo| && todo[k].id == id;
        assert k > 0 ==> todo[1..][k - 1] == todo[k];
      }
    }
  }

  lemma EnterCovers(s: State)
    requires Covered(s) && Holders(s) && s.vthread.VQueue? && |s.rows| <= MAX_PENDING
    ensures Covered(s.(pending := Enqueued(s.pending, s.vthread.req), vthread := VIdle))
  {
    EnqueuedCovers(s.pending, s.rows, s.vthread.req);
    hide Enqueued, Holds, Holders;
    assert s.cthread.CBoot? || forall id :: id in s.rows ==> InHand(s, id);
  }

  lemma PollCovers(s: State, i: nat)
    requires Covered(s) && s.cthread.CPoll? && i < |s.pending| && s.pending[i].active
    ensures Covered(Polled(s, i))
  {
    var next := Polled(s, i);
    PollOnlyReminds(s.pending[i], s.now);
    forall id | id in s.rows ensures InHand(next, id) {
      assert InHand(s, id);
      if Holds(s.pending, id) {
        var k :| 0 <= k < |s.pending| && s.pending[k].active && s.pending[k].req.id == id;
        assert k == i || next.pending[k] == s.pending[k];
        hide Kept;
        if next.pending[k].active {
          assert next.pending[k].req.id == id;
        }
      }
    }
  }

  lemma ReplyCovers(s: State, id: CaseId, approved: bool)
    requires Covered(s)
    ensures Covered(Answered(s, id, approved))
  {
    var next := Answered(s, id, approved);
    assert forall k :: 0 <= k < |s.pending| ==>
             next.pending[k].active == s.pending[k].active && next.pending[k].req == s.pending[k].req;
    forall x | x in s.rows && !s.cthread.CBoot? ensures InHand(next, x) {
      assert InHand(s, x);
      if Holds(s.pending, x) {
        var k :| 0 <= k < |s.pending| && s.pending[k].active && s.pending[k].req.id == x;
        assert next.pending[k].active && next.pending[k].req.id == x;
      }
    }
  }

  /** The other steps leave the table alone, and let go of no request that is still stored. */
  lemma OthersCover(t: Tiers, s: State, st: Step)
    requires Covered(s) && Enabled(s, st)
    requires !st.ReadRows? && !st.ReloadOne? && !st.EnqueueRow? && !st.Poll? && !st.Reply?
    ensures Covered(Next(t, s, st))
  {
    hide Oldest, Pruned, Holds, Assembled, Judged, Decided, Final;
    match st
    case Assemble(c) => AssembleKeepsTables(s, c);
    case Judge(locked) => JudgeLetsGo(t, s, locked);
    case Decide => DecideLetsGo(t, s);
    case _ =>
  }

  lemma JudgeLetsGo(t: Tiers, s: State, locked: bool)
    requires s.vthread.VTaken?
    ensures var next := Judged(t, s, s.vthread.c, locked);
            next.pending == s.pending && next.rows == s.rows && next.cthread == s.cthread
  {
    hide Active;
  }

  lemma DecideLetsGo(t: Tiers, s: State)
    requires s.vthread.VFresh?
    ensures var next := Decided(t, s, s.vthread.c);
            next.pending == s.pending && next.rows == s.rows && next.cthread == s.cthread
  {
    hide Final;
  }

  lemma {:induction false} CoveredKept(t: Tiers, s: State, st: Step)
    requires Covered(s) && Holders(s) && Enabled(s, st) && |s.rows| <= MAX_PENDING
    ensures Covered(Next(t, s, st))
  {
    hide Holders, Covered, Holds, Oldest, Enqueued, Answered, Polled;
    match st
    case ReadRows(list) => ReadCovers(s, list);
    case ReloadOne => ReloadCovers(s);
    case EnqueueRow => EnterCovers(s);
    case Poll(i) => PollCovers(s, i);
    case Reply(id, approved) => ReplyCovers(s, id, approved);
    case _ => OthersCover(t, s, st);
  }

  /** At no time are more requests stored than the table has slots. */
  ghost predicate FewRows(t: Tiers, now: int, steps: seq<Step>)
    requires CanRun(t, now, steps)
  {
    |Run(t, now, steps).rows| <= MAX_PENDING && (steps != [] ==> FewRows(t, now, steps[..|steps| - 1]))
  }

  /**
    In a legal run that never stores more than 32 requests, every stored request is in hand once the rows have been
    read back; when neither thread is carrying one, it is in the table, where the poll loop finds it.
   */
  lemma {:induction false} NoRequestForgotten(t: Tiers, now: int, steps: seq<Step>)
    requires LegalRun(t, now, steps) && FewRows(t, now, steps)
    ensures Covered(Run(t, now, steps))
    ensures var s := Run(t, now, steps);
            s.cthread.CPoll? && !s.vthread.VQueue? ==> forall id :: id in s.rows ==> Holds(s.pending, id)
    decreases |steps|
  {
    hide Inv, Legal, Next, Enabled;
    if steps != [] {
      var front := steps[..|steps| - 1];
      NoRequestForgotten(t, now, front);
      RunInv(t, now, front);
      HoldersOf(t, Run(t, now, front));
      hide Covered;
      CoveredKept(t, Run(t, now, front), steps[|steps| - 1]);
    }
    InTable(Run(t, now, steps));
  }

  lemma HoldersOf(t: Tiers, s: State)
    requires Inv(t, s)
    ensures Holders(s)
  {
  }

  lemma InTable(s: State)
    requires Covered(s)
    ensures s.cthread.CPoll? && !s.vthread.VQueue? ==> forall id :: id in s.rows ==> Holds(s.pending, id)
  {
    hide Holds;
    assert s.cthread.CBoot? || forall id :: id in s.rows ==> InHand(s, id);
  }
}
