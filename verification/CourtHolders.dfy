/** Who holds a stored request: at most one slot, reload entry or thread at a time, and always a stored one. */
module CourtHolders {
  import opened Labels
  import opened SignalLog
  import opened Pending
  import opened Court

  /** The table's active slots are distinct stored requests. */
  ghost predicate SlotsStored(pending: seq<Slot>, rows: map<CaseId, Request>) {
    && |pending| == MAX_PENDING && OneSlotEach(pending)
    && forall i :: 0 <= i < |pending| && pending[i].active ==>
         pending[i].req.id in rows && SameAsk(rows[pending[i].req.id], pending[i].req)
  }

  /** The request the verdict thread has stored and is about to put into the table. */
  predicate Entering(v: VerdictThread, id: CaseId) {
    v.VQueue? && v.req.id == id
  }

  ghost predicate EnteringStored(v: VerdictThread, pending: seq<Slot>, rows: map<CaseId, Request>) {
    v.VQueue? ==> v.req.id in rows && rows[v.req.id] == v.req && !Holds(pending, v.req.id)
  }

  ghost predicate TodoStored(todo: seq<Request>, v: VerdictThread, pending: seq<Slot>, rows: map<CaseId, Request>) {
    && (forall k :: 0 <= k < |todo| ==> todo[k].id in rows && rows[todo[k].id] == todo[k])
    && (forall k :: 0 <= k < |todo| && k < FreeCount(pending) ==> !Holds(pending, todo[k].id) && !Entering(v, todo[k].id))
    && (forall j, k :: 0 <= j < k < |todo| ==> todo[j].id != todo[k].id)
  }

  ghost predicate ConsentStored(c: ConsentThread, v: VerdictThread, pending: seq<Slot>, rows: map<CaseId, Request>) {
    match c
    case CReload(todo) => todo != [] && TodoStored(todo, v, pending, rows)
    case CReleased(req, _) =>
      req.id in rows && SameAsk(rows[req.id], req) && !Holds(pending, req.id) && !Entering(v, req.id)
    case _ => true
  }

  ghost predicate Holders(s: State) {
    && SlotsStored(s.pending, s.rows)
    && EnteringStored(s.vthread, s.pending, s.rows)
    && ConsentStored(s.cthread, s.vthread, s.pending, s.rows)
  }

  lemma HeldIsStored(pending: seq<Slot>, rows: map<CaseId, Request>, id: CaseId)
    requires SlotsStored(pending, rows) && id !in rows
    ensures !Holds(pending, id)
  {
  }

  lemma RowInsertedHeld(s: State)
    requires Holders(s) && s.vthread.VRow? && s.vthread.req.id !in s.rows
    ensures Holders(RowInserted(s, s.vthread.req))
  {
    HeldIsStored(s.pending, s.rows, s.vthread.req.id);
  }

  /** A stored request that nobody holds, or that finds the table full, may be put into it. */
  lemma EnqueuedHeld(pending: seq<Slot>, rows: map<CaseId, Request>, req: Request)
    requires SlotsStored(pending, rows) && req.id in rows && rows[req.id] == req
    requires FreeCount(pending) > 0 ==> !Holds(pending, req.id)
    ensures SlotsStored(Enqueued(pending, req), rows)
    ensures forall id :: Holds(Enqueued(pending, req), id) ==> Holds(pending, id) || (FreeCount(pending) > 0 && id == req.id)
    ensures FreeCount(Enqueued(pending, req)) == if FreeCount(pending) == 0 then 0 else FreeCount(pending) - 1
  {
    hide Holds, OneSlotEach, FreeCount;
    NoneFree(pending);
    EnqueueTakesOne(pending, req);
    EnqueueKeepsOneEach(pending, req);
    forall id | Holds(Enqueued(pending, req), id) ensures Holds(pending, id) || (FreeCount(pending) > 0 && id == req.id) {
      HoldsAfterEnqueue(pending, req, id);
    }
  }

  lemma EnqueueRowHeld(s: State)
    requires Holders(s) && s.vthread.VQueue?
    ensures Holders(s.(pending := Enqueued(s.pending, s.vthread.req), vthread := VIdle))
  {
    hide SlotsStored, Holds, Enqueued, FreeCount;
    EnqueuedHeld(s.pending, s.rows, s.vthread.req);
  }

  lemma ReloadOneHeld(s: State)
    requires Holders(s) && s.cthread.CReload? && s.cthread.todo != []
    ensures Holders(Reloading(s.(pending := Enqueued(s.pending, s.cthread.todo[0])), s.cthread.todo[1..]))
  {
    hide SlotsStored, Holds, Enqueued, FreeCount;
    EnqueuedHeld(s.pending, s.rows, s.cthread.todo[0]);
  }

  /** Reading the rows back leaves every request with one holder exactly when none of them already has one. */
  lemma {:induction false} ReadRowsHeld(s: State, list: seq<Request>)
    requires Holders(s) && Enabled(s, ReadRows(list))
    ensures Holders(Reloading(s, list)) <==> !Clash(s, list)
  {
    hide SlotsStored, Holds, FreeCount;
  }

  lemma AnsweredHeld(s: State, id: CaseId, approved: bool)
    requires Holders(s)
    ensures Holders(Answered(s, id, approved))
  {
    var k := SlotOf(s.pending, id);
    if k < |s.pending| {
      HoldsAfterReply(s.pending, id, approved);
      SlotsAfterReply(s.pending, s.rows, id, approved);
      ReplyTakesNone(s.pending, id, approved);
      hide SlotsStored, Holds, Replied, FreeCount;
      assert SlotsStored(Replied(s.pending, id, approved), s.rows);
    }
  }

  lemma SlotsAfterReply(pending: seq<Slot>, rows: map<CaseId, Request>, id: CaseId, approved: bool)
    requires SlotsStored(pending, rows)
    ensures SlotsStored(Replied(pending, id, approved), rows)
  {
    var r := Replied(pending, id, approved);
    assert forall i :: 0 <= i < |pending| ==> r[i].active == pending[i].active && r[i].req == pending[i].req;
  }

  lemma HoldsAfterReply(pending: seq<Slot>, id: CaseId, approved: bool)
    ensures forall x :: Holds(Replied(pending, id, approved), x) ==> Holds(pending, x)
  {
    var r := Replied(pending, id, approved);
    forall x | Holds(r, x) ensures Holds(pending, x) {
      var i :| 0 <= i < |r| && r[i].active && r[i].req.id == x;
      assert pending[i].active && pending[i].req.id == x;
    }
  }

  lemma PolledHeld(s: State, i: nat)
    requires Holders(s) && s.cthread.CPoll? && i < |s.pending| && s.pending[i].active
    ensures Holders(Polled(s, i))
  {
    hide Kept;
    var p := s.pending[i];
    var r := Polled(s, i).pending;
    PollOnlyReminds(p, s.now);
    assert forall k :: 0 <= k < |r| && k != i ==> r[k] == s.pending[k];
    forall x | Holds(r, x) ensures Holds(s.pending, x) && (p.reply != 0 ==> x != p.req.id) {
      var k :| 0 <= k < |r| && r[k].active && r[k].req.id == x;
      assert s.pending[k].active && s.pending[k].req.id == x;
    }
    assert Holds(s.pending, p.req.id);
    SlotsAfterPoll(s, i);
  }

  lemma SlotsAfterPoll(s: State, i: nat)
    requires SlotsStored(s.pending, s.rows) && i < |s.pending| && s.pending[i].active
    ensures SlotsStored(Polled(s, i).pending, s.rows)
  {
    hide Kept;
    var r := Polled(s, i).pending;
    PollOnlyReminds(s.pending[i], s.now);
    assert forall k :: 0 <= k < |r| && r[k].active ==>
             s.pending[k].active && r[k].req.id == s.pending[k].req.id && SameAsk(s.pending[k].req, r[k].req);
  }

  lemma RowRemovedHeld(s: State, req: Request, approved: bool)
    requires Holders(s) && s.cthread == CReleased(req, approved)
    ensures Holders(RowRemoved(s, req, approved))
  {
    assert !Holds(s.pending, req.id);
    assert forall k :: 0 <= k < |s.pending| && s.pending[k].active ==> s.pending[k].req.id != req.id;
  }

  lemma CrashedHeld(s: State)
    ensures Holders(Crashed(s))
  {
  }

  /** Every legal step keeps one holder for each request. */
  lemma {:induction false} HoldersKept(t: Tiers, s: State, st: Step)
    requires Holders(s) && Legal(s, st)
    requires s.vthread.VRow? ==> s.vthread.req.id !in s.rows
    ensures Holders(Next(t, s, st))
  {
    hide SlotsStored, TodoStored, Oldest, Clash, Holds, Enqueued, Replied, Kept, Released, Final, Active, Pruned, SlotOf;
    match st
    case InsertRow => RowInsertedHeld(s);
    case EnqueueRow => EnqueueRowHeld(s);
    case Reply(id, approved) => AnsweredHeld(s, id, approved);
    case ReadRows(list) => ReadRowsHeld(s, list);
    case ReloadOne => ReloadOneHeld(s);
    case Poll(i) => PolledHeld(s, i);
    case RemoveRow => RowRemovedHeld(s, s.cthread.req, s.cthread.approved);
    case Crash => CrashedHeld(s);
    case Take => NotEntering(s, Taken(s).vthread);
    case Judge(locked) => NotEntering(s, Judged(t, s, s.vthread.c, locked).vthread);
    case Decide => NotEntering(s, Decided(t, s, s.vthread.c).vthread);
    case EnforceWarned => NotEntering(s, VIdle);
    case _ =>
  }

  lemma NotEntering(s: State, v: VerdictThread)
    requires Holders(s) && !s.vthread.VQueue? && !v.VQueue?
    ensures EnteringStored(v, s.pending, s.rows) && ConsentStored(s.cthread, v, s.pending, s.rows)
  {
  }
}
