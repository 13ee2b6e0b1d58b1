/** Where every case is: the recorded place of a case always agrees with the queues, tables and threads. */
module CourtPlaces {
  import opened Labels
  import opened SignalLog
  import opened Pending
  import opened Court

  type Places = map<CaseId, Place>

  predicate At(place: Places, id: CaseId, p: Place) {
    id in place && place[id] == p
  }

  ghost predicate RingPlaced(place: Places, ring: seq<Case>) {
    && |ring| <= VERDICT_QUEUE_SIZE
    && (forall k :: 0 <= k < |ring| ==> At(place, ring[k].id, InRing))
    && (forall j, k :: 0 <= j < k < |ring| ==> ring[j].id != ring[k].id)
    && (forall id :: At(place, id, InRing) ==> exists k :: 0 <= k < |ring| && ring[k].id == id)
  }

  /** The case the verdict thread alone holds. */
  function InJudgement(v: VerdictThread): set<CaseId> {
    match v
    case VTaken(c) => {c.id}
    case VFresh(c) => {c.id}
    case VRow(req) => {req.id}
    case _ => {}
  }

  /** The case the consent thread alone holds. */
  function InRemoval(c: ConsentThread): set<CaseId> {
    match c
    case CRemoved(req, _) => {req.id}
    case _ => {}
  }

  ghost predicate ThreadsPlaced(place: Places, v: VerdictThread, c: ConsentThread) {
    && (forall id :: At(place, id, Judging) <==> id in InJudgement(v))
    && (forall id :: At(place, id, Place.Removed) <==> id in InRemoval(c))
  }

  ghost predicate RowsPlaced(place: Places, rows: map<CaseId, Request>) {
    && (forall id :: At(place, id, Held) <==> id in rows)
    && (forall id :: id in rows ==> rows[id].id == id)
  }

  ghost predicate VerdictsPlaced(place: Places, verdicts: seq<VerdictRow>) {
    && (forall k :: 0 <= k < |verdicts| ==> At(place, verdicts[k].id, Finished))
    && (forall j, k :: 0 <= j < k < |verdicts| ==> verdicts[j].id != verdicts[k].id)
    && (forall id :: At(place, id, Finished) ==> exists k :: 0 <= k < |verdicts| && verdicts[k].id == id)
  }

  ghost predicate AllPlaced(s: State) {
    && RingPlaced(s.log.place, s.ring)
    && ThreadsPlaced(s.log.place, s.vthread, s.cthread)
    && RowsPlaced(s.log.place, s.rows)
    && VerdictsPlaced(s.log.place, s.verdicts)
  }

  /** A case that moves between two places other than the one in question leaves that one alone. */
  lemma RingUnmoved(place: Places, ring: seq<Case>, id: CaseId, p: Place)
    requires RingPlaced(place, ring) && !At(place, id, InRing) && p != InRing
    ensures RingPlaced(place[id := p], ring)
  {
    var after := place[id := p];
    forall x | At(after, x, InRing) ensures exists k :: 0 <= k < |ring| && ring[k].id == x {
      assert At(place, x, InRing);
    }
    forall k | 0 <= k < |ring| ensures At(after, ring[k].id, InRing) {
      assert At(place, ring[k].id, InRing);
    }
  }

  lemma RowsUnmoved(place: Places, rows: map<CaseId, Request>, id: CaseId, p: Place)
    requires RowsPlaced(place, rows) && !At(place, id, Held) && p != Held
    ensures RowsPlaced(place[id := p], rows)
  {
    forall x ensures At(place[id := p], x, Held) <==> x in rows {
      assert At(place, x, Held) <==> x in rows;
    }
  }

  lemma VerdictsUnmoved(place: Places, verdicts: seq<VerdictRow>, id: CaseId, p: Place)
    requires VerdictsPlaced(place, verdicts) && !At(place, id, Finished) && p != Finished
    ensures VerdictsPlaced(place[id := p], verdicts)
  {
    var after := place[id := p];
    forall x | At(after, x, Finished) ensures exists k :: 0 <= k < |verdicts| && verdicts[k].id == x {
      assert At(place, x, Finished);
    }
    forall k | 0 <= k < |verdicts| ensures At(after, verdicts[k].id, Finished) {
      assert At(place, verdicts[k].id, Finished);
    }
  }

  lemma VerdictAdded(place: Places, verdicts: seq<VerdictRow>, row: VerdictRow)
    requires VerdictsPlaced(place, verdicts) && !At(place, row.id, Finished)
    ensures VerdictsPlaced(place[row.id := Finished], verdicts + [row])
  {
    var after, all := place[row.id := Finished], verdicts + [row];
    forall x | At(after, x, Finished) ensures exists k :: 0 <= k < |all| && all[k].id == x {
      if x == row.id {
        assert all[|verdicts|].id == x;
      } else {
        assert At(place, x, Finished);
        var k :| 0 <= k < |verdicts| && verdicts[k].id == x;
        assert all[k].id == x;
      }
    }
    forall k | 0 <= k < |verdicts| ensures verdicts[k].id != row.id {
      assert At(place, verdicts[k].id, Finished);
    }
  }

  lemma RingPopped(place: Places, ring: seq<Case>, p: Place)
    requires RingPlaced(place, ring) && ring != [] && p != InRing
    ensures RingPlaced(place[ring[0].id := p], ring[1..])
    ensures At(place, ring[0].id, InRing)
  {
    var after, rest := place[ring[0].id := p], ring[1..];
    forall x | At(after, x, InRing) ensures exists k :: 0 <= k < |rest| && rest[k].id == x {
      assert At(place, x, InRing);
      var k :| 0 <= k < |ring| && ring[k].id == x;
      assert rest[k - 1].id == x;
    }
    forall k | 0 <= k < |rest| ensures At(after, rest[k].id, InRing) {
      assert At(place, ring[k + 1].id, InRing);
    }
  }

  lemma RingPushed(place: Places, ring: seq<Case>, c: Case)
    requires RingPlaced(place, ring) && |ring| < VERDICT_QUEUE_SIZE && c.id !in place
    ensures RingPlaced(place[c.id := InRing], ring + [c])
  {
    var after, all := place[c.id := InRing], ring + [c];
    forall x | At(after, x, InRing) ensures exists k :: 0 <= k < |all| && all[k].id == x {
      if x == c.id {
        assert all[|ring|].id == x;
      } else {
        assert At(place, x, InRing);
        var k :| 0 <= k < |ring| && ring[k].id == x;
        assert all[k].id == x;
      }
    }
    forall k | 0 <= k < |ring| ensures At(after, ring[k].id, InRing) && ring[k].id != c.id {
      assert At(place, ring[k].id, InRing);
    }
  }

  /** A new verdict for a case that was elsewhere and is now finished. */
  lemma EmittedPlaced(s: State, id: CaseId, source: string, verdict: Label, score: real,
                                         required: bool, granted: bool, v: VerdictThread, c: ConsentThread)
    requires AllPlaced(s) && id in s.log.place
    requires s.log.place[id] == Judging || s.log.place[id] == Place.Removed
    requires InJudgement(v) == (if s.log.place[id] == Judging then {} else InJudgement(s.vthread))
    requires InRemoval(c) == (if s.log.place[id] == Place.Removed then {} else InRemoval(s.cthread))
    ensures AllPlaced(Emitted(s, id, source, verdict, score, required, granted).(vthread := v, cthread := c))
  {
    hide RingPlaced, RowsPlaced, VerdictsPlaced;
    RingUnmoved(s.log.place, s.ring, id, Finished);
    RowsUnmoved(s.log.place, s.rows, id, Finished);
    VerdictAdded(s.log.place, s.verdicts, VerdictRow(id, source, verdict, score, s.now, required, granted));
    assert id in InJudgement(s.vthread) <==> At(s.log.place, id, Judging);
    assert id in InRemoval(s.cthread) <==> At(s.log.place, id, Place.Removed);
    ThreadsSettled(s, id, Finished, v, c);
  }

  /** The thread that held a case has let go of it. */
  lemma ThreadsSettled(s: State, id: CaseId, p: Place, v: VerdictThread, c: ConsentThread)
    requires ThreadsPlaced(s.log.place, s.vthread, s.cthread)
    requires p != Judging && p != Place.Removed
    requires InJudgement(v) == InJudgement(s.vthread) - {id}
    requires InRemoval(c) == InRemoval(s.cthread) - {id}
    ensures ThreadsPlaced(s.log.place[id := p], v, c)
  {
    var after := s.log.place[id := p];
    forall x
      ensures At(after, x, Judging) <==> x in InJudgement(v)
      ensures At(after, x, Place.Removed) <==> x in InRemoval(c)
    {
      assert At(s.log.place, x, Judging) <==> x in InJudgement(s.vthread);
      assert At(s.log.place, x, Place.Removed) <==> x in InRemoval(s.cthread);
    }
  }

  lemma AssembledPlaced(s: State, c: Case)
    requires AllPlaced(s) && c.id !in s.log.place
    ensures AllPlaced(Assembled(s, c))
  {
    hide RingPlaced, RowsPlaced, VerdictsPlaced, ThreadsPlaced;
    if c.state == Clean || c.state == Watched {
      OtherMove(s, c.id, DismissedAtOnce);
      RingUnmoved(s.log.place, s.ring, c.id, DismissedAtOnce);
    } else if |s.ring| >= VERDICT_QUEUE_SIZE {
      var oldest := s.ring[0].id;
      RingPopped(s.log.place, s.ring, Dropped);
      OtherMove(s, oldest, Dropped);
      RingSize(s);
      var room := Placed(s, oldest, Dropped).(ring := s.ring[1..]);
      RingPushed(room.log.place, room.ring, c);
      OtherMove(room, c.id, InRing);
    } else {
      RingPushed(s.log.place, s.ring, c);
      OtherMove(s, c.id, InRing);
    }
  }

  lemma RingSize(s: State)
    requires RingPlaced(s.log.place, s.ring)
    ensures |s.ring| <= VERDICT_QUEUE_SIZE
  {
  }

  /** A case leaving or entering only the ring (or nothing at all) leaves threads, rows and verdicts alone. */
  lemma OtherMove(s: State, id: CaseId, p: Place)
    requires ThreadsPlaced(s.log.place, s.vthread, s.cthread)
    requires RowsPlaced(s.log.place, s.rows) && VerdictsPlaced(s.log.place, s.verdicts)
    requires id !in s.log.place || s.log.place[id] == InRing
    requires p == InRing || p == Dropped || p == DismissedAtOnce || p == Judging
    ensures RowsPlaced(s.log.place[id := p], s.rows) && VerdictsPlaced(s.log.place[id := p], s.verdicts)
    ensures p != Judging ==> ThreadsPlaced(s.log.place[id := p], s.vthread, s.cthread)
  {
    RowsUnmoved(s.log.place, s.rows, id, p);
    VerdictsUnmoved(s.log.place, s.verdicts, id, p);
    assert id !in InJudgement(s.vthread) && id !in InRemoval(s.cthread) by {
      assert id in InJudgement(s.vthread) <==> At(s.log.place, id, Judging);
      assert id in InRemoval(s.cthread) <==> At(s.log.place, id, Place.Removed);
    }
    if p != Judging {
      ThreadsSettled(s, id, p, s.vthread, s.cthread);
    }
  }

  lemma TakenPlaced(s: State)
    requires AllPlaced(s) && s.vthread.VIdle? && s.ring != []
    ensures AllPlaced(Taken(s))
  {
    hide RowsPlaced, VerdictsPlaced, RingPlaced;
    var id := s.ring[0].id;
    RingPopped(s.log.place, s.ring, Judging);
    OtherMove(s, id, Judging);
    var after := s.log.place[id := Judging];
    forall x
      ensures At(after, x, Judging) <==> x in InJudgement(VTaken(s.ring[0]))
      ensures At(after, x, Place.Removed) <==> x in InRemoval(s.cthread)
    {
      assert At(s.log.place, x, Judging) <==> x in InJudgement(s.vthread);
      assert At(s.log.place, x, Place.Removed) <==> x in InRemoval(s.cthread);
    }
  }

  lemma JudgingPlaced(s: State, id: CaseId)
    requires AllPlaced(s) && id in InJudgement(s.vthread)
    ensures At(s.log.place, id, Judging)
  {
    assert id in InJudgement(s.vthread) <==> At(s.log.place, id, Judging);
  }

  lemma JudgedPlaced(t: Tiers, s: State, locked: bool)
    requires AllPlaced(s) && s.vthread.VTaken?
    ensures AllPlaced(Judged(t, s, s.vthread.c, locked))
  {
    hide RingPlaced, RowsPlaced, VerdictsPlaced, Active;
    var c := s.vthread.c;
    JudgingPlaced(s, c.id);
    if locked {
      RingUnmoved(s.log.place, s.ring, c.id, Suspended);
      RowsUnmoved(s.log.place, s.rows, c.id, Suspended);
      VerdictsUnmoved(s.log.place, s.verdicts, c.id, Suspended);
      assert c.id !in InRemoval(s.cthread) by {
        assert c.id in InRemoval(s.cthread) <==> At(s.log.place, c.id, Place.Removed);
      }
      ThreadsSettled(s, c.id, Suspended, VIdle, s.cthread);
    } else if t.own(c.source) {
      EmittedPlaced(s, c.id, c.source, IaReferral, c.score, false, false, VIdle, s.cthread);
    } else if !Active(s.signals, c.source, s.now - FRESH_SIGNAL_SEC) {
      EmittedPlaced(s, c.id, c.source, DismissedStale, c.score, false, false, VIdle, s.cthread);
    }
  }

  lemma DecidedPlaced(t: Tiers, s: State)
    requires AllPlaced(s) && s.vthread.VFresh?
    ensures AllPlaced(Decided(t, s, s.vthread.c))
  {
    hide RingPlaced, RowsPlaced, VerdictsPlaced, Final;
    var c := s.vthread.c;
    JudgingPlaced(s, c.id);
    if Final(t, s, c) == Warned {
      EmittedPlaced(s, c.id, c.source, Warned, c.score, false, true, VEnforce(c), s.cthread);
    } else if !Containment(Final(t, s, c)) {
      EmittedPlaced(s, c.id, c.source, Dismissed, c.score, false, false, VIdle, s.cthread);
    }
  }

  lemma RowInsertedPlaced(s: State)
    requires AllPlaced(s) && s.vthread.VRow?
    ensures AllPlaced(RowInserted(s, s.vthread.req))
  {
    hide RingPlaced, VerdictsPlaced;
    var req := s.vthread.req;
    JudgingPlaced(s, req.id);
    RingUnmoved(s.log.place, s.ring, req.id, Held);
    VerdictsUnmoved(s.log.place, s.verdicts, req.id, Held);
    var after, rows := s.log.place[req.id := Held], s.rows[req.id := req];
    forall x ensures At(after, x, Held) <==> x in rows {
      assert At(s.log.place, x, Held) <==> x in s.rows;
    }
    assert req.id !in InRemoval(s.cthread) by {
      assert req.id in InRemoval(s.cthread) <==> At(s.log.place, req.id, Place.Removed);
    }
    ThreadsSettled(s, req.id, Held, VQueue(req), s.cthread);
  }

  lemma RowRemovedPlaced(s: State, req: Request, approved: bool)
    requires AllPlaced(s) && s.cthread == CReleased(req, approved) && req.id in s.rows
    ensures AllPlaced(RowRemoved(s, req, approved))
  {
    hide RingPlaced, VerdictsPlaced;
    assert At(s.log.place, req.id, Held);
    RingUnmoved(s.log.place, s.ring, req.id, Place.Removed);
    VerdictsUnmoved(s.log.place, s.verdicts, req.id, Place.Removed);
    var after := s.log.place[req.id := Place.Removed];
    forall x
      ensures At(after, x, Held) <==> x in s.rows - {req.id}
      ensures At(after, x, Judging) <==> x in InJudgement(s.vthread)
      ensures At(after, x, Place.Removed) <==> x in {req.id}
    {
      assert At(s.log.place, x, Held) <==> x in s.rows;
      assert At(s.log.place, x, Judging) <==> x in InJudgement(s.vthread);
      assert At(s.log.place, x, Place.Removed) <==> x in InRemoval(s.cthread);
    }
  }

  lemma AnswerLoggedPlaced(s: State, req: Request, approved: bool)
    requires AllPlaced(s) && s.cthread == CRemoved(req, approved)
    ensures AllPlaced(AnswerLogged(s, req, approved))
  {
    hide RingPlaced, RowsPlaced, VerdictsPlaced;
    assert req.id in InRemoval(s.cthread) <==> At(s.log.place, req.id, Place.Removed);
    if approved {
      EmittedPlaced(s, req.id, req.source, req.verdict, req.score, true, true, s.vthread, CLogged(req));
    } else {
      EmittedPlaced(s, req.id, req.source, ConsentDenied, req.score, true, false, s.vthread, CPoll);
    }
  }

  lemma CrashedPlaced(s: State)
    requires AllPlaced(s)
    ensures AllPlaced(Crashed(s))
  {
    var place, after := s.log.place, Crashed(s).log.place;
    assert forall x :: !At(after, x, InRing);
    assert forall x :: !At(after, x, Judging);
    assert forall x :: !At(after, x, Place.Removed);
    forall x | At(after, x, Finished) ensures exists k :: 0 <= k < |s.verdicts| && s.verdicts[k].id == x {
      assert At(place, x, Finished);
    }
    forall k | 0 <= k < |s.verdicts| ensures At(after, s.verdicts[k].id, Finished) {
      assert At(place, s.verdicts[k].id, Finished);
    }
    forall x ensures At(after, x, Held) <==> x in s.rows {
      assert At(place, x, Held) <==> x in s.rows;
    }
  }

  /** Every step keeps the places in agreement; resolve_entry only ever deletes a row that is there. */
  lemma {:induction false} PlacesKept(t: Tiers, s: State, st: Step)
    requires AllPlaced(s) && Enabled(s, st)
    requires s.cthread.CReleased? ==> s.cthread.req.id in s.rows
    ensures AllPlaced(Next(t, s, st))
  {
    hide RingPlaced, RowsPlaced, VerdictsPlaced, Oldest, Pruned, Enqueued, Replied, Released, Kept;
    match st
    case Assemble(c) => AssembledPlaced(s, c);
    case Take => TakenPlaced(s);
    case Judge(locked) => JudgedPlaced(t, s, locked);
    case Decide => DecidedPlaced(t, s);
    case InsertRow => RowInsertedPlaced(s);
    case RemoveRow => RowRemovedPlaced(s, s.cthread.req, s.cthread.approved);
    case LogAnswer => AnswerLoggedPlaced(s, s.cthread.req, s.cthread.approved);
    case Crash => CrashedPlaced(s);
    case _ =>
  }

  /** The cases that the threads and the head of the ring are dealing with. */
  predicate Handled(s: State, id: CaseId) {
    || (s.ring != [] && s.ring[0].id == id) || id in InJudgement(s.vthread) || id in InRemoval(s.cthread)
    || (s.cthread.CReleased? && s.cthread.req.id == id)
  }

  /** Judging moves at most the case at hand. */
  lemma JudgeMoves(t: Tiers, s: State, locked: bool) returns (p: Place)
    requires s.vthread.VTaken?
    ensures p != Lost
    ensures var after := Judged(t, s, s.vthread.c, locked).log.place;
            after == s.log.place || after == s.log.place[s.vthread.c.id := p]
  {
    hide Active;
    p := if locked then Suspended else Finished;
  }

  lemma DecideMoves(t: Tiers, s: State) returns (p: Place)
    requires s.vthread.VFresh?
    ensures p != Lost
    ensures var after := Decided(t, s, s.vthread.c).log.place;
            after == s.log.place || after == s.log.place[s.vthread.c.id := p]
  {
    hide Final;
    p := Finished;
  }

  /** Any other step moves at most one case, one that is being dealt with, and not to the lost ones. */
  lemma {:induction false} PlaceMoves(t: Tiers, s: State, st: Step) returns (x: CaseId, p: Place)
    requires Enabled(s, st) && !st.Crash? && !st.Assemble?
    ensures p != Lost
    ensures Next(t, s, st).log.place == s.log.place || (Handled(s, x) && Next(t, s, st).log.place == s.log.place[x := p])
  {
    hide Oldest, Kept, Released, Replied, SlotOf, Enqueued, Pruned, Judged, Decided;
    match st
    case Judge(locked) =>
      x := s.vthread.c.id;
      p := JudgeMoves(t, s, locked);
    case Decide =>
      x := s.vthread.c.id;
      p := DecideMoves(t, s);
    case Take => x, p := s.ring[0].id, Judging;
    case InsertRow => x, p := s.vthread.req.id, Held;
    case RemoveRow => x, p := s.cthread.req.id, Place.Removed;
    case LogAnswer => x, p := s.cthread.req.id, Finished;
    case _ => x, p := "", Held;
  }

  /** The cases whose verdict is logged and whose enforcement is still to come. */
  ghost predicate LoggedPlaced(s: State) {
    && (s.vthread.VEnforce? ==> At(s.log.place, s.vthread.c.id, Finished))
    && (s.cthread.CLogged? ==> At(s.log.place, s.cthread.req.id, Finished))
  }

  /** A finished case stays finished. */
  lemma FinishedStays(t: Tiers, s: State, st: Step, id: CaseId)
    requires AllPlaced(s) && Enabled(s, st) && At(s.log.place, id, Finished)
    requires s.cthread.CReleased? ==> s.cthread.req.id in s.rows
    ensures At(Next(t, s, st).log.place, id, Finished)
  {
    FinishedNotHandled(s, id);
    if st.Crash? {
    } else if st.Assemble? {
      AssembleKeepsOthers(s, st.c, id);
    } else {
      var x, p := PlaceMoves(t, s, st);
      hide Next, Enabled, AllPlaced;
    }
  }

  lemma FinishedNotHandled(s: State, id: CaseId)
    requires AllPlaced(s) && At(s.log.place, id, Finished)
    requires s.cthread.CReleased? ==> s.cthread.req.id in s.rows
    ensures !Handled(s, id)
  {
    RingHeadPlaced(s);
    assert id in InJudgement(s.vthread) <==> At(s.log.place, id, Judging);
    assert id in InRemoval(s.cthread) <==> At(s.log.place, id, Place.Removed);
    StoredPlaced(s, id);
  }

  lemma AssembleKeepsOthers(s: State, c: Case, id: CaseId)
    requires id in s.log.place && id != c.id && (s.ring != [] ==> s.ring[0].id != id)
    ensures At(Assembled(s, c).log.place, id, s.log.place[id])
  {
    AssembleMoves(s, c);
    hide Assembled;
  }

  /** Assembling places the new case, and in a full ring moves its oldest. */
  lemma AssembleMoves(s: State, c: Case)
    ensures Assembled(s, c).log.place
         == if c.state == Clean || c.state == Watched then s.log.place[c.id := DismissedAtOnce]
            else (if |s.ring| >= VERDICT_QUEUE_SIZE then s.log.place[s.ring[0].id := Dropped] else s.log.place)[c.id := InRing]
  {
  }

  lemma RingHeadPlaced(s: State)
    requires AllPlaced(s)
    ensures s.ring != [] ==> At(s.log.place, s.ring[0].id, InRing)
  {
  }

  lemma StoredPlaced(s: State, id: CaseId)
    requires AllPlaced(s)
    ensures id in s.rows <==> At(s.log.place, id, Held)
    ensures id in s.rows ==> s.rows[id].id == id
  {
    assert At(s.log.place, id, Held) <==> id in s.rows;
  }

  lemma LoggedKept(t: Tiers, s: State, st: Step)
    requires AllPlaced(s) && LoggedPlaced(s) && Enabled(s, st)
    requires s.cthread.CReleased? ==> s.cthread.req.id in s.rows
    ensures LoggedPlaced(Next(t, s, st))
  {
    hide AllPlaced, Enabled, At, Next;
    VerdictThreadLogs(t, s, st);
    ConsentThreadLogs(t, s, st);
    if s.vthread.VEnforce? {
      FinishedStays(t, s, st, s.vthread.c.id);
    }
    if s.cthread.CLogged? {
      FinishedStays(t, s, st, s.cthread.req.id);
    }
  }

  lemma VerdictThreadLogs(t: Tiers, s: State, st: Step)
    requires Enabled(s, st)
    ensures var next := Next(t, s, st);
            next.vthread.VEnforce? ==> next.vthread == s.vthread || At(next.log.place, next.vthread.c.id, Finished)
  {
    hide Oldest, Pruned, Enqueued, Replied, Released, Kept, Final, Active, SlotOf;
  }

  lemma ConsentThreadLogs(t: Tiers, s: State, st: Step)
    requires Enabled(s, st)
    ensures var next := Next(t, s, st);
            next.cthread.CLogged? ==> next.cthread == s.cthread || At(next.log.place, next.cthread.req.id, Finished)
  {
    hide Oldest, Pruned, Enqueued, Replied, Released, Kept, Final, Active, SlotOf;
  }
}
