/** The user's answers, and that each case is enforced at most once, after the answer and the log entry that allow it. */
module CourtAnswers {
  import opened Labels
  import opened SignalLog
  import opened Pending
  import opened Court
  import opened CourtPlaces
  import opened CourtHolders
  import opened CourtSound

  /** The latest reply that reached the case. */
  predicate LatestReply(replies: map<CaseId, bool>, id: CaseId, approved: bool) {
    id in replies && replies[id] == approved
  }

  ghost predicate SlotsAnswered(pending: seq<Slot>, replies: map<CaseId, bool>) {
    forall i :: 0 <= i < |pending| && pending[i].active && pending[i].reply != 0 ==>
      LatestReply(replies, pending[i].req.id, pending[i].reply == 1)
  }

  predicate ConsentAnswered(c: ConsentThread, replies: map<CaseId, bool>) {
    match c
    case CReleased(req, approved) => LatestReply(replies, req.id, approved)
    case CRemoved(req, approved) => LatestReply(replies, req.id, approved)
    case CLogged(req) => LatestReply(replies, req.id, true)
    case _ => true
  }

  ghost predicate RowsAsked(rows: map<CaseId, Request>, log: Log) {
    && (forall id :: id in rows ==> id in log.asked)
    && (forall id :: id in log.asked ==> id in rows || id in log.replies)
  }

  ghost predicate VerdictsAnswered(verdicts: seq<VerdictRow>, replies: map<CaseId, bool>) {
    forall k :: 0 <= k < |verdicts| && verdicts[k].required ==>
      LatestReply(replies, verdicts[k].id, verdicts[k].granted)
  }

  ghost predicate AllAnswered(s: State) {
    && SlotsAnswered(s.pending, s.log.replies)
    && ConsentAnswered(s.cthread, s.log.replies)
    && RowsAsked(s.rows, s.log)
    && VerdictsAnswered(s.verdicts, s.log.replies)
  }

  lemma SlotsAfterAnswer(pending: seq<Slot>, replies: map<CaseId, bool>, id: CaseId, approved: bool)
    requires SlotsAnswered(pending, replies) && OneSlotEach(pending)
    ensures SlotOf(pending, id) < |pending| ==> SlotsAnswered(Replied(pending, id, approved), replies[id := approved])
  {
    var k, r := SlotOf(pending, id), Replied(pending, id, approved);
    if k < |pending| {
      forall i | 0 <= i < |r| && r[i].active && r[i].reply != 0
        ensures LatestReply(replies[id := approved], r[i].req.id, r[i].reply == 1)
      {
        if i != k {
          assert r[i] == pending[i] && r[i].req.id != id;
        }
      }
    }
  }

  lemma AnsweredAnswered(s: State, id: CaseId, approved: bool)
    requires AllAnswered(s) && AllPlaced(s) && LoggedPlaced(s) && Holders(s)
    ensures AllAnswered(Answered(s, id, approved))
  {
    var k := SlotOf(s.pending, id);
    if k < |s.pending| {
      SlotsAfterAnswer(s.pending, s.log.replies, id, approved);
      assert Holds(s.pending, id);
      assert id in s.rows;
      StoredPlaced(s, id);
      OthersHeldElsewhere(s, id);
      hide AllPlaced, Holders, SlotsAnswered, Replied, SlotOf, Holds;
    }
  }

  /** No verdict row and no thread past the table concerns a case that is in the table. */
  lemma OthersHeldElsewhere(s: State, id: CaseId)
    requires AllPlaced(s) && LoggedPlaced(s) && Holders(s) && Holds(s.pending, id) && At(s.log.place, id, Held)
    ensures forall k :: 0 <= k < |s.verdicts| ==> s.verdicts[k].id != id
    ensures (s.cthread.CReleased? || s.cthread.CRemoved? || s.cthread.CLogged?) ==> s.cthread.req.id != id
  {
    forall k | 0 <= k < |s.verdicts| ensures s.verdicts[k].id != id {
      assert At(s.log.place, s.verdicts[k].id, Finished);
    }
    if s.cthread.CRemoved? {
      assert s.cthread.req.id in InRemoval(s.cthread) <==> At(s.log.place, s.cthread.req.id, Place.Removed);
    }
  }

  lemma EnqueuedAnswered(pending: seq<Slot>, replies: map<CaseId, bool>, req: Request)
    requires SlotsAnswered(pending, replies)
    ensures SlotsAnswered(Enqueued(pending, req), replies)
  {
  }

  lemma PolledAnswered(s: State, i: nat)
    requires AllAnswered(s) && i < |s.pending| && s.pending[i].active
    ensures AllAnswered(Polled(s, i))
  {
    hide Kept;
    PollOnlyReminds(s.pending[i], s.now);
    var r := Polled(s, i).pending;
    assert forall k :: 0 <= k < |r| && r[k].active ==>
             s.pending[k].active && r[k].reply == s.pending[k].reply && r[k].req.id == s.pending[k].req.id;
  }

  lemma VerdictAnswered(verdicts: seq<VerdictRow>, replies: map<CaseId, bool>, v: VerdictRow)
    requires VerdictsAnswered(verdicts, replies)
    requires v.required ==> LatestReply(replies, v.id, v.granted)
    ensures VerdictsAnswered(verdicts + [v], replies)
  {
  }

  lemma EmittedAnswered(s: State, id: CaseId, source: string, verdict: Label, score: real,
                                           required: bool, granted: bool, v: VerdictThread, c: ConsentThread)
    requires AllAnswered(s) && ConsentAnswered(c, s.log.replies)
    requires required ==> LatestReply(s.log.replies, id, granted)
    ensures AllAnswered(Emitted(s, id, source, verdict, score, required, granted).(vthread := v, cthread := c))
  {
    hide SlotsAnswered, VerdictsAnswered, ConsentAnswered;
    VerdictAnswered(s.verdicts, s.log.replies, VerdictRow(id, source, verdict, score, s.now, required, granted));
  }

  lemma JudgedAnswered(t: Tiers, s: State, locked: bool)
    requires AllAnswered(s) && s.vthread.VTaken?
    ensures AllAnswered(Judged(t, s, s.vthread.c, locked))
  {
    hide SlotsAnswered, VerdictsAnswered, ConsentAnswered, Active;
    var c := s.vthread.c;
    if t.own(c.source) {
      EmittedAnswered(s, c.id, c.source, IaReferral, c.score, false, false, VIdle, s.cthread);
    } else {
      EmittedAnswered(s, c.id, c.source, DismissedStale, c.score, false, false, VIdle, s.cthread);
    }
  }

  lemma DecidedAnswered(t: Tiers, s: State)
    requires AllAnswered(s) && s.vthread.VFresh?
    ensures AllAnswered(Decided(t, s, s.vthread.c))
  {
    hide SlotsAnswered, VerdictsAnswered, ConsentAnswered, Final;
    var c := s.vthread.c;
    if Final(t, s, c) == Warned {
      EmittedAnswered(s, c.id, c.source, Warned, c.score, false, true, VEnforce(c), s.cthread);
    } else {
      EmittedAnswered(s, c.id, c.source, Dismissed, c.score, false, false, VIdle, s.cthread);
    }
  }

  lemma AnswerLoggedAnswered(s: State, req: Request, approved: bool)
    requires AllAnswered(s) && s.cthread == CRemoved(req, approved)
    ensures AllAnswered(AnswerLogged(s, req, approved))
  {
    if approved {
      EmittedAnswered(s, req.id, req.source, req.verdict, req.score, true, true, s.vthread, CLogged(req));
    } else {
      EmittedAnswered(s, req.id, req.source, ConsentDenied, req.score, true, false, s.vthread, CPoll);
    }
  }

  lemma AssembledAnswered(s: State, c: Case)
    requires AllAnswered(s)
    ensures AllAnswered(Assembled(s, c))
  {
    hide SlotsAnswered, VerdictsAnswered, ConsentAnswered;
  }

  /** Every step keeps answers attributed to the replies that gave them, and no question unanswered and gone. */
  lemma {:induction false} AnswersKept(t: Tiers, s: State, st: Step)
    requires AllAnswered(s) && AllPlaced(s) && LoggedPlaced(s) && Holders(s) && Enabled(s, st)
    ensures AllAnswered(Next(t, s, st))
  {
    hide AllPlaced, Holders, VerdictsAnswered, Oldest, Pruned, Kept, Released, Replied, SlotOf, Enqueued;
    hide Judged, Decided, Assembled, Answered, Polled, AnswerLogged;
    match st
    case Assemble(c) => AssembledAnswered(s, c);
    case Judge(locked) => JudgedAnswered(t, s, locked);
    case Decide => DecidedAnswered(t, s);
    case EnqueueRow => EnqueuedAnswered(s.pending, s.log.replies, s.vthread.req);
    case ReloadOne => EnqueuedAnswered(s.pending, s.log.replies, s.cthread.todo[0]);
    case Reply(id, approved) => AnsweredAnswered(s, id, approved);
    case Poll(i) => PolledAnswered(s, i);
    case LogAnswer => AnswerLoggedAnswered(s, s.cthread.req, s.cthread.approved);
    case _ =>
  }

  // ---- enforcement ---------------------------------------------------------------------------

  /** The log entry that allows an enforcement: WARNED without asking, anything else after an approval. */
  predicate Allows(v: VerdictRow, e: Enforcement) {
    v.id == e.id && v.source == e.source && v.verdict == e.verdict && v.granted && v.required == (e.verdict != Warned)
  }

  ghost predicate Logged(verdicts: seq<VerdictRow>, e: Enforcement) {
    exists k :: 0 <= k < |verdicts| && Allows(verdicts[k], e)
  }

  predicate EnforcedId(log: Log, id: CaseId) {
    exists k :: 0 <= k < |log.enforced| && log.enforced[k].id == id
  }

  /** The enforcement a thread has logged the verdict for and not yet carried out. */
  function Due(v: VerdictThread, c: ConsentThread): seq<Enforcement> {
    (if v.VEnforce? then [Enforcement(v.c.id, v.c.source, Warned)] else [])
    + (if c.CLogged? then [Enforcement(c.req.id, c.req.source, c.req.verdict)] else [])
  }

  ghost predicate EnforcedSound(t: Tiers, s: State, e: Enforcement) {
    && Logged(s.verdicts, e) && SeenFresh(s.log, e.id, e.source)
    && (e.verdict == Warned || Containment(e.verdict)) && !t.own(e.source)
    && (t.sovereign(e.source) ==> e.verdict == Warned || e.verdict == Quarantined)
  }

  ghost predicate OnceEach(s: State) {
    && (forall j, k :: 0 <= j < k < |s.log.enforced| ==> s.log.enforced[j].id != s.log.enforced[k].id)
    && (s.vthread.VEnforce? ==> !EnforcedId(s.log, s.vthread.c.id) && s.vthread.c.state == Warned)
    && (s.cthread.CLogged? ==> !EnforcedId(s.log, s.cthread.req.id))
  }

  ghost predicate AllEnforcedSound(t: Tiers, s: State) {
    forall k :: 0 <= k < |s.log.enforced| ==> EnforcedSound(t, s, s.log.enforced[k])
  }

  ghost predicate DueLogged(s: State) {
    forall k :: 0 <= k < |Due(s.vthread, s.cthread)| ==> Logged(s.verdicts, Due(s.vthread, s.cthread)[k])
  }

  /** What has been enforced, and what is about to be, has its log entry and its evidence. */
  ghost predicate Backed(t: Tiers, s: State) {
    AllEnforcedSound(t, s) && DueLogged(s)
  }

  ghost predicate EnforcementOK(t: Tiers, s: State) {
    OnceEach(s) && Backed(t, s)
  }

  lemma LoggedStays(verdicts: seq<VerdictRow>, more: seq<VerdictRow>, e: Enforcement)
    requires Logged(verdicts, e) && verdicts <= more
    ensures Logged(more, e)
  {
    var k :| 0 <= k < |verdicts| && Allows(verdicts[k], e);
    assert more[k] == verdicts[k];
  }

  lemma LoggedIsFinished(s: State, e: Enforcement)
    requires AllPlaced(s) && Logged(s.verdicts, e)
    ensures At(s.log.place, e.id, Finished)
  {
    var k :| 0 <= k < |s.verdicts| && Allows(s.verdicts[k], e);
    assert At(s.log.place, s.verdicts[k].id, Finished);
  }

  /** A WARNED entry and an answered one are never about the same case. */
  lemma DueDiffer(s: State)
    requires AllPlaced(s) && DueLogged(s) && s.vthread.VEnforce? && s.cthread.CLogged? && s.cthread.req.verdict != Warned
    ensures s.vthread.c.id != s.cthread.req.id
  {
    var due := Due(s.vthread, s.cthread);
    assert Logged(s.verdicts, due[0]) && Logged(s.verdicts, due[1]);
    var j :| 0 <= j < |s.verdicts| && Allows(s.verdicts[j], due[0]);
    var k :| 0 <= k < |s.verdicts| && Allows(s.verdicts[k], due[1]);
    assert j != k;
  }

  lemma UnfinishedNotEnforced(t: Tiers, s: State, id: CaseId)
    requires AllPlaced(s) && AllEnforcedSound(t, s) && !At(s.log.place, id, Finished)
    ensures !EnforcedId(s.log, id)
  {
    forall k | 0 <= k < |s.log.enforced| ensures s.log.enforced[k].id != id {
      assert EnforcedSound(t, s, s.log.enforced[k]);
      LoggedIsFinished(s, s.log.enforced[k]);
    }
  }

  /** Past enforcements stay accounted for while verdicts and signals accumulate. */
  lemma EnforcedStays(t: Tiers, s: State, next: State)
    requires AllEnforcedSound(t, s) && Quiet(s, next)
    ensures AllEnforcedSound(t, next)
  {
    hide Logged, SeenFresh, Extends;
    forall k | 0 <= k < |s.log.enforced| ensures EnforcedSound(t, next, next.log.enforced[k]) {
      var e := s.log.enforced[k];
      assert EnforcedSound(t, s, e);
      LoggedStays(s.verdicts, next.verdicts, e);
      SeenFreshStays(s.log, next.log, e.id, e.source);
    }
  }

  /** What a step that carries out no enforcement may do to the record. */
  ghost predicate Quiet(s: State, next: State) {
    s.verdicts <= next.verdicts && next.log.enforced == s.log.enforced && Extends(s.log, next.log)
  }

  lemma QuietStep(t: Tiers, s: State, st: Step)
    requires AllSound(t, s) && Enabled(s, st) && !st.EnforceWarned? && !st.EnforceAnswer?
    ensures Quiet(s, Next(t, s, st))
  {
    hide Unjudged, RingSound, WindowSound, VerdictThreadSound, ConsentThreadSound, RowsSound, SlotsSound, VerdictsSound;
    if st.Judge? {
      QuietJudge(t, s, st.locked);
    } else if st.Decide? {
      QuietDecide(t, s);
    } else {
      QuietOther(t, s, st);
    }
  }

  lemma QuietJudge(t: Tiers, s: State, locked: bool)
    requires Unjudged(s.log, s.ring, s.vthread) && s.vthread.VTaken?
    ensures Quiet(s, Judged(t, s, s.vthread.c, locked))
  {
    JudgeKeepsUnjudged(t, s, locked);
    hide Active, Extends, Unjudged;
  }

  lemma QuietDecide(t: Tiers, s: State)
    requires Unjudged(s.log, s.ring, s.vthread) && s.vthread.VFresh?
    ensures Quiet(s, Decided(t, s, s.vthread.c))
  {
    DecideKeepsUnjudged(t, s);
    hide Final, Extends, Unjudged;
  }

  lemma QuietOther(t: Tiers, s: State, st: Step)
    requires Enabled(s, st) && !st.EnforceWarned? && !st.EnforceAnswer? && !st.Judge? && !st.Decide?
    ensures Quiet(s, Next(t, s, st))
  {
    QuietRecord(t, s, st);
    hide Enabled, Next, At;
  }

  /** These steps add to the record and change nothing in it. */
  lemma QuietRecord(t: Tiers, s: State, st: Step)
    requires Enabled(s, st) && !st.EnforceWarned? && !st.EnforceAnswer? && !st.Judge? && !st.Decide?
    ensures var next := Next(t, s, st);
      && s.verdicts <= next.verdicts && next.log.enforced == s.log.enforced && s.log.observed <= next.log.observed
      && next.log.freshAt == s.log.freshAt && next.log.decidedAt == s.log.decidedAt
  {
    hide Oldest, Pruned, Kept, Released, Replied, SlotOf, Enqueued, Assembled, AnswerLogged, Active, Final;
    if st.Assemble? {
      QuietAssemble(s, st.c);
    } else if st.LogAnswer? {
      QuietLog(s, s.cthread.req, s.cthread.approved);
    }
  }

  lemma QuietLog(s: State, req: Request, approved: bool)
    ensures var next := AnswerLogged(s, req, approved);
      && s.verdicts <= next.verdicts && next.log.enforced == s.log.enforced && s.log.observed == next.log.observed
      && next.log.freshAt == s.log.freshAt && next.log.decidedAt == s.log.decidedAt
  {
  }

  lemma QuietAssemble(s: State, c: Case)
    ensures var next := Assembled(s, c);
      && s.verdicts == next.verdicts && next.log.enforced == s.log.enforced && s.log.observed == next.log.observed
      && next.log.freshAt == s.log.freshAt && next.log.decidedAt == s.log.decidedAt
  {
  }

  lemma PlaceIsOne(place: Places, id: CaseId)
    ensures At(place, id, Judging) ==> !At(place, id, Finished)
    ensures At(place, id, Place.Removed) ==> !At(place, id, Finished)
  {
  }

  lemma LoggedLast(verdicts: seq<VerdictRow>, v: VerdictRow, e: Enforcement)
    requires Allows(v, e)
    ensures Logged(verdicts + [v], e)
  {
    assert Allows((verdicts + [v])[|verdicts|], e);
  }

  /** What is due after a step was due before, or has just been logged. */
  lemma DueGrows(s: State, next: State)
    requires DueLogged(s) && s.verdicts <= next.verdicts
    requires next.vthread.VEnforce? ==>
               next.vthread == s.vthread || Logged(next.verdicts, Enforcement(next.vthread.c.id, next.vthread.c.source, Warned))
    requires next.cthread.CLogged? ==>
               next.cthread == s.cthread || Logged(next.verdicts, Enforcement(next.cthread.req.id, next.cthread.req.source, next.cthread.req.verdict))
    ensures DueLogged(next)
  {
    hide Logged;
    var was, due := Due(s.vthread, s.cthread), Due(next.vthread, next.cthread);
    forall k | 0 <= k < |due| ensures Logged(next.verdicts, due[k]) {
      if next.vthread.VEnforce? && next.vthread == s.vthread && k == 0 {
        assert due[k] == was[0];
        LoggedStays(s.verdicts, next.verdicts, was[0]);
      } else if next.cthread.CLogged? && next.cthread == s.cthread && k == |due| - 1 {
        assert due[k] == was[|was| - 1];
        LoggedStays(s.verdicts, next.verdicts, was[|was| - 1]);
      }
    }
  }

  lemma DecideDue(t: Tiers, s: State)
    requires DueLogged(s) && s.vthread.VFresh?
    ensures DueLogged(Decided(t, s, s.vthread.c))
  {
    hide Final, Logged, DueLogged;
    var c := s.vthread.c;
    if Final(t, s, c) == Warned {
      LoggedLast(s.verdicts, VerdictRow(c.id, c.source, Warned, c.score, s.now, false, true), Enforcement(c.id, c.source, Warned));
    }
    DueGrows(s, Decided(t, s, c));
  }

  lemma DecideOnce(t: Tiers, s: State)
    requires EnforcementOK(t, s) && AllPlaced(s) && AllSound(t, s) && s.vthread.VFresh?
    ensures OnceEach(Decided(t, s, s.vthread.c))
  {
    var c := s.vthread.c;
    JudgingPlaced(s, c.id);
    PlaceIsOne(s.log.place, c.id);
    UnfinishedNotEnforced(t, s, c.id);
    FinalIsAskable(t, s, c);
    hide Final, AllPlaced, Unjudged, VerdictsSound, RowsSound, SlotsSound, Backed, Extends, EnforcedId;
    OnceUnlessEnforced(s, Decided(t, s, c));
  }

  /** Nothing more enforced, and what has become due was not. */
  lemma OnceUnlessEnforced(s: State, next: State)
    requires OnceEach(s) && next.log.enforced == s.log.enforced
    requires next.vthread.VEnforce? ==> next.vthread == s.vthread || (!EnforcedId(s.log, next.vthread.c.id) && next.vthread.c.state == Warned)
    requires next.cthread.CLogged? ==> next.cthread == s.cthread || !EnforcedId(s.log, next.cthread.req.id)
    ensures OnceEach(next)
  {
  }

  lemma LogAnswerDue(s: State)
    requires DueLogged(s) && s.cthread.CRemoved? && s.cthread.req.verdict != Warned
    ensures DueLogged(AnswerLogged(s, s.cthread.req, s.cthread.approved))
  {
    hide Logged, DueLogged;
    var req := s.cthread.req;
    if s.cthread.approved {
      LoggedLast(s.verdicts, VerdictRow(req.id, req.source, req.verdict, req.score, s.now, true, true),
                 Enforcement(req.id, req.source, req.verdict));
    }
    DueGrows(s, AnswerLogged(s, req, s.cthread.approved));
  }

  lemma LogAnswerOnce(t: Tiers, s: State)
    requires EnforcementOK(t, s) && AllPlaced(s) && s.cthread.CRemoved?
    ensures OnceEach(AnswerLogged(s, s.cthread.req, s.cthread.approved))
  {
    var req := s.cthread.req;
    assert req.id in InRemoval(s.cthread) <==> At(s.log.place, req.id, Place.Removed);
    PlaceIsOne(s.log.place, req.id);
    UnfinishedNotEnforced(t, s, req.id);
    hide AllPlaced, Backed, EnforcedId;
    OnceUnlessEnforced(s, AnswerLogged(s, req, s.cthread.approved));
  }

  /** The enforcement a step carries out. */
  function Carried(s: State, st: Step): Enforcement
    requires (st.EnforceWarned? && s.vthread.VEnforce?) || (st.EnforceAnswer? && s.cthread.CLogged?)
  {
    if st.EnforceWarned? then Enforcement(s.vthread.c.id, s.vthread.c.source, Warned)
    else Enforcement(s.cthread.req.id, s.cthread.req.source, s.cthread.req.verdict)
  }

  lemma CarriedDue(s: State, st: Step)
    requires Enabled(s, st) && (st.EnforceWarned? || st.EnforceAnswer?) && DueLogged(s)
    ensures Logged(s.verdicts, Carried(s, st))
  {
    var due := Due(s.vthread, s.cthread);
    assert Carried(s, st) == if st.EnforceWarned? then due[0] else due[|due| - 1];
  }

  lemma CarriedSound(t: Tiers, s: State, st: Step)
    requires DueLogged(s) && AllSound(t, s) && Enabled(s, st) && (st.EnforceWarned? || st.EnforceAnswer?)
    ensures EnforcedSound(t, s, Carried(s, st))
  {
    CarriedDue(s, st);
    hide Logged, SeenFresh, Contained, Due, DueLogged;
  }

  lemma CarriedOnce(t: Tiers, s: State, st: Step)
    requires OnceEach(s) && DueLogged(s) && AllPlaced(s) && AllSound(t, s) && Enabled(s, st)
    requires st.EnforceWarned? || st.EnforceAnswer?
    ensures OnceEach(Next(t, s, st))
  {
    if s.vthread.VEnforce? && s.cthread.CLogged? {
      assert Containment(s.cthread.req.verdict);
      DueDiffer(s);
    }
    hide AllPlaced, AllSound, DueLogged;
    EnforceOnce(s, Next(t, s, st), Carried(s, st));
  }

  lemma EnforceBacked(t: Tiers, s: State, st: Step)
    requires Backed(t, s) && AllSound(t, s) && Enabled(s, st) && (st.EnforceWarned? || st.EnforceAnswer?)
    ensures Backed(t, Next(t, s, st))
  {
    hide AllSound, DueLogged, EnforcedSound;
    var next := Next(t, s, st);
    CarriedSound(t, s, st);
    DueAfter(t, s, st);
    forall k | 0 <= k < |next.log.enforced| ensures EnforcedSound(t, next, next.log.enforced[k]) {
      EnforcedSame(t, s, next, next.log.enforced[k]);
    }
  }

  lemma EnforceOnce(s: State, next: State, e: Enforcement)
    requires OnceEach(s) && !EnforcedId(s.log, e.id) && next.log.enforced == s.log.enforced + [e]
    requires next.vthread.VEnforce? ==> next.vthread == s.vthread && s.vthread.c.id != e.id
    requires next.cthread.CLogged? ==> next.cthread == s.cthread && s.cthread.req.id != e.id
    ensures OnceEach(next)
  {
  }

  lemma DueAfter(t: Tiers, s: State, st: Step)
    requires DueLogged(s) && Enabled(s, st) && (st.EnforceWarned? || st.EnforceAnswer?)
    ensures DueLogged(Next(t, s, st))
  {
    hide Logged;
    var next := Next(t, s, st);
    var due, after := Due(s.vthread, s.cthread), Due(next.vthread, next.cthread);
    forall k | 0 <= k < |after| ensures Logged(next.verdicts, after[k]) {
      assert after[k] == due[if st.EnforceWarned? then k + 1 else k];
    }
  }

  lemma EnforcedSame(t: Tiers, s: State, next: State, e: Enforcement)
    requires EnforcedSound(t, s, e) && next.verdicts == s.verdicts
    requires next.log.observed == s.log.observed && next.log.freshAt == s.log.freshAt
    ensures EnforcedSound(t, next, e)
  {
  }

  lemma DueOnlyShrinks(t: Tiers, s: State, st: Step)
    requires Enabled(s, st) && !st.Decide? && !st.LogAnswer?
    ensures var next := Next(t, s, st);
            && (next.vthread.VEnforce? ==> next.vthread == s.vthread)
            && (next.cthread.CLogged? ==> next.cthread == s.cthread)
  {
    hide Oldest, Pruned, Enqueued, Replied, Released, Kept, Active, SlotOf;
  }

  lemma DueStep(t: Tiers, s: State, st: Step)
    requires DueLogged(s) && AllSound(t, s) && Enabled(s, st) && !st.EnforceWarned? && !st.EnforceAnswer?
    requires s.verdicts <= Next(t, s, st).verdicts
    ensures DueLogged(Next(t, s, st))
  {
    hide AllSound, DueLogged, Logged;
    if st.Decide? {
      DecideDue(t, s);
    } else if st.LogAnswer? {
      RemovedNotWarned(t, s);
      LogAnswerDue(s);
    } else {
      DueOnlyShrinks(t, s, st);
      hide Next;
      DueGrows(s, Next(t, s, st));
    }
  }

  lemma RemovedNotWarned(t: Tiers, s: State)
    requires AllSound(t, s) && s.cthread.CRemoved?
    ensures s.cthread.req.verdict != Warned
  {
    assert Containment(s.cthread.req.verdict);
  }

  /** Every step keeps the log entry and the evidence behind every enforcement. */
  lemma {:induction false} BackedKept(t: Tiers, s: State, st: Step)
    requires Backed(t, s) && AllSound(t, s) && Enabled(s, st)
    ensures Backed(t, Next(t, s, st))
  {
    if st.EnforceWarned? || st.EnforceAnswer? {
      EnforceBacked(t, s, st);
    } else {
      QuietStep(t, s, st);
      hide AllSound, Next, Enabled, AllEnforcedSound, DueLogged;
      EnforcedStays(t, s, Next(t, s, st));
      DueStep(t, s, st);
    }
  }

  lemma OnceKept(t: Tiers, s: State, st: Step)
    requires EnforcementOK(t, s) && AllPlaced(s) && AllSound(t, s) && Enabled(s, st)
    ensures OnceEach(Next(t, s, st))
  {
    if st.Decide? {
      DecideOnce(t, s);
    } else if st.LogAnswer? {
      LogAnswerOnce(t, s);
    } else if st.EnforceWarned? || st.EnforceAnswer? {
      hide AllPlaced, AllSound;
      CarriedOnce(t, s, st);
    } else {
      QuietStep(t, s, st);
      DueOnlyShrinks(t, s, st);
      hide AllPlaced, AllSound, Next, Enabled, Backed;
      OnceUnlessEnforced(s, Next(t, s, st));
    }
  }

  lemma {:induction false} EnforcementKept(t: Tiers, s: State, st: Step)
    requires EnforcementOK(t, s) && AllPlaced(s) && AllSound(t, s) && Enabled(s, st)
    ensures EnforcementOK(t, Next(t, s, st))
  {
    hide OnceEach, Backed, AllPlaced, AllSound, Next;
    BackedKept(t, s, st);
    OnceKept(t, s, st);
  }
}
