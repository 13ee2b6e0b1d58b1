/**
  What every record says about its case: source and score as it was assembled, a verdict no harsher than the score
  called for, a label that tells which branch wrote it, and an enforcement for every verdict that was granted.
 */
module CourtRecords {
  import opened Labels
  import opened SignalLog
  import opened Pending
  import opened Court
  import opened CourtSound
  import opened CourtAnswers

  type Cases = map<CaseId, Case>

  /** The case as it was assembled, under a verdict no harsher than its score calls for. */
  predicate OfCase(cases: Cases, id: CaseId, source: string, score: real, verdict: Label) {
    && id in cases && cases[id].source == source && cases[id].score == score
    && StateRank(verdict) <= StateRank(ScoreToState(score))
  }

  predicate OfRequest(cases: Cases, req: Request) {
    OfCase(cases, req.id, req.source, req.score, req.verdict) && req.timeout == TimeoutOf(req.verdict)
  }

  predicate Filed(cases: Cases, c: Case) {
    c.id in cases && cases[c.id] == c && c.state == ScoreToState(c.score)
  }

  ghost predicate RingFiled(cases: Cases, ring: seq<Case>) {
    forall k :: 0 <= k < |ring| ==> Filed(cases, ring[k])
  }

  predicate VerdictThreadFiled(cases: Cases, v: VerdictThread) {
    match v
    case VTaken(c) => Filed(cases, c)
    case VFresh(c) => Filed(cases, c)
    case VEnforce(c) => Filed(cases, c) && c.state == Warned
    case VRow(req) => OfRequest(cases, req)
    case VQueue(req) => OfRequest(cases, req)
    case VIdle => true
  }

  ghost predicate ConsentThreadFiled(cases: Cases, c: ConsentThread) {
    match c
    case CReload(todo) => forall k :: 0 <= k < |todo| ==> OfRequest(cases, todo[k])
    case CReleased(req, _) => OfRequest(cases, req)
    case CRemoved(req, _) => OfRequest(cases, req)
    case CLogged(req) => OfRequest(cases, req)
    case _ => true
  }

  ghost predicate RowsFiled(cases: Cases, rows: map<CaseId, Request>) {
    forall id :: id in rows ==> OfRequest(cases, rows[id])
  }

  ghost predicate SlotsFiled(cases: Cases, pending: seq<Slot>) {
    forall i :: 0 <= i < |pending| && pending[i].active ==> OfRequest(cases, pending[i].req)
  }

  ghost predicate VerdictsFiled(cases: Cases, verdicts: seq<VerdictRow>) {
    forall k :: 0 <= k < |verdicts| ==>
      OfCase(cases, verdicts[k].id, verdicts[k].source, verdicts[k].score, verdicts[k].verdict)
  }

  ghost predicate DeedsFiled(cases: Cases, enforced: seq<Enforcement>) {
    forall k :: 0 <= k < |enforced| ==>
      enforced[k].id in cases && OfCase(cases, enforced[k].id, enforced[k].source, cases[enforced[k].id].score, enforced[k].verdict)
  }

  ghost predicate AllFiled(s: State) {
    && (forall id :: id in s.log.cases ==> id in s.log.place)
    && RingFiled(s.log.cases, s.ring)
    && VerdictThreadFiled(s.log.cases, s.vthread) && ConsentThreadFiled(s.log.cases, s.cthread)
    && RowsFiled(s.log.cases, s.rows) && SlotsFiled(s.log.cases, s.pending)
    && VerdictsFiled(s.log.cases, s.verdicts) && DeedsFiled(s.log.cases, s.log.enforced)
  }

  /** A further case changes nothing about those already known. */
  lemma FiledStays(cases: Cases, more: Cases, s: State)
    requires RingFiled(cases, s.ring) && VerdictThreadFiled(cases, s.vthread) && ConsentThreadFiled(cases, s.cthread)
    requires forall id :: id in cases ==> id in more && more[id] == cases[id]
    ensures RingFiled(more, s.ring) && VerdictThreadFiled(more, s.vthread) && ConsentThreadFiled(more, s.cthread)
  {
  }

  lemma TablesStay(cases: Cases, more: Cases, s: State)
    requires RowsFiled(cases, s.rows) && SlotsFiled(cases, s.pending)
    requires VerdictsFiled(cases, s.verdicts) && DeedsFiled(cases, s.log.enforced)
    requires forall id :: id in cases ==> id in more && more[id] == cases[id]
    ensures RowsFiled(more, s.rows) && SlotsFiled(more, s.pending)
    ensures VerdictsFiled(more, s.verdicts) && DeedsFiled(more, s.log.enforced)
  {
  }

  lemma RingAfter(s: State, c: Case)
    ensures var next := Assembled(s, c);
      && next.rows == s.rows && next.pending == s.pending && next.verdicts == s.verdicts && next.log.enforced == s.log.enforced
      && next.vthread == s.vthread && next.cthread == s.cthread && next.log.cases == s.log.cases[c.id := c]
      && (forall k :: 0 <= k < |next.ring| ==> next.ring[k] == c || next.ring[k] in s.ring)
      && (forall id :: id in s.log.place || id == c.id ==> id in next.log.place)
  {
  }

  lemma AssembledFiled(s: State, c: Case)
    requires AllFiled(s) && Enabled(s, Assemble(c))
    ensures AllFiled(Assembled(s, c))
  {
    var more := s.log.cases[c.id := c];
    RingAfter(s, c);
    FiledStays(s.log.cases, more, s);
    TablesStay(s.log.cases, more, s);
    hide Assembled, VerdictThreadFiled, ConsentThreadFiled, RowsFiled, SlotsFiled, VerdictsFiled, DeedsFiled;
  }

  lemma VerdictFiled(cases: Cases, verdicts: seq<VerdictRow>, v: VerdictRow)
    requires VerdictsFiled(cases, verdicts) && OfCase(cases, v.id, v.source, v.score, v.verdict)
    ensures VerdictsFiled(cases, verdicts + [v])
  {
  }

  lemma EmittedFiled(s: State, id: CaseId, source: string, verdict: Label, score: real, required: bool, granted: bool,
                     v: VerdictThread, c: ConsentThread)
    requires AllFiled(s) && OfCase(s.log.cases, id, source, score, verdict)
    requires VerdictThreadFiled(s.log.cases, v) && ConsentThreadFiled(s.log.cases, c)
    ensures AllFiled(Emitted(s, id, source, verdict, score, required, granted).(vthread := v, cthread := c))
  {
    hide RowsFiled, SlotsFiled, VerdictThreadFiled, ConsentThreadFiled, DeedsFiled, RingFiled, VerdictsFiled, OfCase;
    VerdictFiled(s.log.cases, s.verdicts, VerdictRow(id, source, verdict, score, s.now, required, granted));
  }

  lemma JudgedFiled(t: Tiers, s: State, locked: bool)
    requires AllFiled(s) && s.vthread.VTaken?
    ensures AllFiled(Judged(t, s, s.vthread.c, locked))
  {
    var c := s.vthread.c;
    assert Filed(s.log.cases, c);
    if locked {
      hide RowsFiled, SlotsFiled, ConsentThreadFiled, DeedsFiled, RingFiled, VerdictsFiled;
    } else if t.own(c.source) {
      hide RowsFiled, SlotsFiled, ConsentThreadFiled, DeedsFiled, RingFiled, VerdictsFiled;
      EmittedFiled(s, c.id, c.source, IaReferral, c.score, false, false, VIdle, s.cthread);
    } else if !Active(s.signals, c.source, s.now - FRESH_SIGNAL_SEC) {
      hide RowsFiled, SlotsFiled, ConsentThreadFiled, DeedsFiled, RingFiled, VerdictsFiled, Active;
      EmittedFiled(s, c.id, c.source, DismissedStale, c.score, false, false, VIdle, s.cthread);
    }
  }

  /** Cap and floor only ever make a state milder. */
  lemma FinalIsMilder(t: Tiers, s: State, c: Case)
    ensures StateRank(Final(t, s, c)) <= StateRank(c.state)
  {
    hide CountRecent;
  }

  lemma DecidedFiled(t: Tiers, s: State)
    requires AllFiled(s) && AllSound(t, s) && s.vthread.VFresh?
    ensures AllFiled(Decided(t, s, s.vthread.c))
  {
    var c := s.vthread.c;
    FinalIsMilder(t, s, c);
    FinalExactly(t, s, c);
    hide RowsFiled, SlotsFiled, ConsentThreadFiled, DeedsFiled, RingFiled, VerdictsFiled, Final, AllSound;
    if Final(t, s, c) == Warned {
      EmittedFiled(s, c.id, c.source, Warned, c.score, false, true, VEnforce(c), s.cthread);
    } else if !Containment(Final(t, s, c)) {
      EmittedFiled(s, c.id, c.source, Dismissed, c.score, false, false, VIdle, s.cthread);
    }
  }

  lemma AnswerFiled(s: State)
    requires AllFiled(s) && s.cthread.CRemoved?
    ensures AllFiled(AnswerLogged(s, s.cthread.req, s.cthread.approved))
  {
    hide RowsFiled, SlotsFiled, VerdictThreadFiled, DeedsFiled, RingFiled, VerdictsFiled;
    var req := s.cthread.req;
    if s.cthread.approved {
      EmittedFiled(s, req.id, req.source, req.verdict, req.score, true, true, s.vthread, CLogged(req));
    } else {
      EmittedFiled(s, req.id, req.source, ConsentDenied, req.score, true, false, s.vthread, CPoll);
    }
  }

  lemma EnqueuedFiled(cases: Cases, pending: seq<Slot>, req: Request)
    requires SlotsFiled(cases, pending) && OfRequest(cases, req)
    ensures SlotsFiled(cases, Enqueued(pending, req))
  {
    hide OfRequest;
  }

  lemma RepliedFiled(cases: Cases, pending: seq<Slot>, id: CaseId, approved: bool)
    requires SlotsFiled(cases, pending)
    ensures SlotsFiled(cases, Replied(pending, id, approved))
  {
    hide OfRequest, SlotOf;
    var r := Replied(pending, id, approved);
    assert forall i :: 0 <= i < |pending| ==> r[i].active == pending[i].active && r[i].req == pending[i].req;
  }

  lemma PolledFiled(s: State, i: nat)
    requires AllFiled(s) && i < |s.pending| && s.pending[i].active
    ensures AllFiled(Polled(s, i))
  {
    hide Kept, RowsFiled, VerdictThreadFiled, DeedsFiled, RingFiled, VerdictsFiled;
    PollOnlyReminds(s.pending[i], s.now);
  }

  lemma DeedFiled(cases: Cases, enforced: seq<Enforcement>, e: Enforcement)
    requires DeedsFiled(cases, enforced)
    requires e.id in cases && OfCase(cases, e.id, e.source, cases[e.id].score, e.verdict)
    ensures DeedsFiled(cases, enforced + [e])
  {
  }

  lemma EnforceFiled(t: Tiers, s: State, st: Step)
    requires AllFiled(s) && Enabled(s, st) && (st.EnforceWarned? || st.EnforceAnswer?)
    ensures AllFiled(Next(t, s, st))
  {
    hide RowsFiled, SlotsFiled, DeedsFiled, RingFiled, VerdictsFiled;
    if st.EnforceWarned? {
      DeedFiled(s.log.cases, s.log.enforced, Enforcement(s.vthread.c.id, s.vthread.c.source, Warned));
    } else {
      DeedFiled(s.log.cases, s.log.enforced, Enforcement(s.cthread.req.id, s.cthread.req.source, s.cthread.req.verdict));
    }
  }

  lemma RowStepFiled(t: Tiers, s: State, st: Step)
    requires AllFiled(s) && Enabled(s, st)
    requires st.InsertRow? || st.EnqueueRow? || st.ReloadOne? || st.RemoveRow? || st.ReadRows? || st.Take?
    ensures AllFiled(Next(t, s, st))
  {
    hide VerdictsFiled, DeedsFiled, OfRequest, SlotsFiled, Enqueued, Filed;
    if st.EnqueueRow? {
      EnqueuedFiled(s.log.cases, s.pending, s.vthread.req);
    } else if st.ReloadOne? {
      EnqueuedFiled(s.log.cases, s.pending, s.cthread.todo[0]);
    }
  }

  /** Every step of any schedule keeps every record true to its case. */
  lemma {:induction false} RecordsKept(t: Tiers, s: State, st: Step)
    requires AllFiled(s) && AllSound(t, s) && Enabled(s, st)
    ensures AllFiled(Next(t, s, st))
  {
    match st
    case Assemble(c) => AssembledFiled(s, c);
    case Judge(locked) => JudgedFiled(t, s, locked);
    case Decide => DecidedFiled(t, s);
    case LogAnswer => AnswerFiled(s);
    case Poll(i) => PolledFiled(s, i);
    case Reply(id, approved) => RepliedFiled(s.log.cases, s.pending, id, approved);
    case EnforceWarned => EnforceFiled(t, s, st);
    case EnforceAnswer => EnforceFiled(t, s, st);
    case Tick(_) =>
    case Observe(_, _, _) =>
    case PruneWindow(_) =>
    case Crash => CrashFiled(s);
    case _ => RowStepFiled(t, s, st);
  }

  lemma CrashFiled(s: State)
    requires AllFiled(s)
    ensures AllFiled(Crashed(s))
  {
    hide RowsFiled, VerdictsFiled, DeedsFiled;
  }

  lemma StartFiled(now: int)
    ensures AllFiled(Start(now))
  {
  }

  lemma {:induction false} RunFiled(t: Tiers, now: int, steps: seq<Step>)
    requires CanRun(t, now, steps)
    ensures AllFiled(Run(t, now, steps))
    decreases |steps|
  {
    hide AllFiled, AllSound, Enabled, Next;
    if steps == [] {
      StartFiled(now);
    } else {
      var front := steps[..|steps| - 1];
      RunFiled(t, now, front);
      RunSound(t, now, front);
      RecordsKept(t, Run(t, now, front), steps[|steps| - 1]);
    }
  }

  /**
    In every run each verdict row, stored or waiting request and enforcement has the source (and the score) with which
    its case was assembled and a verdict no harsher than that score calls for; a request waits as long as its verdict says.
   */
  lemma {:induction false} NoRecordMixedUp(t: Tiers, now: int, steps: seq<Step>)
    requires CanRun(t, now, steps)
    ensures var s := Run(t, now, steps);
      var cases := s.log.cases;
      && (forall k :: 0 <= k < |s.verdicts| ==>
            OfCase(cases, s.verdicts[k].id, s.verdicts[k].source, s.verdicts[k].score, s.verdicts[k].verdict))
      && (forall id :: id in s.rows ==> OfRequest(cases, s.rows[id]))
      && (forall i :: 0 <= i < |s.pending| && s.pending[i].active ==> OfRequest(cases, s.pending[i].req))
      && (forall k :: 0 <= k < |s.log.enforced| ==>
            && s.log.enforced[k].id in cases && cases[s.log.enforced[k].id].source == s.log.enforced[k].source
            && StateRank(s.log.enforced[k].verdict) <= StateRank(ScoreToState(cases[s.log.enforced[k].id].score)))
  {
    hide Run, CanRun, OfRequest;
    RunFiled(t, now, steps);
  }

  // ---- when a request was queued -------------------------------------------------------------

  predicate QueuedWhenDecided(log: Log, req: Request) {
    req.id in log.decidedAt && req.queued == log.decidedAt[req.id]
  }

  /** A stored request carries the time at which it was decided, whatever re-stamping its slot goes through. */
  ghost predicate Timed(s: State) {
    && (forall id :: id in s.rows ==> s.rows[id].id == id && QueuedWhenDecided(s.log, s.rows[id]))
    && (s.vthread.VRow? || s.vthread.VQueue? ==> QueuedWhenDecided(s.log, s.vthread.req))
  }

  lemma DecidedTimed(t: Tiers, s: State)
    requires Timed(s) && Unjudged(s.log, s.ring, s.vthread) && s.vthread.VFresh?
    ensures Timed(Decided(t, s, s.vthread.c))
  {
    hide Final;
  }

  lemma JudgedTimed(t: Tiers, s: State, locked: bool)
    requires Timed(s) && s.vthread.VTaken?
    ensures Timed(Judged(t, s, s.vthread.c, locked))
  {
    hide Active;
    var next := Judged(t, s, s.vthread.c, locked);
    assert next.rows == s.rows && next.log.decidedAt == s.log.decidedAt && !next.vthread.VRow? && !next.vthread.VQueue?;
  }

  lemma LoggedTimed(s: State)
    requires Timed(s) && s.cthread.CRemoved?
    ensures Timed(AnswerLogged(s, s.cthread.req, s.cthread.approved))
  {
    var next := AnswerLogged(s, s.cthread.req, s.cthread.approved);
    assert next.rows == s.rows && next.log.decidedAt == s.log.decidedAt && next.vthread == s.vthread;
  }

  lemma AssembledTimed(s: State, c: Case)
    requires Timed(s)
    ensures Timed(Assembled(s, c))
  {
    var next := Assembled(s, c);
    assert next.rows == s.rows && next.log.decidedAt == s.log.decidedAt && next.vthread == s.vthread;
  }

  lemma TimedKept(t: Tiers, s: State, st: Step)
    requires Timed(s) && AllSound(t, s) && Enabled(s, st)
    ensures Timed(Next(t, s, st))
  {
    hide AllSound, Oldest, Pruned, Enqueued, Replied, Released, Kept, SlotOf, Assembled, Judged, Decided, AnswerLogged;
    match st
    case Assemble(c) => AssembledTimed(s, c);
    case Judge(locked) => JudgedTimed(t, s, locked);
    case Decide => FreshUndecided(t, s); DecidedTimed(t, s);
    case LogAnswer => LoggedTimed(s);
    case _ =>
  }

  lemma FreshUndecided(t: Tiers, s: State)
    requires AllSound(t, s)
    ensures Unjudged(s.log, s.ring, s.vthread)
  {
  }

  /** In every run the stored requests are queued under the times of their decisions, so the oldest of them were decided first. */
  lemma {:induction false} QueuedAsDecided(t: Tiers, now: int, steps: seq<Step>)
    requires CanRun(t, now, steps)
    ensures Timed(Run(t, now, steps))
    decreases |steps|
  {
    hide AllSound, Enabled, Next;
    if steps != [] {
      var front := steps[..|steps| - 1];
      QueuedAsDecided(t, now, front);
      RunSound(t, now, front);
      hide Timed;
      TimedKept(t, Run(t, now, front), steps[|steps| - 1]);
    }
  }
}
