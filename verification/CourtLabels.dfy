/**
  What the verdict log says: each label belongs to one branch, entries are appended under the current time, and in a
  run without crashes every verdict that was granted is enforced.
 */
module CourtLabels {
  import opened Labels
  import opened SignalLog
  import opened Pending
  import opened Court
  import opened CourtPlaces
  import opened CourtSound
  import opened CourtAnswers
  import opened CourtRecords

  // ---- which cases are routed where ----------------------------------------------------------

  /** Under 40 a case is dismissed; from 40 on it enters the ring, at whose full length the oldest case is dropped. */
  lemma {:induction false} AssembleRoutes(t: Tiers, s: State, c: Case)
    requires Enabled(s, Assemble(c))
    ensures var next := Next(t, s, Assemble(c));
      if c.score < 40.0 then next.ring == s.ring && At(next.log.place, c.id, DismissedAtOnce)
      else
        && next.ring == (if |s.ring| < 64 then s.ring else s.ring[1..]) + [c] && At(next.log.place, c.id, InRing)
        && (|s.ring| >= 64 && s.ring[0].id != c.id ==> At(next.log.place, s.ring[0].id, Dropped))
  {
  }

  /**
    What judging leads to: nothing under the lock, a referral for an own daemon, a dismissal when nothing has been
    noted from the source in the last minute, and otherwise the decision; in the first and last case nothing is logged.
   */
  lemma {:induction false} JudgedExactly(t: Tiers, s: State, locked: bool)
    requires AllSound(t, s) && s.vthread.VTaken?
    ensures var c, next := s.vthread.c, Next(t, s, Judge(locked));
      var seen := exists x :: x in s.log.observed && x.source == c.source && x.epoch > s.now - 60;
      && (next.vthread == if !locked && !t.own(c.source) && seen then VFresh(c) else VIdle)
      && (locked ==> next.verdicts == s.verdicts && At(next.log.place, c.id, Suspended))
      && (!locked && t.own(c.source) ==>
            next.verdicts == s.verdicts + [VerdictRow(c.id, c.source, IaReferral, c.score, s.now, false, false)])
      && (!locked && !t.own(c.source) && !seen ==>
            next.verdicts == s.verdicts + [VerdictRow(c.id, c.source, DismissedStale, c.score, s.now, false, false)])
      && (!locked && !t.own(c.source) && seen ==> next.verdicts == s.verdicts)
  {
    FreshInHistory(s, s.vthread.c.source);
    ActiveMeans(s.log.observed, s.vthread.c.source, s.now - FRESH_SIGNAL_SEC);
    hide AllSound, Active;
  }

  // ---- what a label tells --------------------------------------------------------------------

  /**
    A referral is for an own daemon and for no one else; consent was asked for exactly the containments and the denials;
    granted are exactly the containments and WARNED, which stands for a case that was routed as WARNED.
   */
  predicate Tells(t: Tiers, cases: map<CaseId, Case>, v: VerdictRow) {
    && (v.verdict == IaReferral <==> t.own(v.source))
    && (v.required <==> Containment(v.verdict) || v.verdict == ConsentDenied)
    && (v.granted <==> Containment(v.verdict) || v.verdict == Warned)
    && (v.verdict == Warned ==> v.id in cases && cases[v.id].state == Warned)
    && (Containment(v.verdict) || v.verdict == Warned || v.verdict == IaReferral || v.verdict == DismissedStale
        || v.verdict == ConsentDenied)
  }

  ghost predicate AllTell(t: Tiers, s: State) {
    forall k :: 0 <= k < |s.verdicts| ==> Tells(t, s.log.cases, s.verdicts[k])
  }

  /** The log grows by one entry at most, and under the time of the step. */
  lemma {:induction false} VerdictsAppend(t: Tiers, s: State, st: Step)
    requires Enabled(s, st)
    ensures var next := Next(t, s, st);
      && s.verdicts <= next.verdicts && |next.verdicts| <= |s.verdicts| + 1
      && (|next.verdicts| == |s.verdicts| + 1 ==>
            (st.Judge? || st.Decide? || st.LogAnswer?) && next.verdicts[|s.verdicts|].epoch == s.now)
  {
    hide Oldest, Pruned, Enqueued, Replied, Released, Kept, Final, Active, SlotOf, Filing;
    if st.Assemble? {
      RingAfter(s, st.c);
      hide Assembled;
    }
  }

  /** What a step that logs something logs. */
  lemma NewTells(t: Tiers, s: State, st: Step)
    requires AllSound(t, s) && AllFiled(s) && Enabled(s, st) && (st.Judge? || st.Decide? || st.LogAnswer?)
    ensures LastTells(t, s, Next(t, s, st))
  {
    hide AllSound, AllFiled;
    match st
    case Judge(locked) => JudgedTells(t, s, locked);
    case Decide => DecidedTells(t, s);
    case LogAnswer => AnswerTells(t, s);
  }

  ghost predicate LastTells(t: Tiers, s: State, next: State) {
    && next.log.cases == s.log.cases
    && (|next.verdicts| > |s.verdicts| ==> Tells(t, next.log.cases, next.verdicts[|s.verdicts|]))
  }

  lemma JudgedTells(t: Tiers, s: State, locked: bool)
    requires s.vthread.VTaken?
    ensures LastTells(t, s, Judged(t, s, s.vthread.c, locked))
  {
    hide Active, Tells;
    var c := s.vthread.c;
    UnconsentedTells(t, s.log.cases, c, s.now);
  }

  lemma UnconsentedTells(t: Tiers, cases: map<CaseId, Case>, c: Case, now: int)
    ensures t.own(c.source) ==> Tells(t, cases, VerdictRow(c.id, c.source, IaReferral, c.score, now, false, false))
    ensures !t.own(c.source) ==> Tells(t, cases, VerdictRow(c.id, c.source, DismissedStale, c.score, now, false, false))
  {
  }

  lemma DecidedTells(t: Tiers, s: State)
    requires AllSound(t, s) && AllFiled(s) && s.vthread.VFresh?
    ensures LastTells(t, s, Decided(t, s, s.vthread.c))
  {
    assert CourtRecords.Filed(s.log.cases, s.vthread.c);
    FinalOf(t, s);
    hide AllSound, AllFiled, Final;
  }

  lemma AnswerTells(t: Tiers, s: State)
    requires AllSound(t, s) && s.cthread.CRemoved?
    ensures LastTells(t, s, AnswerLogged(s, s.cthread.req, s.cthread.approved))
  {
    assert Askable(t, s.cthread.req.source, s.cthread.req.verdict);
    hide AllSound;
  }

  lemma FinalOf(t: Tiers, s: State)
    requires AllSound(t, s) && s.vthread.VFresh?
    ensures var c := s.vthread.c;
            !t.own(c.source) && (Final(t, s, c) == Warned <==> c.state == Warned) && (Final(t, s, c) == Warned || Containment(Final(t, s, c)))
  {
    FinalExactly(t, s, s.vthread.c);
    hide Final, VerdictsSound, Contained;
  }

  lemma CasesGrow(t: Tiers, s: State, st: Step)
    requires AllFiled(s) && Enabled(s, st)
    ensures var next := Next(t, s, st);
            forall id :: id in s.log.cases ==> id in next.log.cases && next.log.cases[id] == s.log.cases[id]
  {
    if st.Assemble? {
      RingAfter(s, st.c);
      hide Assembled;
    } else if !st.Crash? {
      ThreadsWait(t, s, st);
      hide AllFiled, Next, Enabled;
    }
  }

  lemma LabelsKept(t: Tiers, s: State, st: Step)
    requires AllTell(t, s) && AllSound(t, s) && AllFiled(s) && Enabled(s, st)
    ensures AllTell(t, Next(t, s, st))
  {
    hide AllSound, AllFiled, Enabled, Next;
    VerdictsAppend(t, s, st);
    CasesGrow(t, s, st);
    if st.Judge? || st.Decide? || st.LogAnswer? {
      NewTells(t, s, st);
    }
  }

  /** In every run each entry's label, and what it says about consent, tells which branch logged it. */
  lemma {:induction false} LabelsTell(t: Tiers, now: int, steps: seq<Step>)
    requires CanRun(t, now, steps)
    ensures AllTell(t, Run(t, now, steps))
    decreases |steps|
  {
    hide AllSound, AllFiled, Enabled, Next;
    if steps != [] {
      var front := steps[..|steps| - 1];
      LabelsTell(t, now, front);
      RunSound(t, now, front);
      RunFiled(t, now, front);
      hide AllTell;
      LabelsKept(t, Run(t, now, front), steps[|steps| - 1]);
    }
  }

  // ---- granted means enforced ----------------------------------------------------------------

  function DeedOf(v: VerdictRow): Enforcement {
    Enforcement(v.id, v.source, v.verdict)
  }

  /** Every granted verdict has been enforced, or is the one a thread is about to enforce. */
  ghost predicate AllActed(s: State) {
    forall k :: 0 <= k < |s.verdicts| && s.verdicts[k].granted ==>
      DeedOf(s.verdicts[k]) in s.log.enforced || DeedOf(s.verdicts[k]) in Due(s.vthread, s.cthread)
  }

  /** What was due stays due until it is carried out. */
  lemma DueStays(t: Tiers, s: State, st: Step, e: Enforcement)
    requires Enabled(s, st) && !st.Crash? && (e in s.log.enforced || e in Due(s.vthread, s.cthread))
    ensures var next := Next(t, s, st); e in next.log.enforced || e in Due(next.vthread, next.cthread)
  {
    hide Enabled, Next;
    ThreadsWait(t, s, st);
  }

  lemma ThreadsWait(t: Tiers, s: State, st: Step)
    requires Enabled(s, st) && !st.Crash?
    ensures var next := Next(t, s, st);
      && s.log.enforced <= next.log.enforced && (!st.Assemble? ==> next.log.cases == s.log.cases)
      && (s.vthread.VEnforce? ==>
            next.vthread == s.vthread || Enforcement(s.vthread.c.id, s.vthread.c.source, Warned) in next.log.enforced)
      && (s.cthread.CLogged? ==>
            next.cthread == s.cthread
            || Enforcement(s.cthread.req.id, s.cthread.req.source, s.cthread.req.verdict) in next.log.enforced)
  {
    hide Oldest, Pruned, Enqueued, Replied, Released, Kept, SlotOf, Assembled, Judged, Decided, AnswerLogged, Answered;
    match st
    case Assemble(c) => AssembleWaits(s, c);
    case Judge(locked) => JudgeWaits(t, s, locked);
    case Decide => DecideWaits(t, s);
    case Reply(id, approved) => AnswerWaits(s, id, approved);
    case LogAnswer => LogWaits(s, s.cthread.req, s.cthread.approved);
    case _ =>
  }

  lemma AssembleWaits(s: State, c: Case)
    ensures var next := Assembled(s, c);
            next.log.enforced == s.log.enforced && next.vthread == s.vthread && next.cthread == s.cthread
  {
  }

  lemma EmittedWaits(s: State, id: CaseId, source: string, verdict: Label, score: real, required: bool, granted: bool)
    ensures var next := Emitted(s, id, source, verdict, score, required, granted);
      && next.log.enforced == s.log.enforced && next.log.cases == s.log.cases
      && next.vthread == s.vthread && next.cthread == s.cthread
  {
  }

  lemma JudgeWaits(t: Tiers, s: State, locked: bool)
    requires s.vthread.VTaken?
    ensures var next := Judged(t, s, s.vthread.c, locked);
            next.log.enforced == s.log.enforced && next.cthread == s.cthread && next.log.cases == s.log.cases
  {
    hide Active, Emitted;
    var c := s.vthread.c;
    EmittedWaits(s, c.id, c.source, IaReferral, c.score, false, false);
    EmittedWaits(s, c.id, c.source, DismissedStale, c.score, false, false);
  }

  lemma DecideWaits(t: Tiers, s: State)
    requires s.vthread.VFresh?
    ensures var next := Decided(t, s, s.vthread.c);
            next.log.enforced == s.log.enforced && next.cthread == s.cthread && next.log.cases == s.log.cases
  {
    hide Final, Emitted;
    var c := s.vthread.c;
    EmittedWaits(s, c.id, c.source, Warned, c.score, false, true);
    EmittedWaits(s, c.id, c.source, Dismissed, c.score, false, false);
  }

  lemma AnswerWaits(s: State, id: CaseId, approved: bool)
    ensures var next := Answered(s, id, approved);
      && next.log.enforced == s.log.enforced && next.log.cases == s.log.cases
      && next.vthread == s.vthread && next.cthread == s.cthread
  {
    hide SlotOf, Replied;
  }

  lemma LogWaits(s: State, req: Request, approved: bool)
    ensures var next := AnswerLogged(s, req, approved);
            next.log.enforced == s.log.enforced && next.vthread == s.vthread && next.log.cases == s.log.cases
  {
  }

  /** A verdict that is granted as it is logged is due at once. */
  lemma NewIsDue(t: Tiers, s: State, st: Step)
    requires Enabled(s, st)
    ensures var next := Next(t, s, st);
      |next.verdicts| == |s.verdicts| + 1 && next.verdicts[|s.verdicts|].granted ==>
        DeedOf(next.verdicts[|s.verdicts|]) in Due(next.vthread, next.cthread)
  {
    VerdictsAppend(t, s, st);
    hide Oldest, Pruned, Enqueued, Replied, Released, Kept, Final, Active, SlotOf, Assembled;
  }

  lemma ActedKept(t: Tiers, s: State, st: Step)
    requires AllActed(s) && Enabled(s, st) && !st.Crash?
    ensures AllActed(Next(t, s, st))
  {
    var next := Next(t, s, st);
    VerdictsAppend(t, s, st);
    NewIsDue(t, s, st);
    hide Next, Enabled, Due;
    forall k | 0 <= k < |next.verdicts| && next.verdicts[k].granted
      ensures DeedOf(next.verdicts[k]) in next.log.enforced || DeedOf(next.verdicts[k]) in Due(next.vthread, next.cthread)
    {
      if k < |s.verdicts| {
        DueStays(t, s, st, DeedOf(s.verdicts[k]));
      }
    }
  }

  lemma {:induction false} GrantedIsEnforced(t: Tiers, now: int, steps: seq<Step>)
    requires CanRun(t, now, steps) && Crash !in steps
    ensures AllActed(Run(t, now, steps))
    decreases |steps|
  {
    hide Next, Enabled, Due;
    if steps != [] {
      GrantedIsEnforced(t, now, steps[..|steps| - 1]);
      hide AllActed;
      ActedKept(t, Run(t, now, steps[..|steps| - 1]), steps[|steps| - 1]);
    }
  }
}
