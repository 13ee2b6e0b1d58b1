/** The claims about whole runs: provenance, one enforcement per case, immunity, and no request lost. */
module CourtTheorems {
  import opened Labels
  import opened SignalLog
  import opened Pending
  import opened Court
  import opened CourtPlaces
  import opened CourtHolders
  import opened CourtSound
  import opened CourtAnswers
  import opened CourtApprovals

  ghost predicate Inv(t: Tiers, s: State) {
    AllPlaced(s) && LoggedPlaced(s) && Holders(s) && AllSound(t, s) && AllAnswered(s) && EnforcementOK(t, s)
  }

  lemma StartInv(t: Tiers, now: int)
    ensures Inv(t, Start(now))
  {
  }

  /** What the holders of requests say about the two threads. */
  lemma ThreadsKnown(s: State)
    requires AllPlaced(s) && Holders(s)
    ensures s.vthread.VRow? ==> s.vthread.req.id !in s.rows
    ensures s.cthread.CReleased? ==>
              s.cthread.req.id in s.rows && SameAsk(s.rows[s.cthread.req.id], s.cthread.req)
  {
    if s.vthread.VRow? {
      JudgingPlaced(s, s.vthread.req.id);
      StoredPlaced(s, s.vthread.req.id);
    }
  }

  /** Every legal step keeps the whole invariant, crashes included. */
  lemma {:induction false} InvKept(t: Tiers, s: State, st: Step)
    requires Inv(t, s) && Legal(s, st)
    ensures Inv(t, Next(t, s, st))
  {
    hide AllPlaced, LoggedPlaced, Holders, AllSound, AllAnswered, EnforcementOK, Enabled, Clash, Next, SameAsk;
    ThreadsKnown(s);
    PlacesKept(t, s, st);
    LoggedKept(t, s, st);
    HoldersKept(t, s, st);
    SoundKept(t, s, st);
    AnswersKept(t, s, st);
    EnforcementKept(t, s, st);
  }

  lemma {:induction false} RunInv(t: Tiers, now: int, steps: seq<Step>)
    requires LegalRun(t, now, steps)
    ensures Inv(t, Run(t, now, steps))
    decreases |steps|
  {
    hide Inv, Legal, Next, Start;
    if steps == [] {
      StartInv(t, now);
    } else {
      RunInv(t, now, steps[..|steps| - 1]);
      InvKept(t, Run(t, now, steps[..|steps| - 1]), steps[|steps| - 1]);
    }
  }

  // ---- JAILED only after a containment the user approved -------------------------------------

  /** Among the verdicts before it, one that contained the source in the last day, approved by the user. */
  ghost predicate Earned(s: State, before: seq<VerdictRow>, id: CaseId, source: string) {
    id in s.log.decidedAt
    && exists k :: 0 <= k < |before| && Containing(before[k], source, s.log.decidedAt[id]) && before[k].id in s.log.approved
  }

  lemma ContainedIsEarned(s: State, before: seq<VerdictRow>, id: CaseId, source: string)
    requires before <= s.verdicts && VerdictsApproved(s.verdicts, s.log.approved)
    requires id in s.log.decidedAt && Contained(before, source, s.log.decidedAt[id])
    ensures Earned(s, before, id, source)
  {
    var k :| 0 <= k < |before| && Containing(before[k], source, s.log.decidedAt[id]);
    assert s.verdicts[k] == before[k];
  }

  /** The requests in the process's memory: in the pending table, or in the hands of a thread. */
  ghost predicate InMemory(s: State, req: Request) {
    || (exists i :: 0 <= i < |s.pending| && s.pending[i].active && s.pending[i].req == req)
    || ((s.vthread.VRow? || s.vthread.VQueue?) && s.vthread.req == req)
    || (s.cthread.CReload? && req in s.cthread.todo)
    || ((s.cthread.CReleased? || s.cthread.CRemoved? || s.cthread.CLogged?) && s.cthread.req == req)
  }

  lemma MemoryIsSound(t: Tiers, s: State, req: Request)
    requires AllSound(t, s) && InMemory(s, req)
    ensures Sound(t, s.verdicts, s.log, req)
  {
    hide Sound;
  }

  /**
    In every run, whatever its schedule, each JAILED verdict, and each JAILED request stored or in memory,
    has an earlier HOUSE_ARREST or QUARANTINED verdict for its source that the user approved, logged in
    the day before it was decided. In a legal run that approval is also the latest reply to its case.
   */
  lemma {:induction false} JailedIsEarned(t: Tiers, now: int, steps: seq<Step>)
    requires CanRun(t, now, steps)
    ensures var s := Run(t, now, steps);
      && (forall k :: 0 <= k < |s.verdicts| && s.verdicts[k].verdict == Jailed ==>
            Earned(s, s.verdicts[..k], s.verdicts[k].id, s.verdicts[k].source))
      && (forall id :: id in s.rows && s.rows[id].verdict == Jailed ==>
            Earned(s, s.verdicts, id, s.rows[id].source))
      && (forall req :: InMemory(s, req) && req.verdict == Jailed ==>
            Earned(s, s.verdicts, req.id, req.source))
    ensures LegalRun(t, now, steps) ==> VerdictsAnswered(Run(t, now, steps).verdicts, Run(t, now, steps).log.replies)
  {
    hide Earned, Contained, Run, CanRun, LegalRun, InMemory;
    RunSound(t, now, steps);
    RunApproved(t, now, steps);
    var s := Run(t, now, steps);
    forall k | 0 <= k < |s.verdicts| && s.verdicts[k].verdict == Jailed
      ensures Earned(s, s.verdicts[..k], s.verdicts[k].id, s.verdicts[k].source)
    {
      assert VerdictSound(t, s.now, s.verdicts, s.log, k);
      ContainedIsEarned(s, s.verdicts[..k], s.verdicts[k].id, s.verdicts[k].source);
    }
    forall id | id in s.rows && s.rows[id].verdict == Jailed ensures Earned(s, s.verdicts, id, s.rows[id].source) {
      assert Sound(t, s.verdicts, s.log, s.rows[id]);
      ContainedIsEarned(s, s.verdicts, id, s.rows[id].source);
    }
    forall req | InMemory(s, req) && req.verdict == Jailed ensures Earned(s, s.verdicts, req.id, req.source) {
      MemoryIsSound(t, s, req);
      ContainedIsEarned(s, s.verdicts, req.id, req.source);
    }
    if LegalRun(t, now, steps) {
      AnswersStand(t, now, steps);
    }
  }

  lemma AnswersStand(t: Tiers, now: int, steps: seq<Step>)
    requires LegalRun(t, now, steps)
    ensures VerdictsAnswered(Run(t, now, steps).verdicts, Run(t, now, steps).log.replies)
  {
    hide CanRun, Run, VerdictsAnswered;
    RunInv(t, now, steps);
  }

  // ---- each case is enforced at most once, and only when allowed -----------------------------

  /** A WARNED case, or one whose latest reply was an approval; judged on a signal under a minute old. */
  ghost predicate Justified(s: State, e: Enforcement) {
    && (e.verdict == Warned || LatestReply(s.log.replies, e.id, true))
    && SeenFresh(s.log, e.id, e.source)
    && Logged(s.verdicts, e)
  }

  lemma {:induction false} EnforcedOnceAndJustified(t: Tiers, now: int, steps: seq<Step>)
    requires LegalRun(t, now, steps)
    ensures var s := Run(t, now, steps);
      && (forall j, k :: 0 <= j < k < |s.log.enforced| ==> s.log.enforced[j].id != s.log.enforced[k].id)
      && (forall k :: 0 <= k < |s.log.enforced| ==> Justified(s, s.log.enforced[k]))
  {
    hide Run, CanRun, AllPlaced, LoggedPlaced, Holders, AllSound, SeenFresh;
    RunInv(t, now, steps);
    var s := Run(t, now, steps);
    forall k | 0 <= k < |s.log.enforced| ensures Justified(s, s.log.enforced[k]) {
      var e := s.log.enforced[k];
      assert EnforcedSound(t, s, e);
      var j :| 0 <= j < |s.verdicts| && Allows(s.verdicts[j], e);
    }
  }

  lemma {:induction false} RunBacked(t: Tiers, now: int, steps: seq<Step>)
    requires CanRun(t, now, steps)
    ensures Backed(t, Run(t, now, steps))
    decreases |steps|
  {
    hide AllSound, Next, Enabled;
    if steps != [] {
      var front := steps[..|steps| - 1];
      RunBacked(t, now, front);
      RunSound(t, now, front);
      hide Backed;
      BackedKept(t, Run(t, now, front), steps[|steps| - 1]);
    }
  }

  /** An approval of the user unless it is WARNED, a log entry, and a signal under a minute old when the case was judged. */
  ghost predicate Approved(s: State, e: Enforcement) {
    (e.verdict == Warned || e.id in s.log.approved) && Logged(s.verdicts, e) && SeenFresh(s.log, e.id, e.source)
  }

  /** Even a case that is enforced twice was approved, logged and fresh. */
  lemma {:induction false} NothingEnforcedUnapproved(t: Tiers, now: int, steps: seq<Step>)
    requires CanRun(t, now, steps)
    ensures var s := Run(t, now, steps); forall k :: 0 <= k < |s.log.enforced| ==> Approved(s, s.log.enforced[k])
  {
    hide Run, CanRun, SeenFresh;
    RunBacked(t, now, steps);
    RunApproved(t, now, steps);
    var s := Run(t, now, steps);
    forall k | 0 <= k < |s.log.enforced| ensures Approved(s, s.log.enforced[k]) {
      var e := s.log.enforced[k];
      assert EnforcedSound(t, s, e);
      var j :| 0 <= j < |s.verdicts| && Allows(s.verdicts[j], e);
    }
  }

  // ---- the freshness floor -------------------------------------------------------------------

  lemma WindowKept(t: Tiers, s: State, st: Step)
    requires WindowSound(s.now, s.signals, s.log) && Enabled(s, st)
    ensures var next := Next(t, s, st); WindowSound(next.now, next.signals, next.log)
  {
    hide Oldest, Kept, Replied, Released, SlotOf, Enqueued, Pruned, Assembled, Judged, Decided, WindowSound;
    match st
    case Observe(source, name, at) => ObservedWindow(s, Signal(source, name, at));
    case PruneWindow(cutoff) => PrunedWindow(s, cutoff);
    case Tick(dt) => LaterWindow(s, s.now + dt);
    case Assemble(c) => AssembleKeepsWindow(s, c);
    case Judge(locked) => JudgeKeepsWindow(t, s, locked);
    case Decide => DecideKeepsWindow(t, s);
    case _ => SameWindow(s, Next(t, s, st));
  }

  lemma ObservedWindow(s: State, x: Signal)
    requires WindowSound(s.now, s.signals, s.log) && x.epoch <= s.now
    ensures WindowSound(s.now, Observed(s, x).signals, Observed(s, x).log)
  {
  }

  lemma PrunedWindow(s: State, cutoff: int)
    requires WindowSound(s.now, s.signals, s.log) && cutoff <= s.now - SIGNAL_WINDOW_SEC
    ensures WindowSound(s.now, Pruned(s.signals, cutoff), s.log)
  {
    hide Pruned;
    PrunedHolds(s.signals, cutoff);
  }

  lemma LaterWindow(s: State, now: int)
    requires WindowSound(s.now, s.signals, s.log) && s.now <= now
    ensures WindowSound(now, s.signals, s.log)
  {
  }

  lemma AssembleKeepsWindow(s: State, c: Case)
    requires WindowSound(s.now, s.signals, s.log)
    ensures var next := Assembled(s, c); WindowSound(next.now, next.signals, next.log)
  {
    SameWindow(s, Assembled(s, c));
  }

  lemma JudgeKeepsWindow(t: Tiers, s: State, locked: bool)
    requires WindowSound(s.now, s.signals, s.log) && s.vthread.VTaken?
    ensures var next := Judged(t, s, s.vthread.c, locked); WindowSound(next.now, next.signals, next.log)
  {
    hide Active, WindowSound;
    SameWindow(s, Judged(t, s, s.vthread.c, locked));
  }

  lemma DecideKeepsWindow(t: Tiers, s: State)
    requires WindowSound(s.now, s.signals, s.log) && s.vthread.VFresh?
    ensures var next := Decided(t, s, s.vthread.c); WindowSound(next.now, next.signals, next.log)
  {
    hide Final, WindowSound;
    SameWindow(s, Decided(t, s, s.vthread.c));
  }

  lemma {:induction false} RunWindow(t: Tiers, now: int, steps: seq<Step>)
    requires CanRun(t, now, steps)
    ensures var s := Run(t, now, steps); WindowSound(s.now, s.signals, s.log)
    decreases |steps|
  {
    hide WindowSound, Next, Start, Enabled;
    if steps == [] {
      StartWindow(now);
    } else {
      RunWindow(t, now, steps[..|steps| - 1]);
      WindowKept(t, Run(t, now, steps[..|steps| - 1]), steps[|steps| - 1]);
    }
  }

  lemma StartWindow(now: int)
    ensures var s := Start(now); WindowSound(s.now, s.signals, s.log)
  {
  }

  /**
    In every run, however scorers note late and prune late, the freshness floor is answered from the
    pruned table as from a log of every signal ever noted.
   */
  lemma {:induction false} FreshnessFloorExact(t: Tiers, now: int, steps: seq<Step>, source: string)
    requires CanRun(t, now, steps)
    ensures var s := Run(t, now, steps);
      Active(s.signals, source, s.now - FRESH_SIGNAL_SEC) <==> Active(s.log.observed, source, s.now - FRESH_SIGNAL_SEC)
  {
    hide Run, Active, WindowSound;
    RunWindow(t, now, steps);
    FreshInHistory(Run(t, now, steps), source);
  }

  // ---- tier immunity -------------------------------------------------------------------------

  /** What may never be asked for or done to a protected source. */
  predicate Spared(t: Tiers, source: string, verdict: Label) {
    && (t.own(source) ==> !Containment(verdict))
    && (t.sovereign(source) ==> verdict != HouseArrest && verdict != Jailed)
  }

  /** In every run, whatever its schedule. */
  lemma {:induction false} TiersAreImmune(t: Tiers, now: int, steps: seq<Step>)
    requires CanRun(t, now, steps)
    ensures var s := Run(t, now, steps);
      && (forall k :: 0 <= k < |s.log.enforced| ==>
            !t.own(s.log.enforced[k].source) && Spared(t, s.log.enforced[k].source, s.log.enforced[k].verdict))
      && (forall k :: 0 <= k < |s.verdicts| ==> Spared(t, s.verdicts[k].source, s.verdicts[k].verdict))
      && (forall id :: id in s.rows ==> !t.own(s.rows[id].source) && Spared(t, s.rows[id].source, s.rows[id].verdict))
      && (forall i :: 0 <= i < |s.pending| && s.pending[i].active ==>
            !t.own(s.pending[i].req.source) && Spared(t, s.pending[i].req.source, s.pending[i].req.verdict))
  {
    hide Run, CanRun, SeenFresh, Contained, Logged;
    RunSound(t, now, steps);
    RunBacked(t, now, steps);
    var s := Run(t, now, steps);
    forall k | 0 <= k < |s.verdicts| ensures Spared(t, s.verdicts[k].source, s.verdicts[k].verdict) {
      assert VerdictSound(t, s.now, s.verdicts, s.log, k);
    }
    forall k | 0 <= k < |s.log.enforced|
      ensures !t.own(s.log.enforced[k].source) && Spared(t, s.log.enforced[k].source, s.log.enforced[k].verdict)
    {
      assert EnforcedSound(t, s, s.log.enforced[k]);
    }
    forall id | id in s.rows ensures !t.own(s.rows[id].source) && Spared(t, s.rows[id].source, s.rows[id].verdict) {
      assert Sound(t, s.verdicts, s.log, s.rows[id]);
    }
  }

  // ---- no request is lost --------------------------------------------------------------------

  /** A case that was ever put to the user is still stored, or was answered; the table holds stored requests only. */
  lemma {:induction false} NoRequestLost(t: Tiers, now: int, steps: seq<Step>)
    requires LegalRun(t, now, steps)
    ensures var s := Run(t, now, steps);
      && (forall id :: id in s.log.asked ==> id in s.rows || id in s.log.replies)
      && (forall i :: 0 <= i < |s.pending| && s.pending[i].active ==> s.pending[i].req.id in s.rows)
      && OneSlotEach(s.pending)
  {
    hide Run, CanRun, AllPlaced, LoggedPlaced, AllSound, EnforcementOK;
    RunInv(t, now, steps);
  }

  /** A row goes only when its slot was answered and released, and only in the removing step of resolve_entry. */
  lemma {:induction false} OnlyAnAnswerEndsARequest(t: Tiers, s: State, st: Step, id: CaseId)
    requires Inv(t, s) && Legal(s, st) && id in s.rows && id !in Next(t, s, st).rows
    ensures st == RemoveRow && s.cthread.CReleased? && s.cthread.req.id == id
    ensures LatestReply(s.log.replies, id, s.cthread.approved)
  {
    hide AllPlaced, LoggedPlaced, Holders, AllSound, EnforcementOK;
    hide Oldest, Clash, Kept, Released, Replied, SlotOf, Enqueued, Pruned, Final, Active;
  }

  /** A slot is cleared only after a reply (or by a crash, which leaves the row). */
  lemma {:induction false} OnlyAReplyClearsASlot(t: Tiers, s: State, st: Step, next: State, i: nat)
    requires Inv(t, s) && Legal(s, st) && next == Next(t, s, st)
    requires i < |s.pending| == |next.pending| && s.pending[i].active && !next.pending[i].active
    ensures st == Crash || (st == Poll(i) && s.pending[i].reply != 0)
    ensures s.pending[i].req.id in next.rows
  {
    assert Holders(s) && Enabled(s, st);
    hide Inv, Legal, Enabled, Next;
    if st.Poll? {
      ClearedByPoll(t, s, st.i, next, i);
    } else if st.Crash? {
      CrashKeepsRows(t, s, next);
    } else {
      ActiveStays(t, s, st, next, i);
    }
  }

  lemma ClearedByPoll(t: Tiers, s: State, k: nat, next: State, i: nat)
    requires Holders(s) && Enabled(s, Poll(k)) && next == Next(t, s, Poll(k))
    requires i < |s.pending| && s.pending[i].active && !next.pending[i].active
    ensures k == i && s.pending[i].reply != 0 && s.pending[i].req.id in next.rows
  {
    hide Kept;
    PollOnlyReminds(s.pending[k], s.now);
  }

  lemma CrashKeepsRows(t: Tiers, s: State, next: State)
    requires next == Next(t, s, Crash)
    ensures next.rows == s.rows
  {
  }

  /** No other step clears a slot. */
  lemma ActiveStays(t: Tiers, s: State, st: Step, next: State, i: nat)
    requires Enabled(s, st) && !st.Crash? && !st.Poll? && next == Next(t, s, st)
    requires i < |s.pending| == |next.pending| && s.pending[i].active
    ensures next.pending[i].active
  {
    hide Oldest, Kept, Pruned, Judged, Decided, Assembled;
    match st
    case Judge(locked) => JudgeKeepsTables(t, s, locked);
    case Decide => DecideKeepsTables(t, s);
    case Assemble(c) => AssembleKeepsTables(s, c);
    case _ =>
  }

  lemma JudgeKeepsTables(t: Tiers, s: State, locked: bool)
    requires s.vthread.VTaken?
    ensures var next := Judged(t, s, s.vthread.c, locked); next.pending == s.pending && next.rows == s.rows
  {
  }

  lemma DecideKeepsTables(t: Tiers, s: State)
    requires s.vthread.VFresh?
    ensures var next := Decided(t, s, s.vthread.c); next.pending == s.pending && next.rows == s.rows
  {
  }

  lemma AssembleKeepsTables(s: State, c: Case)
    ensures var next := Assembled(s, c);
      && next.pending == s.pending && next.rows == s.rows && next.vthread == s.vthread && next.cthread == s.cthread
  {
  }
}
