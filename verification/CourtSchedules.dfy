/**
  The order of start-up: reading the stored requests back before this boot stores one makes every run
  legal, and the daemon does not enforce that order, so a case can be enforced twice.
 */
module CourtSchedules {
  import opened Labels
  import opened SignalLog
  import opened Pending
  import opened Court
  import opened CourtHolders
  import opened CourtTheorems

  /** No request is stored before the consent thread has read the stored ones back. */
  predicate Prompt(s: State, st: Step) {
    st.InsertRow? ==> !s.cthread.CBoot?
  }

  ghost predicate PromptRun(t: Tiers, now: int, steps: seq<Step>) {
    && CanRun(t, now, steps)
    && (steps == [] || (PromptRun(t, now, steps[..|steps| - 1])
                        && Prompt(Run(t, now, steps[..|steps| - 1]), steps[|steps| - 1])))
  }

  /** Until the rows are read back, memory is as empty as the start or the crash left it. */
  ghost predicate BootEmpty(s: State) {
    s.cthread.CBoot? ==> s.pending == EmptyTable() && !s.vthread.VQueue?
  }

  lemma BootEmptyKept(t: Tiers, s: State, st: Step)
    requires BootEmpty(s) && Enabled(s, st) && Prompt(s, st)
    ensures BootEmpty(Next(t, s, st))
  {
    hide Oldest, Kept, Replied, Released, Enqueued, Pruned, Assembled, Judged, Decided;
    match st
    case Reply(id, approved) => NothingToReplyTo(id);
    case Assemble(c) => AssembleKeepsTables(s, c);
    case Judge(locked) => JudgeKeepsBoot(t, s, locked);
    case Decide => DecideKeepsBoot(t, s);
    case _ =>
  }

  lemma NothingToReplyTo(id: CaseId)
    ensures SlotOf(EmptyTable(), id) == |EmptyTable()|
  {
    SlotOfIs(EmptyTable(), id, MAX_PENDING);
  }

  lemma JudgeKeepsBoot(t: Tiers, s: State, locked: bool)
    requires s.vthread.VTaken?
    ensures var next := Judged(t, s, s.vthread.c, locked);
            next.pending == s.pending && next.cthread == s.cthread && !next.vthread.VQueue?
  {
    hide Active;
  }

  lemma DecideKeepsBoot(t: Tiers, s: State)
    requires s.vthread.VFresh?
    ensures var next := Decided(t, s, s.vthread.c);
            next.pending == s.pending && next.cthread == s.cthread && !next.vthread.VQueue?
  {
    hide Final;
  }

  lemma EmptyNeverClashes(s: State, st: Step)
    requires BootEmpty(s) && Enabled(s, st)
    ensures Legal(s, st)
  {
    hide Oldest;
  }

  /** Storing nothing before the read-back is enough for every claim about legal runs. */
  lemma {:induction false} PromptRunsAreLegal(t: Tiers, now: int, steps: seq<Step>)
    requires PromptRun(t, now, steps)
    ensures LegalRun(t, now, steps) && BootEmpty(Run(t, now, steps))
    decreases |steps|
  {
    hide BootEmpty, Prompt, Legal, Next, Start, Enabled;
    if steps == [] {
      StartIsEmpty(now);
    } else {
      var front, st := steps[..|steps| - 1], steps[|steps| - 1];
      var s := Run(t, now, front);
      PromptRunsAreLegal(t, now, front);
      assert Enabled(s, st);
      BootEmptyKept(t, s, st);
      EmptyNeverClashes(s, st);
    }
  }

  lemma StartIsEmpty(now: int)
    ensures BootEmpty(Start(now))
  {
  }

  // ---- approving a waiting request -----------------------------------------------------------

  lemma Extend(t: Tiers, now: int, steps: seq<Step>, st: Step) returns (more: seq<Step>)
    requires CanRun(t, now, steps) && Enabled(Run(t, now, steps), st)
    ensures more == steps + [st] && CanRun(t, now, more) && Run(t, now, more) == Next(t, Run(t, now, steps), st)
  {
    more := steps + [st];
    assert more[..|more| - 1] == steps;
  }

  function Approval(id: CaseId, i: nat): seq<Step> {
    [Step.Reply(id, true), Poll(i), RemoveRow, LogAnswer, EnforceAnswer]
  }

  function Deed(req: Request): Enforcement {
    Enforcement(req.id, req.source, req.verdict)
  }

  lemma SlotReleased(t: Tiers, s: State, id: CaseId, i: nat)
    requires s.cthread == CPoll && SlotOf(s.pending, id) == i < |s.pending|
    ensures Enabled(s, Step.Reply(id, true))
    ensures var replied, p := Next(t, s, Step.Reply(id, true)), s.pending[i];
      && Enabled(replied, Poll(i))
      && var r := Next(t, replied, Poll(i));
         && r.cthread == CReleased(p.req, true) && r.log.enforced == s.log.enforced && r.vthread == s.vthread
         && r.pending == s.pending[i := Slot(false, p.req, 1, p.lastNotified)]
  {
    hide Kept;
  }

  lemma AnswerCarriedOut(t: Tiers, s: State)
    requires s.cthread.CReleased? && s.cthread.approved
    ensures Enabled(s, RemoveRow)
    ensures var removed := Next(t, s, RemoveRow);
      && Enabled(removed, LogAnswer)
      && var logged := Next(t, removed, LogAnswer);
         && Enabled(logged, EnforceAnswer)
         && var r := Next(t, logged, EnforceAnswer);
            && r.cthread == CPoll && r.pending == s.pending && r.vthread == s.vthread
            && r.log.enforced == s.log.enforced + [Deed(s.cthread.req)]
  {
  }

  lemma ReplyAndRelease(t: Tiers, now: int, before: seq<Step>, id: CaseId, i: nat) returns (steps: seq<Step>)
    requires CanRun(t, now, before)
    requires var s := Run(t, now, before); s.cthread == CPoll && SlotOf(s.pending, id) == i < |s.pending|
    ensures CanRun(t, now, steps) && steps == before + [Step.Reply(id, true), Poll(i)]
    ensures var s, r := Run(t, now, before), Run(t, now, steps);
      && r.cthread == CReleased(s.pending[i].req, true) && r.log.enforced == s.log.enforced && r.vthread == s.vthread
      && r.pending == s.pending[i := Slot(false, s.pending[i].req, 1, s.pending[i].lastNotified)]
  {
    SlotReleased(t, Run(t, now, before), id, i);
    hide CanRun, Run, Next, SlotOf, Enabled;
    steps := Extend(t, now, before, Step.Reply(id, true));
    steps := Extend(t, now, steps, Poll(i));
  }

  lemma CarryOut(t: Tiers, now: int, before: seq<Step>) returns (steps: seq<Step>)
    requires CanRun(t, now, before)
    requires var s := Run(t, now, before); s.cthread.CReleased? && s.cthread.approved
    ensures CanRun(t, now, steps) && steps == before + [RemoveRow, LogAnswer, EnforceAnswer]
    ensures var s, r := Run(t, now, before), Run(t, now, steps);
      && r.cthread == CPoll && r.pending == s.pending && r.vthread == s.vthread
      && r.log.enforced == s.log.enforced + [Deed(s.cthread.req)]
  {
    AnswerCarriedOut(t, Run(t, now, before));
    hide CanRun, Run, Next, Enabled, Deed;
    steps := Extend(t, now, before, RemoveRow);
    steps := Extend(t, now, steps, LogAnswer);
    steps := Extend(t, now, steps, EnforceAnswer);
  }

  /** One round of approval, release, removal, logging and enforcement for the first slot of a case. */
  lemma Approve(t: Tiers, now: int, before: seq<Step>, id: CaseId, i: nat) returns (steps: seq<Step>)
    requires CanRun(t, now, before)
    requires var s := Run(t, now, before); s.cthread == CPoll && SlotOf(s.pending, id) == i < |s.pending|
    ensures CanRun(t, now, steps) && steps == before + Approval(id, i)
    ensures var s, r := Run(t, now, before), Run(t, now, steps);
      && r.cthread == CPoll && r.vthread == s.vthread
      && r.pending == s.pending[i := Slot(false, s.pending[i].req, 1, s.pending[i].lastNotified)]
      && r.log.enforced == s.log.enforced + [Deed(s.pending[i].req)]
  {
    hide CanRun, Run, SlotOf, Deed;
    steps := ReplyAndRelease(t, now, before, id, i);
    steps := CarryOut(t, now, steps);
  }

  // ---- the schedule that enforces one case twice ---------------------------------------------

  const NO_TIERS := Tiers(_ => false, _ => false, _ => false)
  const APP := "com.example.app"
  const CASE := Case("case_1", APP, Quarantined, 60.0)
  const ASK := Request("case_1", APP, Quarantined, 60.0, 0, TIMEOUT_QUARANTINED)
  const DEED := Enforcement("case_1", APP, Quarantined)

  const SIGNAL := Signal(APP, "CPU_HOG", 0)
  const SEEN: State := Start(0).(signals := [SIGNAL],
    log := Start(0).log.(observed := [SIGNAL]))
  const ROUTED: State := SEEN.(ring := [CASE], log := SEEN.log.(cases := map["case_1" := CASE], place := map["case_1" := InRing]))
  const TAKEN: State := SEEN.(vthread := VTaken(CASE),
    log := SEEN.log.(cases := map["case_1" := CASE], place := map["case_1" := Judging]))
  const FRESH: State := TAKEN.(vthread := VFresh(CASE), log := TAKEN.log.(freshAt := map["case_1" := 0]))
  const DECIDED: State := FRESH.(vthread := VRow(ASK), log := FRESH.log.(decidedAt := map["case_1" := 0]))
  const STORED: State := DECIDED.(rows := map["case_1" := ASK], vthread := VQueue(ASK),
    log := DECIDED.log.(place := map["case_1" := Held], asked := {"case_1"}))
  const FIRST: seq<Slot> := EmptyTable()[0 := Slot(true, ASK, 0, 0)]
  const TWICE: seq<Slot> := FIRST[1 := Slot(true, ASK, 0, 0)]
  const ENTERED: State := STORED.(pending := FIRST, vthread := VIdle)

  lemma SignalArrives()
    ensures Next(NO_TIERS, Start(0), Observe(APP, "CPU_HOG", 0)) == SEEN
    ensures Enabled(SEEN, Assemble(CASE)) && Next(NO_TIERS, SEEN, Assemble(CASE)) == ROUTED
    ensures Enabled(ROUTED, Take) && Next(NO_TIERS, ROUTED, Take) == TAKEN
  {
  }

  lemma CaseDecided()
    ensures Enabled(TAKEN, Judge(false)) && Next(NO_TIERS, TAKEN, Judge(false)) == FRESH
    ensures Enabled(FRESH, Decide) && Next(NO_TIERS, FRESH, Decide) == DECIDED
  {
    assert TAKEN.signals[0] == SIGNAL;
  }

  lemma CaseStored()
    ensures Enabled(DECIDED, InsertRow) && Next(NO_TIERS, DECIDED, InsertRow) == STORED
    ensures Enabled(STORED, EnqueueRow) && Next(NO_TIERS, STORED, EnqueueRow) == ENTERED
  {
    FreeSlotIs(EmptyTable(), 0);
  }

  /** The row is read back although the same boot has already put it into the table: two slots, one case. */
  lemma {:induction false} RowReadAgain()
    ensures Enabled(ENTERED, ReadRows([ASK])) && Clash(ENTERED, [ASK])
    ensures var read := Next(NO_TIERS, ENTERED, ReadRows([ASK]));
            Enabled(read, ReloadOne) && Next(NO_TIERS, read, ReloadOne) == ENTERED.(pending := TWICE, cthread := CPoll)
  {
    assert |ENTERED.rows| == 1;
    FreeSlotIs(FIRST, 1);
    assert Holds(FIRST, [ASK][0].id) by { assert FIRST[0].active; }
  }

  lemma RunOfNothing(t: Tiers, now: int)
    ensures CanRun(t, now, []) && Run(t, now, []) == Start(now)
  {
  }

  lemma ReadTooLate() returns (steps: seq<Step>)
    ensures CanRun(NO_TIERS, 0, steps)
    ensures Run(NO_TIERS, 0, steps) == ENTERED.(pending := TWICE, cthread := CPoll)
  {
    hide CanRun, Run, Next;
    RunOfNothing(NO_TIERS, 0);
    SignalArrives();
    steps := Extend(NO_TIERS, 0, [], Observe(APP, "CPU_HOG", 0));
    steps := Extend(NO_TIERS, 0, steps, Assemble(CASE));
    steps := Extend(NO_TIERS, 0, steps, Take);
    CaseDecided();
    steps := Extend(NO_TIERS, 0, steps, Judge(false));
    steps := Extend(NO_TIERS, 0, steps, Decide);
    CaseStored();
    steps := Extend(NO_TIERS, 0, steps, InsertRow);
    steps := Extend(NO_TIERS, 0, steps, EnqueueRow);
    RowReadAgain();
    steps := Extend(NO_TIERS, 0, steps, ReadRows([ASK]));
    steps := Extend(NO_TIERS, 0, steps, ReloadOne);
  }

  /** Without the start-up order a case the user was asked about once can be enforced twice. */
  lemma {:induction false} EnforcedTwice() returns (steps: seq<Step>)
    ensures CanRun(NO_TIERS, 0, steps)
    ensures Run(NO_TIERS, 0, steps).log.enforced == [DEED, DEED]
  {
    hide CanRun, Run;
    steps := ReadTooLate();
    SlotOfIs(TWICE, "case_1", 0);
    steps := Approve(NO_TIERS, 0, steps, "case_1", 0);
    SlotOfIs(Run(NO_TIERS, 0, steps).pending, "case_1", 1);
    steps := Approve(NO_TIERS, 0, steps, "case_1", 1);
  }
}
