/** Whose approval stands behind what is approved: an answer of the user that reached the case, in every run. */
module CourtApprovals {
  import opened Labels
  import opened SignalLog
  import opened Pending
  import opened Court

  ghost predicate SlotsApproved(pending: seq<Slot>, approved: set<CaseId>) {
    forall i :: 0 <= i < |pending| && pending[i].active && pending[i].reply == 1 ==> pending[i].req.id in approved
  }

  predicate ConsentApproved(c: ConsentThread, approved: set<CaseId>) {
    match c
    case CReleased(req, yes) => yes ==> req.id in approved
    case CRemoved(req, yes) => yes ==> req.id in approved
    case CLogged(req) => req.id in approved
    case _ => true
  }

  ghost predicate VerdictsApproved(verdicts: seq<VerdictRow>, approved: set<CaseId>) {
    forall k :: 0 <= k < |verdicts| && verdicts[k].required && verdicts[k].granted ==> verdicts[k].id in approved
  }

  /** Whatever counts as approved was approved by the user. */
  ghost predicate AllApproved(s: State) {
    && SlotsApproved(s.pending, s.log.approved)
    && ConsentApproved(s.cthread, s.log.approved)
    && VerdictsApproved(s.verdicts, s.log.approved)
  }

  lemma EnqueuedApproved(pending: seq<Slot>, approved: set<CaseId>, req: Request)
    requires SlotsApproved(pending, approved)
    ensures SlotsApproved(Enqueued(pending, req), approved)
  {
  }

  lemma AnsweredApproved(s: State, id: CaseId, yes: bool)
    requires AllApproved(s)
    ensures AllApproved(Answered(s, id, yes))
  {
    var k, r := SlotOf(s.pending, id), Answered(s, id, yes).pending;
    if k < |s.pending| {
      assert forall i :: 0 <= i < |r| && i != k ==> r[i] == s.pending[i];
    }
  }

  lemma PolledApproved(s: State, i: nat)
    requires AllApproved(s) && i < |s.pending| && s.pending[i].active
    ensures AllApproved(Polled(s, i))
  {
    hide Kept;
    PollOnlyReminds(s.pending[i], s.now);
  }

  lemma VerdictApproved(s: State, v: VerdictRow)
    requires VerdictsApproved(s.verdicts, s.log.approved) && (v.required && v.granted ==> v.id in s.log.approved)
    ensures VerdictsApproved(s.verdicts + [v], s.log.approved)
  {
  }

  lemma JudgedApproved(t: Tiers, s: State, locked: bool)
    requires AllApproved(s) && s.vthread.VTaken?
    ensures AllApproved(Judged(t, s, s.vthread.c, locked))
  {
    hide SlotsApproved, Active;
  }

  lemma DecidedApproved(t: Tiers, s: State)
    requires AllApproved(s) && s.vthread.VFresh?
    ensures AllApproved(Decided(t, s, s.vthread.c))
  {
    hide SlotsApproved, Final;
  }

  lemma AnswerLoggedApproved(s: State)
    requires AllApproved(s) && s.cthread.CRemoved?
    ensures AllApproved(AnswerLogged(s, s.cthread.req, s.cthread.approved))
  {
    hide SlotsApproved;
  }

  lemma AssembledApproved(s: State, c: Case)
    requires AllApproved(s)
    ensures AllApproved(Assembled(s, c))
  {
    hide SlotsApproved, VerdictsApproved;
  }

  lemma {:induction false} ApprovalsKept(t: Tiers, s: State, st: Step)
    requires AllApproved(s) && Enabled(s, st)
    ensures AllApproved(Next(t, s, st))
  {
    hide VerdictsApproved, Oldest, Pruned, Kept, Released, Replied, SlotOf, Enqueued;
    hide Judged, Decided, Assembled, Answered, Polled, AnswerLogged;
    match st
    case Assemble(c) => AssembledApproved(s, c);
    case Judge(locked) => JudgedApproved(t, s, locked);
    case Decide => DecidedApproved(t, s);
    case EnqueueRow => EnqueuedApproved(s.pending, s.log.approved, s.vthread.req);
    case ReloadOne => EnqueuedApproved(s.pending, s.log.approved, s.cthread.todo[0]);
    case Reply(id, yes) => AnsweredApproved(s, id, yes);
    case Poll(i) => PolledApproved(s, i);
    case LogAnswer => AnswerLoggedApproved(s);
    case _ =>
  }

  lemma StartApproved(now: int)
    ensures AllApproved(Start(now))
  {
  }

  /** In every run, whatever its schedule. */
  lemma {:induction false} RunApproved(t: Tiers, now: int, steps: seq<Step>)
    requires CanRun(t, now, steps)
    ensures AllApproved(Run(t, now, steps))
    decreases |steps|
  {
    hide AllApproved, Enabled, Next;
    if steps == [] {
      StartApproved(now);
    } else {
      RunApproved(t, now, steps[..|steps| - 1]);
      ApprovalsKept(t, Run(t, now, steps[..|steps| - 1]), steps[|steps| - 1]);
    }
  }
}
