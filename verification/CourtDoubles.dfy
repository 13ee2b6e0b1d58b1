/**
  Exactly when the start-up read is safe: if a row read back gets a second slot, some continuation
  enforces its case twice; if none does, no continuation on legal schedules enforces any case twice.
 */
module CourtDoubles {
  import opened Labels
  import opened SignalLog
  import opened Pending
  import opened Court
  import opened CourtTheorems
  import opened CourtSchedules
  import opened CourtReload

  predicate ActiveFor(pending: seq<Slot>, i: nat, id: CaseId) {
    i < |pending| && pending[i].active && pending[i].req.id == id
  }

  ghost predicate EnforcedTwiceFor(done: seq<Enforcement>, id: CaseId) {
    exists i, j :: 0 <= i < j < |done| && done[i].id == id && done[j].id == id
  }

  ghost predicate OncePerCase(done: seq<Enforcement>) {
    forall i, j :: 0 <= i < j < |done| ==> done[i].id != done[j].id
  }

  // ---- the second slot -----------------------------------------------------------------------

  lemma {:induction false} ReloadKeeps(pending: seq<Slot>, list: seq<Request>, n: nat)
    requires n <= |list|
    ensures forall i :: 0 <= i < |pending| && pending[i].active ==> Reloaded(pending, list, n)[i] == pending[i]
    ensures FreeCount(Reloaded(pending, list, n)) == if n < FreeCount(pending) then FreeCount(pending) - n else 0
  {
    hide FreeCount;
    if n > 0 {
      ReloadKeeps(pending, list, n - 1);
      EnqueueTakesOne(Reloaded(pending, list, n - 1), list[n - 1]);
    }
  }

  /** A row whose turn comes while there is room gets a slot that was free before. */
  lemma {:induction false} ReloadEnters(pending: seq<Slot>, list: seq<Request>, n: nat, k: nat) returns (i: nat)
    requires k < n <= |list| && k < FreeCount(pending)
    ensures i < |pending| && !pending[i].active && Reloaded(pending, list, n)[i] == Slot(true, list[k], 0, 0)
  {
    var front := Reloaded(pending, list, n - 1);
    ReloadKeeps(pending, list, n - 1);
    if k == n - 1 {
      NoneFree(front);
      i := FreeSlot(front);
    } else {
      i := ReloadEnters(pending, list, n - 1, k);
    }
  }

  /** The whole list read back, without any other thread's step in between. */
  function Reading(list: seq<Request>, n: nat): seq<Step> {
    if n == 0 then [ReadRows(list)] else Reading(list, n - 1) + [ReloadOne]
  }

  lemma {:induction false} ReadBack(t: Tiers, now: int, before: seq<Step>, list: seq<Request>, n: nat) returns (steps: seq<Step>)
    requires CanRun(t, now, before) && Enabled(Run(t, now, before), ReadRows(list)) && n <= |list|
    ensures CanRun(t, now, steps) && steps == before + Reading(list, n)
    ensures var s := Run(t, now, before);
      Run(t, now, steps)
      == s.(pending := Reloaded(s.pending, list, n), cthread := if n == |list| then CPoll else CReload(list[n..]))
  {
    hide CanRun, Run, Oldest, Enqueued;
    if n == 0 {
      assert list[0..] == list;
      steps := Extend(t, now, before, ReadRows(list));
    } else {
      steps := ReadBack(t, now, before, list, n - 1);
      assert list[n - 1..][1..] == list[n..];
      steps := Extend(t, now, steps, ReloadOne);
    }
  }

  // ---- two answers ---------------------------------------------------------------------------

  /** Steps that read no rows. */
  predicate NoReading(steps: seq<Step>) {
    forall k :: 0 <= k < |steps| ==> !steps[k].ReadRows?
  }

  /** The first slot found for a case that has one. */
  lemma Found(pending: seq<Slot>, p: nat, id: CaseId)
    requires ActiveFor(pending, p, id)
    ensures SlotOf(pending, id) <= p && ActiveFor(pending, SlotOf(pending, id), id)
  {
  }

  lemma ApproveOne(t: Tiers, now: int, before: seq<Step>, id: CaseId, p: nat)
    returns (steps: seq<Step>, i: nat, more: seq<Step>)
    requires CanRun(t, now, before)
    requires var s := Run(t, now, before); s.cthread == CPoll && ActiveFor(s.pending, p, id)
    ensures CanRun(t, now, steps) && steps == before + more && NoReading(more)
    ensures var s, r := Run(t, now, before), Run(t, now, steps);
      && r.cthread == CPoll && r.vthread == s.vthread && i <= p && ActiveFor(s.pending, i, id)
      && |r.pending| == |s.pending| && !r.pending[i].active
      && (forall k :: 0 <= k < |s.pending| && k != i ==> r.pending[k] == s.pending[k])
      && r.log.enforced == s.log.enforced + [Deed(s.pending[i].req)]
  {
    hide CanRun, Run, SlotOf;
    var s := Run(t, now, before);
    Found(s.pending, p, id);
    i := SlotOf(s.pending, id);
    more := Approval(id, i);
    steps := Approve(t, now, before, id, i);
  }

  /** Two slots of one case, both approved. */
  lemma ApproveBoth(t: Tiers, now: int, before: seq<Step>, id: CaseId, p: nat, q: nat)
    returns (steps: seq<Step>, more: seq<Step>)
    requires CanRun(t, now, before)
    requires var s := Run(t, now, before); s.cthread == CPoll && p != q && ActiveFor(s.pending, p, id) && ActiveFor(s.pending, q, id)
    ensures CanRun(t, now, steps) && steps == before + more && NoReading(more)
    ensures EnforcedTwiceFor(Run(t, now, steps).log.enforced, id)
  {
    hide CanRun, Run, EnforcedTwiceFor;
    var first, i, one := ApproveOne(t, now, before, id, p);
    var rest := if i == p then q else p;
    var second, j, two := ApproveOne(t, now, first, id, rest);
    steps, more := second, one + two;
    assert before + one + two == before + (one + two);
    TwoDeeds(Run(t, now, before).log.enforced, Run(t, now, before).pending[i].req, Run(t, now, first).pending[j].req, id);
  }

  lemma TwoDeeds(done: seq<Enforcement>, a: Request, b: Request, id: CaseId)
    requires a.id == id && b.id == id
    ensures EnforcedTwiceFor(done + [Deed(a)] + [Deed(b)], id)
  {
    var all := done + [Deed(a)] + [Deed(b)];
    assert all[|done|].id == id && all[|done| + 1].id == id;
  }

  /** One slot of the case approved, and then the stored request put into the table after all. */
  lemma ApproveThenEnter(t: Tiers, now: int, before: seq<Step>, id: CaseId, p: nat)
    returns (steps: seq<Step>, more: seq<Step>)
    requires CanRun(t, now, before)
    requires var s := Run(t, now, before);
      s.cthread == CPoll && ActiveFor(s.pending, p, id) && s.vthread.VQueue? && s.vthread.req.id == id
    ensures CanRun(t, now, steps) && steps == before + more && NoReading(more)
    ensures EnforcedTwiceFor(Run(t, now, steps).log.enforced, id)
  {
    hide CanRun, Run, EnforcedTwiceFor, SlotOf;
    var first, i, one := ApproveOne(t, now, before, id, p);
    var r := Run(t, now, first);
    var entered := Extend(t, now, first, EnqueueRow);
    EntersSomewhere(r.pending, r.vthread.req, i);
    var second, j, two := ApproveOne(t, now, entered, id, FreeSlot(r.pending));
    steps, more := second, one + [EnqueueRow] + two;
    assert before + one + [EnqueueRow] + two == before + (one + [EnqueueRow] + two);
    TwoDeeds(Run(t, now, before).log.enforced, Run(t, now, before).pending[i].req, Run(t, now, entered).pending[j].req, id);
  }

  lemma EntersSomewhere(pending: seq<Slot>, req: Request, i: nat)
    requires i < |pending| && !pending[i].active
    ensures ActiveFor(Enqueued(pending, req), FreeSlot(pending), req.id)
  {
  }

  // ---- both directions -----------------------------------------------------------------------

  /** From any state where a row that is read back gets a second slot, some continuation enforces its case twice. */
  lemma {:induction false} ClashEnforcesTwice(t: Tiers, now: int, before: seq<Step>, list: seq<Request>)
    returns (more: seq<Step>, id: CaseId)
    requires CanRun(t, now, before) && Enabled(Run(t, now, before), ReadRows(list)) && Clash(Run(t, now, before), list)
    ensures NoReading(more) && CanRun(t, now, before + [ReadRows(list)] + more)
    ensures EnforcedTwiceFor(Run(t, now, before + [ReadRows(list)] + more).log.enforced, id)
  {
    hide CanRun, Run, EnforcedTwiceFor, Enabled, Reloaded, FreeCount;
    var s := Run(t, now, before);
    var k: nat :| k < |list| && k < FreeCount(s.pending) && Doubled(s, list[k]);
    id := list[k].id;
    var read := ReadBack(t, now, before, list, |list|);
    var r := Run(t, now, read);
    var q := ReloadEnters(s.pending, list, |list|, k);
    ReloadKeeps(s.pending, list, |list|);
    var steps, tail;
    if Holds(s.pending, id) {
      var p: nat :| p < |s.pending| && s.pending[p].active && s.pending[p].req.id == id;
      steps, tail := ApproveBoth(t, now, read, id, p, q);
    } else {
      steps, tail := ApproveThenEnter(t, now, read, id, q);
    }
    ReadingSplits(list, |list|);
    more := Reading(list, |list|)[1..] + tail;
    assert before + [ReadRows(list)] + more == before + Reading(list, |list|) + tail;
  }

  lemma {:induction false} ReadingSplits(list: seq<Request>, n: nat)
    ensures Reading(list, n) == [ReadRows(list)] + Reading(list, n)[1..] && NoReading(Reading(list, n)[1..])
  {
    if n > 0 {
      ReadingSplits(list, n - 1);
      assert Reading(list, n)[1..] == Reading(list, n - 1)[1..] + [ReloadOne];
    }
  }

  /** A continuation of a run, all of whose steps are legal. */
  ghost predicate LegalAfter(t: Tiers, now: int, base: seq<Step>, more: seq<Step>)
    decreases |more|
  {
    && CanRun(t, now, base + more)
    && (more == [] || (LegalAfter(t, now, base, more[..|more| - 1])
                       && CanRun(t, now, base + more[..|more| - 1])
                       && Legal(Run(t, now, base + more[..|more| - 1]), more[|more| - 1])))
  }

  lemma {:induction false} ContinuedLegally(t: Tiers, now: int, base: seq<Step>, more: seq<Step>)
    requires LegalRun(t, now, base) && LegalAfter(t, now, base, more)
    ensures LegalRun(t, now, base + more)
    decreases |more|
  {
    hide Legal, CanRun, Run;
    if more == [] {
      assert base + more == base;
    } else {
      ContinuedLegally(t, now, base, more[..|more| - 1]);
      assert (base + more)[..|base + more| - 1] == base + more[..|more| - 1];
      LegalOneMore(t, now, base + more);
    }
  }

  lemma LegalOneMore(t: Tiers, now: int, steps: seq<Step>)
    requires steps != [] && CanRun(t, now, steps) && LegalRun(t, now, steps[..|steps| - 1])
    requires Legal(Run(t, now, steps[..|steps| - 1]), steps[|steps| - 1])
    ensures LegalRun(t, now, steps)
  {
    hide Legal, Run;
  }

  /** Without reading rows every possible continuation is legal. */
  lemma {:induction false} NoReadingIsLegal(t: Tiers, now: int, base: seq<Step>, more: seq<Step>)
    requires CanRun(t, now, base + more) && NoReading(more)
    ensures LegalAfter(t, now, base, more)
    decreases |more|
  {
    if more != [] {
      assert (base + more)[..|base + more| - 1] == base + more[..|more| - 1];
      NoReadingIsLegal(t, now, base, more[..|more| - 1]);
    }
  }

  /**
    After any legal run, the start-up read is safe, that is, every legal continuation enforces each case
    at most once, exactly when no row it reads gets a second slot.
   */
  lemma {:induction false} ReadIsSafeExactly(t: Tiers, now: int, before: seq<Step>, list: seq<Request>)
    requires LegalRun(t, now, before) && Enabled(Run(t, now, before), ReadRows(list))
    ensures (forall more :: LegalAfter(t, now, before + [ReadRows(list)], more) ==>
               OncePerCase(Run(t, now, before + [ReadRows(list)] + more).log.enforced))
       <==> !Clash(Run(t, now, before), list)
  {
    var base := before + [ReadRows(list)];
    if Clash(Run(t, now, before), list) {
      var more, id := ClashEnforcesTwice(t, now, before, list);
      NoReadingIsLegal(t, now, base, more);
      hide LegalAfter, Run, CanRun, LegalRun;
      assert LegalAfter(t, now, base, more);
    } else {
      ReadLegally(t, now, before, list);
      hide Run, CanRun, LegalRun, Clash, LegalAfter;
      forall more | LegalAfter(t, now, base, more) ensures OncePerCase(Run(t, now, base + more).log.enforced) {
        ContinuedLegally(t, now, base, more);
        EnforcedOnceAndJustified(t, now, base + more);
      }
    }
  }

  lemma ReadLegally(t: Tiers, now: int, before: seq<Step>, list: seq<Request>)
    requires LegalRun(t, now, before) && Enabled(Run(t, now, before), ReadRows(list)) && !Clash(Run(t, now, before), list)
    ensures LegalRun(t, now, before + [ReadRows(list)])
  {
    hide Clash, Oldest;
    assert (before + [ReadRows(list)])[..|before|] == before;
  }
}
