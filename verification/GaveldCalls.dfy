/** What whole calls of the daemon come to: a case taken from the ring, and a pass over the pending table. */
module GaveldCalls {
  import opened Labels
  import opened SignalLog
  import opened Pending
  import opened Court
  import opened CourtPlaces
  import opened CourtSound
  import opened CourtLabels
  import opened Gaveld

  // ---- verdict_process -----------------------------------------------------------------------

  /** Something from the source was noted in the last minute. */
  ghost predicate SeenLately(s: State, source: string) {
    exists x :: x in s.log.observed && x.source == source && x.epoch > s.now - 60
  }

  /** What the user is asked for: JAILED needs an approved containment in the last day, the user's list allows QUARANTINED only. */
  ghost function Asked(t: Tiers, s: State, c: Case): Label {
    if t.sovereign(c.source) || c.state == Quarantined then Quarantined
    else if c.state == Jailed && Contained(s.verdicts, c.source, s.now) then Jailed
    else HouseArrest
  }

  ghost predicate Unchanged(s: State, next: State) {
    next.rows == s.rows && next.pending == s.pending && next.log.enforced == s.log.enforced && next.verdicts == s.verdicts
  }

  ghost predicate LoggedOnly(s: State, next: State, v: VerdictRow) {
    && next.verdicts == s.verdicts + [v]
    && next.rows == s.rows && next.pending == s.pending && next.log.enforced == s.log.enforced
  }

  /** The request is stored, put into the table if there is room, and nothing is logged or enforced yet. */
  ghost predicate AskedOnly(s: State, next: State, req: Request) {
    && next.rows == s.rows[req.id := req] && next.pending == Enqueued(s.pending, req)
    && next.verdicts == s.verdicts && next.log.enforced == s.log.enforced
  }

  /** What has become of the case when the call returns. */
  ghost predicate Outcome(t: Tiers, s: State, c: Case, locked: bool, next: State) {
    if locked then Unchanged(s, next) && At(next.log.place, c.id, Suspended)
    else if t.own(c.source) then LoggedOnly(s, next, VerdictRow(c.id, c.source, IaReferral, c.score, s.now, false, false))
    else if !SeenLately(s, c.source) then
      LoggedOnly(s, next, VerdictRow(c.id, c.source, DismissedStale, c.score, s.now, false, false))
    else if c.state == Warned then
      && next.verdicts == s.verdicts + [VerdictRow(c.id, c.source, Warned, c.score, s.now, false, true)]
      && next.log.enforced == s.log.enforced + [Court.Enforcement(c.id, c.source, Warned)]
      && next.rows == s.rows && next.pending == s.pending
    else AskedOnly(s, next, Request(c.id, c.source, Asked(t, s, c), c.score, s.now,
                                    match Asked(t, s, c) case Jailed => 0 case HouseArrest => 1800 case _ => 600))
  }

  lemma JudgedOutcome(t: Tiers, s: State, locked: bool)
    requires AllSound(t, s) && s.vthread.VTaken?
    ensures var c, j := s.vthread.c, Next(t, s, Judge(locked));
      && (j.vthread == if !locked && !t.own(c.source) && SeenLately(s, c.source) then VFresh(c) else VIdle)
      && (j.vthread.VIdle? ==> Outcome(t, s, c, locked, j))
      && (j.vthread.VFresh? ==> Unchanged(s, j) && j.now == s.now && Routed(c.state))
  {
    JudgedExactly(t, s, locked);
    JudgeLeaves(t, s, locked);
    hide AllSound, Judged;
  }

  lemma JudgeLeaves(t: Tiers, s: State, locked: bool)
    requires AllSound(t, s) && s.vthread.VTaken?
    ensures var j := Judged(t, s, s.vthread.c, locked);
            && j.rows == s.rows && j.pending == s.pending && j.log.enforced == s.log.enforced && j.now == s.now
            && Routed(s.vthread.c.state)
  {
    hide Active, Unjudged, RingSound, WindowSound, ConsentThreadSound, RowsSound, SlotsSound, VerdictsSound;
  }

  lemma FinalAsked(t: Tiers, s: State, j: State, c: Case)
    requires AllSound(t, j) && j.vthread == VFresh(c) && j.verdicts == s.verdicts && j.now == s.now
    ensures Final(t, j, c) == if c.state == Warned then Warned else Asked(t, s, c)
    ensures !t.own(c.source)
  {
    FinalExactly(t, j, c);
    hide Final, VerdictsSound, Contained;
  }

  lemma WarnedOutcome(t: Tiers, s: State, j: State, c: Case) returns (d: State)
    requires AllSound(t, j) && j.vthread == VFresh(c) && Unchanged(s, j) && j.now == s.now
    requires !t.own(c.source) && SeenLately(s, c.source) && c.state == Warned
    ensures d == Next(t, j, Decide) && d.vthread == VEnforce(c) && Next(t, d, EnforceWarned).vthread.VIdle?
    ensures Outcome(t, s, c, false, Next(t, d, EnforceWarned))
  {
    FinalAsked(t, s, j, c);
    hide AllSound, Final, SeenLately, Contained;
    d := Next(t, j, Decide);
  }

  lemma AskedOutcome(t: Tiers, s: State, j: State, c: Case) returns (d: State, r: State)
    requires AllSound(t, j) && j.vthread == VFresh(c) && Unchanged(s, j) && j.now == s.now
    requires !t.own(c.source) && SeenLately(s, c.source) && c.state != Warned
    ensures d == Next(t, j, Decide) && d.vthread.VRow? && r == Next(t, d, InsertRow) && r.vthread.VQueue?
    ensures Next(t, r, EnqueueRow).vthread.VIdle? && Outcome(t, s, c, false, Next(t, r, EnqueueRow))
  {
    FinalAsked(t, s, j, c);
    hide AllSound, Final, SeenLately, Enqueued, Contained;
    d := Next(t, j, Decide);
    r := Next(t, d, InsertRow);
  }

  lemma DecidedCall(t: Tiers, s: State, locked: bool, j: State)
    requires s.vthread.VTaken? && j == Next(t, s, Judge(locked)) && AllSound(t, j) && j.vthread == VFresh(s.vthread.c)
    requires Unchanged(s, j) && j.now == s.now && !locked && !t.own(s.vthread.c.source) && SeenLately(s, s.vthread.c.source)
    ensures Processed(t, s, locked).vthread.VIdle?
    ensures Outcome(t, s, s.vthread.c, locked, Processed(t, s, locked))
  {
    hide Next, AllSound, Processed, Outcome, SeenLately, Unchanged;
    var c := s.vthread.c;
    if c.state == Warned {
      var d := WarnedOutcome(t, s, j, c);
      EnforcedAfterDecide(t, s, locked, j, d, Next(t, d, EnforceWarned));
    } else {
      var d, r := AskedOutcome(t, s, j, c);
      AskedAfterDecide(t, s, locked, j, d, r, Next(t, r, EnqueueRow));
    }
  }

  /** A whole call: judged, decided, and then logged, enforced or asked about, as the rules say; the thread is free again. */
  lemma {:induction false} ProcessedExactly(t: Tiers, s: State, locked: bool)
    requires AllSound(t, s) && s.vthread.VTaken?
    ensures Processed(t, s, locked).vthread.VIdle?
    ensures Outcome(t, s, s.vthread.c, locked, Processed(t, s, locked))
  {
    hide Next, AllSound, Processed, Outcome, SeenLately, Unchanged;
    var j := Next(t, s, Judge(locked));
    JudgedOutcome(t, s, locked);
    SoundKept(t, s, Judge(locked));
    if j.vthread.VIdle? {
      IdleAfterJudge(t, s, locked, j);
    } else {
      DecidedCall(t, s, locked, j);
    }
  }

  // ---- one pass of the poll loop -------------------------------------------------------------

  predicate IsAnswered(p: Slot) {
    p.active && p.reply != 0
  }

  function SlotAfter(p: Slot, now: int): Slot {
    if !p.active then p else if p.reply != 0 then p.(active := false) else Kept(p, now)
  }

  /** The entries for the first n slots: an approval under the verdict asked for, a denial as such. */
  function Entries(pending: seq<Slot>, n: nat, now: int): seq<VerdictRow>
    requires n <= |pending|
  {
    if n == 0 then []
    else
      var p := pending[n - 1];
      Entries(pending, n - 1, now)
      + (if IsAnswered(p)
         then [VerdictRow(p.req.id, p.req.source, if p.reply == 1 then p.req.verdict else ConsentDenied, p.req.score, now,
                          true, p.reply == 1)]
         else [])
  }

  function Deeds(pending: seq<Slot>, n: nat): seq<Court.Enforcement>
    requires n <= |pending|
  {
    if n == 0 then []
    else
      var p := pending[n - 1];
      Deeds(pending, n - 1)
      + (if IsAnswered(p) && p.reply == 1 then [Court.Enforcement(p.req.id, p.req.source, p.req.verdict)] else [])
  }

  function Settles(pending: seq<Slot>, n: nat): set<CaseId>
    requires n <= |pending|
  {
    if n == 0 then {}
    else Settles(pending, n - 1) + (if IsAnswered(pending[n - 1]) then {pending[n - 1].req.id} else {})
  }

  ghost predicate PassDone(s: State, n: nat, r: State)
    requires n <= |s.pending|
  {
    && r.cthread.CPoll? && r.now == s.now && |r.pending| == |s.pending|
    && (forall i :: 0 <= i < |s.pending| ==> r.pending[i] == if i < n then SlotAfter(s.pending[i], s.now) else s.pending[i])
    && r.rows == s.rows - Settles(s.pending, n)
    && r.verdicts == s.verdicts + Entries(s.pending, n, s.now)
    && r.log.enforced == s.log.enforced + Deeds(s.pending, n)
  }

  /** What resolving one slot comes to. */
  ghost predicate Resolved(s: State, i: nat, r: State)
    requires i < |s.pending|
  {
    var p := s.pending[i];
    && r.cthread.CPoll? && r.now == s.now && r.pending == s.pending[i := p.(active := false)] && r.rows == s.rows - {p.req.id}
    && r.verdicts == s.verdicts + [VerdictRow(p.req.id, p.req.source, if p.reply == 1 then p.req.verdict else ConsentDenied,
                                              p.req.score, s.now, true, p.reply == 1)]
    && r.log.enforced == s.log.enforced
       + (if p.reply == 1 then [Court.Enforcement(p.req.id, p.req.source, p.req.verdict)] else [])
  }

  lemma RoundResolves(t: Tiers, s: State, i: nat)
    requires s.cthread.CPoll? && i < |s.pending| && IsAnswered(s.pending[i])
    ensures Resolved(s, i, Round(t, s, i))
  {
    var p := Polled(s, i);
    var r := RowRemoved(p, p.cthread.req, p.cthread.approved);
    var l := AnswerLogged(r, r.cthread.req, r.cthread.approved);
    ResolvedRound(t, s, i, p, r, l);
    hide Round;
  }

  lemma PassStep(t: Tiers, s: State, n: nat, r: State)
    requires n < |s.pending| && PassDone(s, n, r)
    ensures PassDone(s, n + 1, Round(t, r, n))
  {
    var p := s.pending[n];
    assert r.pending[n] == p;
    if !p.active {
      InactiveRound(t, r, n);
    } else if p.reply == 0 {
      RemindedRound(t, r, n);
      hide Round, Kept;
    } else {
      RoundResolves(t, r, n);
      hide Round;
      RowsTwice(s.rows, Settles(s.pending, n), p.req.id);
    }
  }

  lemma RowsTwice(rows: map<CaseId, Request>, ids: set<CaseId>, id: CaseId)
    ensures rows - ids - {id} == rows - (ids + {id})
  {
  }

  /**
    A pass settles every slot that was answered when it began (slot, row, log entry and, for an approval, enforcement, in
    the order of the slots) and reminds every other; nothing else happens.
   */
  lemma {:induction false} PassExactly(t: Tiers, s: State, n: nat)
    requires s.cthread.CPoll? && n <= |s.pending|
    ensures PassDone(s, n, Rounds(t, s, n))
  {
    hide PassDone, Round;
    if n > 0 {
      PassExactly(t, s, n - 1);
      PassStep(t, s, n - 1, Rounds(t, s, n - 1));
    } else {
      NothingDone(s);
    }
  }

  lemma NothingDone(s: State)
    requires s.cthread.CPoll?
    ensures PassDone(s, 0, s)
  {
    assert s.rows - {} == s.rows;
    assert s.verdicts + [] == s.verdicts && s.log.enforced + [] == s.log.enforced;
  }
}
