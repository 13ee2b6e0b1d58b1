/**
  What scorer calls and decay ticks do to the recidivism counts and to the window's answers when they
  interleave: exactly which steps spoil a count, and when an answer is that of a log nobody prunes.
 */
module ScoreRaces {
  import opened Text
  import opened Labels
  import opened SignalLog
  import Court
  import opened TierRules
  import opened Scoring
  import opened ScoreThreads

  // ---- recidivism ----------------------------------------------------------------------------

  /** The jails a record has counted and come down from. */
  function Net(rec: Threat): int {
    rec.jails - Above(rec, THRESH_JAILED)
  }

  /** The quarantines a record has counted and come down from, or less. */
  function NetQuarantines(rec: Threat): int {
    rec.quarantines - Above(rec, THRESH_QUARANTINED)
  }

  /** By how much prior_jails is ahead of the ways down from 80. */
  function Drift(s: Board, source: string): int {
    Net(RowOf(s.rows, source)) - DownsOf(s.downs, source)
  }

  function QuarantineDrift(s: Board, source: string): int {
    NetQuarantines(RowOf(s.rows, source)) - DownsOf(s.falls, source)
  }

  /** prior_jails counts the ways down from 80, plus one while the score is up there. */
  predicate JailsCounted(s: Board, source: string) {
    RowOf(s.rows, source).jails == DownsOf(s.downs, source) + Above(RowOf(s.rows, source), THRESH_JAILED)
  }

  /** The same for prior_quarantines and 50. */
  predicate QuarantinesCounted(s: Board, source: string) {
    var rec := RowOf(s.rows, source);
    rec.quarantines == DownsOf(s.falls, source) + Above(rec, THRESH_QUARANTINED)
  }

  /** The record, loaded or scanned earlier, that a step now writes back changed. */
  ghost function Written(s: Board, st: Step, source: string): Option<Threat>
    requires Enabled(s, st)
  {
    match st
    case Store(j) => if s.jobs[j].source == source then Some(s.jobs[j].rec) else None
    case Lower(j) => if s.jobs[j].todo[0].0 == source then Some(s.jobs[j].todo[0].1) else None
    case _ => None
  }

  /** How far the record written back is behind the row it replaces. */
  ghost function Slip(s: Board, st: Step, source: string): int
    requires Enabled(s, st)
  {
    match Written(s, st, source)
    case None => 0
    case Some(rec) => Net(rec) - Net(RowOf(s.rows, source))
  }

  ghost function QuarantineSlip(s: Board, st: Step, source: string): int
    requires Enabled(s, st)
  {
    match Written(s, st, source)
    case None => 0
    case Some(rec) => NetQuarantines(rec) - NetQuarantines(RowOf(s.rows, source))
  }

  /** A way up from below 50 to 70 or more, which counts as no quarantine. */
  predicate Leaps(rec: Threat, next: Threat) {
    rec.score < THRESH_QUARANTINED && next.score >= THRESH_HOUSE_ARREST
  }

  /** Whether a step takes the source from the record it had read to 70 or more, past QUARANTINED. */
  ghost function Leap(t: Court.Tiers, s: Board, st: Step, source: string): nat
    requires Enabled(s, st)
  {
    match Written(s, st, source)
    case None => 0
    case Some(rec) => if Leaps(rec, RowOf(Next(t, s, st).rows, source)) then 1 else 0
  }

  lemma ScoredNet(rec: Threat, addition: real, now: int)
    requires Good(rec) && addition > 0.0
    ensures var next := Scored(rec, addition, now);
      && Net(next) == Net(rec)
      && NetQuarantines(next) == NetQuarantines(rec) - (if Leaps(rec, next) then 1 else 0)
  {
    ScoredIsGood(rec, addition, now);
  }

  lemma DecayedNet(rec: Threat, now: int)
    requires Good(rec)
    ensures var next := DecayedRow(rec, now);
      && Net(next) == Net(rec) + (if rec.score >= THRESH_JAILED > next.score then 1 else 0)
      && NetQuarantines(next) == NetQuarantines(rec) + (if rec.score >= THRESH_QUARANTINED > next.score then 1 else 0)
      && !Leaps(rec, next)
  {
    DecayedIsGood(rec, now);
  }

  lemma StoreDrift(t: Court.Tiers, s: Board, j: nat, source: string)
    requires AllGood(s) && Enabled(s, Store(j))
    ensures Drift(Stored(t, s, j), source) == Drift(s, source) + Slip(s, Store(j), source)
    ensures QuarantineDrift(Stored(t, s, j), source)
         == QuarantineDrift(s, source) + QuarantineSlip(s, Store(j), source) - Leap(t, s, Store(j), source)
  {
    var job := s.jobs[j];
    assert GoodJob(job);
    AdditionOrdered(job.weight, job.phase.sigs, job.phase.sigs, job.rec, job.rec, TierModifier(t, job.source));
    hide Addition, Scored, Net, NetQuarantines, Leaps;
    ScoredNet(job.rec, Addition(job.weight, job.phase.sigs, job.rec, TierModifier(t, job.source)), job.start);
  }

  lemma LowerDrift(t: Court.Tiers, s: Board, j: nat, source: string)
    requires AllGood(s) && Enabled(s, Lower(j))
    ensures Drift(Lowered(s, j), source) == Drift(s, source) + Slip(s, Lower(j), source)
    ensures QuarantineDrift(Lowered(s, j), source)
         == QuarantineDrift(s, source) + QuarantineSlip(s, Lower(j), source) - Leap(t, s, Lower(j), source)
  {
    assert GoodJob(s.jobs[j]);
    hide DecayedRow, Net, NetQuarantines, Leaps;
    DecayedNet(s.jobs[j].todo[0].1, s.jobs[j].start);
  }

  /** Every step moves the drift of a source by its slip and, for quarantines, its leap, and by nothing else. */
  lemma DriftStep(t: Court.Tiers, s: Board, st: Step, source: string)
    requires AllGood(s) && Enabled(s, st)
    ensures Drift(Next(t, s, st), source) == Drift(s, source) + Slip(s, st, source)
    ensures QuarantineDrift(Next(t, s, st), source)
         == QuarantineDrift(s, source) + QuarantineSlip(s, st, source) - Leap(t, s, st, source)
  {
    hide AllGood, Scan, Active, Pruned, Distinct, Stored, Lowered, Net, NetQuarantines;
    match st
    case Store(j) => StoreDrift(t, s, j, source);
    case Lower(j) => LowerDrift(t, s, j, source);
    case _ =>
  }

  /**
    A count survives a step exactly when the step writes nothing back for the source, or a record whose
    net count is still that of the stored row.
   */
  lemma {:induction false} CountSurvivesStep(t: Court.Tiers, s: Board, st: Step, source: string)
    requires AllGood(s) && Enabled(s, st) && JailsCounted(s, source)
    ensures JailsCounted(Next(t, s, st), source) <==>
              Written(s, st, source).None? || Net(Written(s, st, source).value) == Net(RowOf(s.rows, source))
  {
    hide Next, Enabled, AllGood, Written;
    DriftStep(t, s, st, source);
  }

  ghost function Slips(t: Court.Tiers, now: int, steps: seq<Step>, source: string): int
    requires CanRun(t, now, steps)
  {
    if steps == [] then 0
    else
      var front := steps[..|steps| - 1];
      Slips(t, now, front, source) + Slip(Run(t, now, front), steps[|steps| - 1], source)
  }

  ghost function QuarantineSlips(t: Court.Tiers, now: int, steps: seq<Step>, source: string): int
    requires CanRun(t, now, steps)
  {
    if steps == [] then 0
    else
      var front := steps[..|steps| - 1];
      QuarantineSlips(t, now, front, source) + QuarantineSlip(Run(t, now, front), steps[|steps| - 1], source)
  }

  ghost function LeapsTaken(t: Court.Tiers, now: int, steps: seq<Step>, source: string): nat
    requires CanRun(t, now, steps)
  {
    if steps == [] then 0
    else
      var front := steps[..|steps| - 1];
      LeapsTaken(t, now, front, source) + Leap(t, Run(t, now, front), steps[|steps| - 1], source)
  }

  /**
    Over every interleaving the drift of a source is the sum of its slips, less the leaps for quarantines.
    So prior_jails is exact at the end of exactly those runs whose slips add up to nothing, and
    prior_quarantines of those whose slips add up to the leaps.
   */
  lemma {:induction false} CountExactly(t: Court.Tiers, now: int, steps: seq<Step>, source: string)
    requires CanRun(t, now, steps)
    ensures Drift(Run(t, now, steps), source) == Slips(t, now, steps, source)
    ensures JailsCounted(Run(t, now, steps), source) <==> Slips(t, now, steps, source) == 0
    ensures QuarantineDrift(Run(t, now, steps), source)
         == QuarantineSlips(t, now, steps, source) - LeapsTaken(t, now, steps, source)
    ensures QuarantinesCounted(Run(t, now, steps), source) <==>
              QuarantineSlips(t, now, steps, source) == LeapsTaken(t, now, steps, source)
    decreases |steps|
  {
    hide Next, Enabled, AllGood, Slip, QuarantineSlip, Leap;
    if steps != [] {
      var front := steps[..|steps| - 1];
      CountExactly(t, now, front, source);
      EveryRowIsGood(t, now, front);
      DriftStep(t, Run(t, now, front), steps[|steps| - 1], source);
    }
  }

  // ---- races only ever forget ----------------------------------------------------------------

  /** A record has counted no more than there were ways down, and one more while it is up there. */
  predicate Behind(rec: Threat, downs: nat, falls: nat) {
    Net(rec) <= downs && NetQuarantines(rec) <= falls
  }

  predicate JobBehind(job: Job, source: string, downs: nat, falls: nat) {
    match job
    case Scorer(of, _, _, rec, _, _) => of == source ==> Behind(rec, downs, falls)
    case Decayer(todo, _, _) => forall k :: 0 <= k < |todo| ==> todo[k].0 == source ==> Behind(todo[k].1, downs, falls)
  }

  /** Neither the row of the source nor any record of it that a thread has read is ahead. */
  ghost predicate NoneAhead(s: Board, source: string) {
    var downs, falls := DownsOf(s.downs, source), DownsOf(s.falls, source);
    && Behind(RowOf(s.rows, source), downs, falls)
    && forall j :: j in s.jobs ==> JobBehind(s.jobs[j], source, downs, falls)
  }

  lemma StoreNoneAhead(t: Court.Tiers, s: Board, j: nat, source: string)
    requires AllGood(s) && Enabled(s, Store(j)) && NoneAhead(s, source)
    ensures NoneAhead(Stored(t, s, j), source)
  {
    var job := s.jobs[j];
    assert GoodJob(job);
    AdditionOrdered(job.weight, job.phase.sigs, job.phase.sigs, job.rec, job.rec, TierModifier(t, job.source));
    hide Addition, Scored, Net, NetQuarantines, Leaps;
    assert JobBehind(job, source, DownsOf(s.downs, source), DownsOf(s.falls, source));
    ScoredNet(job.rec, Addition(job.weight, job.phase.sigs, job.rec, TierModifier(t, job.source)), job.start);
  }

  lemma LowerNoneAhead(s: Board, j: nat, source: string)
    requires AllGood(s) && Enabled(s, Lower(j)) && NoneAhead(s, source)
    ensures NoneAhead(Lowered(s, j), source)
  {
    var next := Lowered(s, j);
    var downs, falls := DownsOf(s.downs, source), DownsOf(s.falls, source);
    var rec := s.jobs[j].todo[0].1;
    assert GoodJob(s.jobs[j]);
    hide DecayedRow, Net, NetQuarantines, Leaps;
    DecayedNet(rec, s.jobs[j].start);
    assert JobBehind(s.jobs[j], source, downs, falls);
    assert forall k :: 0 <= k < |s.jobs[j].todo[1..]| ==> s.jobs[j].todo[1..][k] == s.jobs[j].todo[k + 1];
    forall i | i in next.jobs
      ensures JobBehind(next.jobs[i], source, DownsOf(next.downs, source), DownsOf(next.falls, source))
    {
      assert JobBehind(s.jobs[i], source, downs, falls);
    }
  }

  lemma NoneAheadKept(t: Court.Tiers, s: Board, st: Step, source: string)
    requires AllGood(s) && Enabled(s, st) && NoneAhead(s, source)
    ensures NoneAhead(Next(t, s, st), source)
  {
    hide AllGood, Active, Pruned, Distinct, Stored, Lowered, Behind;
    match st
    case Store(j) => StoreNoneAhead(t, s, j, source);
    case Lower(j) => LowerNoneAhead(s, j, source);
    case Skip(j) =>
      assert JobBehind(s.jobs[j], source, DownsOf(s.downs, source), DownsOf(s.falls, source));
      assert forall k :: 0 <= k < |s.jobs[j].todo[1..]| ==> s.jobs[j].todo[1..][k] == s.jobs[j].todo[k + 1];
    case _ =>
  }

  /**
    No interleaving makes a count too high: prior_jails is at most the ways down from 80, plus one while
    the score is up there, and the same for prior_quarantines and 50. A race can only forget.
   */
  lemma {:induction false} RacesOnlyForget(t: Court.Tiers, now: int, steps: seq<Step>, source: string)
    requires CanRun(t, now, steps)
    ensures NoneAhead(Run(t, now, steps), source)
    ensures var s := Run(t, now, steps);
      var rec := RowOf(s.rows, source);
      && rec.jails <= DownsOf(s.downs, source) + Above(rec, THRESH_JAILED)
      && rec.quarantines <= DownsOf(s.falls, source) + Above(rec, THRESH_QUARANTINED)
    decreases |steps|
  {
    hide Next, Enabled, AllGood, NoneAhead;
    if steps == [] {
      StartNoneAhead(now, source);
    } else {
      var front := steps[..|steps| - 1];
      RacesOnlyForget(t, now, front, source);
      EveryRowIsGood(t, now, front);
      NoneAheadKept(t, Run(t, now, front), steps[|steps| - 1], source);
    }
    NoneAheadMeans(Run(t, now, steps), source);
  }

  lemma StartNoneAhead(now: int, source: string)
    ensures NoneAhead(Start(now), source)
  {
  }

  lemma NoneAheadMeans(s: Board, source: string)
    requires NoneAhead(s, source)
    ensures var rec := RowOf(s.rows, source);
      && rec.jails <= DownsOf(s.downs, source) + Above(rec, THRESH_JAILED)
      && rec.quarantines <= DownsOf(s.falls, source) + Above(rec, THRESH_QUARANTINED)
  {
  }

  /** The count has been exact all along. */
  ghost predicate AlwaysCounted(t: Court.Tiers, now: int, steps: seq<Step>, source: string)
    requires CanRun(t, now, steps)
  {
    && JailsCounted(Run(t, now, steps), source)
    && (steps != [] ==> AlwaysCounted(t, now, steps[..|steps| - 1], source))
  }

  /** No step has written back a record whose net count was no longer the row's. */
  ghost predicate NeverStale(t: Court.Tiers, now: int, steps: seq<Step>, source: string)
    requires CanRun(t, now, steps)
  {
    steps != [] ==>
      var front := steps[..|steps| - 1];
      NeverStale(t, now, front, source) && Slip(Run(t, now, front), steps[|steps| - 1], source) == 0
  }

  /** The count is exact all along a run exactly when no stale record is ever written back. */
  lemma {:induction false} AlwaysCountedExactly(t: Court.Tiers, now: int, steps: seq<Step>, source: string)
    requires CanRun(t, now, steps)
    ensures AlwaysCounted(t, now, steps, source) <==> NeverStale(t, now, steps, source)
    decreases |steps|
  {
    hide Next, Enabled, AllGood, Slip;
    if steps != [] {
      var front := steps[..|steps| - 1];
      AlwaysCountedExactly(t, now, front, source);
      EveryRowIsGood(t, now, front);
      DriftStep(t, Run(t, now, front), steps[|steps| - 1], source);
    }
  }

  const NO_TIERS := Court.Tiers(_ => false, _ => false, _ => false)
  const APP := "com.example.app"

  lemma Extend(t: Court.Tiers, now: int, steps: seq<Step>, st: Step) returns (more: seq<Step>)
    requires CanRun(t, now, steps) && Enabled(Run(t, now, steps), st)
    ensures more == steps + [st] && CanRun(t, now, more) && Run(t, now, more) == Next(t, Run(t, now, steps), st)
  {
    more := steps + [st];
    assert more[..|more| - 1] == steps;
  }

  /** The same rows and counts. */
  predicate SameRecord(s: Board, r: Board) {
    r.now == s.now && r.rows == s.rows && r.downs == s.downs && r.falls == s.falls
  }

  /** A loaded call notes, trims and looks. */
  predicate Looking(s: Board, r: Board, j: nat)
    requires ScorerAt(s, j)
  {
    var job := s.jobs[j];
    var since := job.start - SIGNAL_WINDOW_SEC;
    && SameRecord(s, r) && r.signals == Pruned(s.signals + [Signal(job.source, job.name, job.start)], since)
    && r.jobs == s.jobs[j := job.(phase := Looked(Distinct(r.signals, job.source, since)))]
  }

  lemma Looks(t: Court.Tiers, now: int, before: seq<Step>, j: nat) returns (steps: seq<Step>)
    requires CanRun(t, now, before) && ScorerAt(Run(t, now, before), j) && Run(t, now, before).jobs[j].phase == Loaded
    ensures CanRun(t, now, steps) && Looking(Run(t, now, before), Run(t, now, steps), j)
  {
    hide CanRun, Run, Pruned, Distinct;
    steps := Extend(t, now, before, Note(j));
    steps := Extend(t, now, steps, Trim(j));
    steps := Extend(t, now, steps, Look(j));
  }

  const SIGNAL := Signal(APP, "CPU_HOG", 0)

  function Repeated(n: nat): seq<Signal> {
    if n == 0 then [] else Repeated(n - 1) + [SIGNAL]
  }

  lemma {:induction false} RepeatedSeen(n: nat, now: int)
    ensures Pruned(Repeated(n), -SIGNAL_WINDOW_SEC) == Repeated(n)
    ensures Distinct(Repeated(n), APP, -SIGNAL_WINDOW_SEC) == if n == 0 then [] else ["CPU_HOG"]
    ensures now >= SIGNAL_WINDOW_SEC ==> !Active(Repeated(n), APP, now - SIGNAL_WINDOW_SEC)
  {
    hide Pruned, Distinct, Active;
    if n > 0 {
      RepeatedSeen(n - 1, now);
      assert Repeated(n)[..|Repeated(n)| - 1] == Repeated(n - 1);
    }
    RepeatedKept(n);
    RepeatedNamed(n);
    RepeatedOld(n);
    if now >= SIGNAL_WINDOW_SEC {
      NotActive(Repeated(n), APP, now - SIGNAL_WINDOW_SEC);
    }
  }

  lemma RepeatedKept(n: nat)
    requires n > 0 ==> Pruned(Repeated(n - 1), -SIGNAL_WINDOW_SEC) == Repeated(n - 1)
    requires n > 0 ==> Repeated(n)[..|Repeated(n)| - 1] == Repeated(n - 1)
    ensures Pruned(Repeated(n), -SIGNAL_WINDOW_SEC) == Repeated(n)
  {
  }

  lemma RepeatedNamed(n: nat)
    requires n > 0 ==> Distinct(Repeated(n - 1), APP, -SIGNAL_WINDOW_SEC) == if n == 1 then [] else ["CPU_HOG"]
    requires n > 0 ==> Repeated(n)[..|Repeated(n)| - 1] == Repeated(n - 1)
    ensures Distinct(Repeated(n), APP, -SIGNAL_WINDOW_SEC) == if n == 0 then [] else ["CPU_HOG"]
  {
  }

  lemma {:induction false} RepeatedOld(n: nat)
    ensures forall k :: 0 <= k < |Repeated(n)| ==> Repeated(n)[k].epoch == 0
  {
    if n > 0 {
      RepeatedOld(n - 1);
    }
  }

  lemma NotActive(window: seq<Signal>, source: string, since: int)
    requires forall k :: 0 <= k < |window| ==> window[k].epoch <= since
    ensures !Active(window, source, since)
  {
  }

  function Fresh(rec: Threat, weight: real, phase: Phase): Job {
    Scorer(APP, "CPU_HOG", weight, rec, 0, phase)
  }

  const NAMED := Looked(["CPU_HOG"])
  const UP_ONCE := Threat(75.0, HouseArrest, 0, 0, 0)
  const UP_TWICE := Threat(85.0, Jailed, 1, 0, 0)
  const DOWN := Threat(74.8, HouseArrest, 1, 0, 200)

  /** A call loads, notes its signal and looks at the window, all at time 0. */
  lemma CallLooks(before: seq<Step>, j: nat, weight: real, n: nat) returns (steps: seq<Step>)
    requires CanRun(NO_TIERS, 0, before) && weight > 0.0
    requires var s := Run(NO_TIERS, 0, before); j !in s.jobs && s.now == 0 && s.signals == Repeated(n)
    ensures CanRun(NO_TIERS, 0, steps)
    ensures var s := Run(NO_TIERS, 0, before);
      var r := Run(NO_TIERS, 0, steps);
      && SameRecord(s, r) && r.signals == Repeated(n + 1)
      && r.jobs == s.jobs[j := Fresh(RowOf(s.rows, APP), weight, NAMED)]
  {
    hide CanRun, Run, Pruned, Distinct;
    steps := Extend(NO_TIERS, 0, before, Load(j, APP, "CPU_HOG", weight, 0));
    steps := Looks(NO_TIERS, 0, steps, j);
    RepeatedSeen(n + 1, 0);
    var s := Run(NO_TIERS, 0, before);
    assert Run(NO_TIERS, 0, steps).jobs == s.jobs[j := Fresh(RowOf(s.rows, APP), weight, NAMED)];
  }

  lemma Additions()
    ensures forall rec: Threat :: rec.jails == 0 && rec.quarantines == 0 ==>
              Addition(75.0, ["CPU_HOG"], rec, TierModifier(NO_TIERS, APP)) == 75.0
              && Addition(10.0, ["CPU_HOG"], rec, TierModifier(NO_TIERS, APP)) == 10.0
  {
    hide Product;
    FiveFactors(75.0, 1.0, 1.0, 1.0, 1.0);
    FiveFactors(10.0, 1.0, 1.0, 1.0, 1.0);
  }

  /** Two calls at 75: one is still to store, the other has stored 85. */
  lemma StaleCall() returns (steps: seq<Step>)
    ensures CanRun(NO_TIERS, 0, steps)
    ensures var s := Run(NO_TIERS, 0, steps);
      && s.now == 0 && s.rows == map[APP := UP_TWICE] && s.signals == Repeated(3)
      && s.jobs == map[2 := Fresh(UP_ONCE, 10.0, NAMED)] && s.downs == map[]
  {
    hide CanRun, Run, Addition;
    Additions();
    assert CanRun(NO_TIERS, 0, []) && Run(NO_TIERS, 0, []) == Start(0) by { RunOfNothing(NO_TIERS, 0); }
    steps := CallLooks([], 1, 75.0, 0);
    steps := Extend(NO_TIERS, 0, steps, Store(1));
    assert Run(NO_TIERS, 0, steps).jobs == map[];
    steps := CallLooks(steps, 2, 10.0, 1);
    steps := CallLooks(steps, 3, 10.0, 2);
    steps := Extend(NO_TIERS, 0, steps, Store(3));
    assert Run(NO_TIERS, 0, steps).jobs == map[2 := Fresh(UP_ONCE, 10.0, NAMED)];
  }

  lemma RunOfNothing(t: Court.Tiers, now: int)
    ensures CanRun(t, now, []) && Run(t, now, []) == Start(now)
  {
  }

  lemma ScanOfOne(rows: map<string, Threat>, source: string)
    requires source in rows
    ensures Scan(rows, [(source, rows[source])])
  {
  }

  /** A decay tick begins two hundred seconds later and finds the source quiet. */
  lemma DecayBegins() returns (steps: seq<Step>)
    ensures CanRun(NO_TIERS, 0, steps)
    ensures var s := Run(NO_TIERS, 0, steps);
      && s.rows == map[APP := UP_TWICE] && s.downs == map[]
      && s.jobs == map[2 := Fresh(UP_ONCE, 10.0, NAMED), 4 := Decayer([(APP, UP_TWICE)], 200, true)]
  {
    hide CanRun, Run, Addition, Scan, Active;
    steps := StaleCall();
    steps := Extend(NO_TIERS, 0, steps, Tick(200));
    ScanOfOne(Run(NO_TIERS, 0, steps).rows, APP);
    steps := Extend(NO_TIERS, 0, steps, Begin(4, [(APP, UP_TWICE)]));
    RepeatedSeen(3, 200);
    steps := Extend(NO_TIERS, 0, steps, Pass(4));
  }

  /** A decay between a call's load and its store makes prior_jails forget a jail. */
  lemma {:induction false} SplitCallForgetsAJail() returns (steps: seq<Step>)
    ensures CanRun(NO_TIERS, 0, steps)
    ensures !JailsCounted(Run(NO_TIERS, 0, steps), APP)
  {
    hide CanRun, Run, Addition, Active;
    Additions();
    steps := DecayBegins();
    steps := Extend(NO_TIERS, 0, steps, Lower(4));
    assert Run(NO_TIERS, 0, steps).rows == map[APP := DOWN];
    steps := Extend(NO_TIERS, 0, steps, Store(2));
    assert Run(NO_TIERS, 0, steps).rows == map[APP := UP_TWICE];
  }
}
