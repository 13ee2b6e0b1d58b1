/**
  The window's answers while scorer calls and decay ticks interleave: an answer is that of a log nobody
  prunes as long as no call that started more than a second later has trimmed, and need not be once one has.
 */
module ScoreWindow {
  import opened Labels
  import opened SignalLog
  import Court
  import opened TierRules
  import opened Scoring
  import opened ScoreThreads
  import opened ScoreRaces

  /** From the latest cutoff on, nothing observed is missing and nothing is out of order. */
  ghost predicate Thinned(s: Board) {
    Pruned(s.signals, s.cutoff) == Pruned(s.observed, s.cutoff)
  }

  lemma PrunedSnoc(window: seq<Signal>, x: Signal, cutoff: int)
    ensures Pruned(window + [x], cutoff) == Pruned(window, cutoff) + (if x.epoch < cutoff then [] else [x])
  {
    assert (window + [x])[..|window|] == window;
  }

  lemma CutThins(s: Board, start: int)
    requires Thinned(s)
    ensures Thinned(Cut(s, start))
  {
    hide Pruned;
    var cutoff := start - SIGNAL_WINDOW_SEC;
    var later := if cutoff > s.cutoff then cutoff else s.cutoff;
    PruneTwice(s.signals, cutoff, later);
    PruneTwice(s.signals, s.cutoff, later);
    PruneTwice(s.observed, s.cutoff, later);
  }

  lemma ThinnedKept(t: Court.Tiers, s: Board, st: Step)
    requires Thinned(s) && Enabled(s, st)
    ensures Thinned(Next(t, s, st))
  {
    hide Pruned, Distinct, Active, Scan, Stored, Lowered, Cut;
    match st
    case Note(j) =>
      var x := Signal(s.jobs[j].source, s.jobs[j].name, s.jobs[j].start);
      PrunedSnoc(s.signals, x, s.cutoff);
      PrunedSnoc(s.observed, x, s.cutoff);
    case Trim(j) => CutThins(s, s.jobs[j].start);
    case Finish(j) => CutThins(s, s.jobs[j].start);
    case Store(j) => StoreKeepsWindow(t, s, j);
    case Lower(j) => LowerKeepsWindow(s, j);
    case _ =>
  }

  lemma StoreKeepsWindow(t: Court.Tiers, s: Board, j: nat)
    requires Enabled(s, Store(j))
    ensures var r := Stored(t, s, j); r.signals == s.signals && r.observed == s.observed && r.cutoff == s.cutoff
  {
  }

  lemma LowerKeepsWindow(s: Board, j: nat)
    requires Enabled(s, Lower(j))
    ensures var r := Lowered(s, j); r.signals == s.signals && r.observed == s.observed && r.cutoff == s.cutoff
  {
  }

  lemma {:induction false} RunThinned(t: Court.Tiers, now: int, steps: seq<Step>)
    requires CanRun(t, now, steps)
    ensures Thinned(Run(t, now, steps))
    decreases |steps|
  {
    hide Thinned, Next, Enabled;
    if steps == [] {
      StartThinned(now);
    } else {
      RunThinned(t, now, steps[..|steps| - 1]);
      ThinnedKept(t, Run(t, now, steps[..|steps| - 1]), steps[|steps| - 1]);
    }
  }

  lemma StartThinned(now: int)
    ensures Thinned(Start(now))
  {
  }

  /** Over every interleaving: a question about times after every cutoff used so far is answered as by the unpruned log. */
  lemma AnswersFaithful(t: Court.Tiers, now: int, steps: seq<Step>, source: string, since: int)
    requires CanRun(t, now, steps) && Run(t, now, steps).cutoff <= since + 1
    ensures var s := Run(t, now, steps);
      && Distinct(s.signals, source, since) == Distinct(s.observed, source, since)
      && Active(s.signals, source, since) == Active(s.observed, source, since)
  {
    hide Run, CanRun, Pruned, Distinct, Active;
    RunThinned(t, now, steps);
    var s := Run(t, now, steps);
    PruneInvisibleDistinct(s.signals, s.cutoff, source, since);
    PruneInvisibleDistinct(s.observed, s.cutoff, source, since);
    PruneInvisibleActive(s.signals, s.cutoff, source, since);
    PruneInvisibleActive(s.observed, s.cutoff, source, since);
  }

  /** A scorer's look at the window, and a decay tick's test of a source, while no call that started later has trimmed. */
  lemma {:induction false} LooksFaithful(t: Court.Tiers, now: int, steps: seq<Step>, j: nat)
    requires CanRun(t, now, steps)
    requires var s := Run(t, now, steps); j in s.jobs && s.cutoff <= s.jobs[j].start - SIGNAL_WINDOW_SEC + 1
    ensures var s := Run(t, now, steps);
      && (Enabled(s, Look(j)) ==>
            Next(t, s, Look(j)).jobs[j].phase
            == Looked(Distinct(s.observed, s.jobs[j].source, s.jobs[j].start - SIGNAL_WINDOW_SEC)))
      && (DecayerAt(s, j) && Asking(s.jobs[j]) ==>
            Answer(s, j) == Active(s.observed, s.jobs[j].todo[0].0, s.jobs[j].start - SIGNAL_WINDOW_SEC))
  {
    hide Run, CanRun, Pruned, Distinct, Active;
    var s := Run(t, now, steps);
    var job := s.jobs[j];
    if job.Scorer? {
      AnswersFaithful(t, now, steps, job.source, job.start - SIGNAL_WINDOW_SEC);
    } else if Asking(job) {
      AnswersFaithful(t, now, steps, job.todo[0].0, job.start - SIGNAL_WINDOW_SEC);
    }
  }

  // ---- a later call trims too soon -----------------------------------------------------------

  function Call(source: string, name: string, rec: Threat, start: int, phase: Phase): Job {
    Scorer(source, name, 10.0, rec, start, phase)
  }

  /** A call loads and notes its signal. */
  function Noting(s: Board, j: nat, source: string, name: string): Board {
    var x := Signal(source, name, s.now);
    s.(signals := s.signals + [x], observed := s.observed + [x],
       jobs := s.jobs[j := Call(source, name, RowOf(s.rows, source), s.now, Noted)])
  }

  /** A call loads, notes its signal and trims. */
  function Trimming(s: Board, j: nat, source: string, name: string): Board {
    var r := Cut(Noting(s, j, source, name), s.now);
    r.(jobs := s.jobs[j := Call(source, name, RowOf(s.rows, source), s.now, Trimmed)])
  }

  lemma CallNotes(t: Court.Tiers, now: int, before: seq<Step>, j: nat, source: string, name: string)
    returns (steps: seq<Step>)
    requires CanRun(t, now, before) && j !in Run(t, now, before).jobs
    ensures CanRun(t, now, steps) && Run(t, now, steps) == Noting(Run(t, now, before), j, source, name)
  {
    hide CanRun, Run, Pruned;
    var s := Run(t, now, before);
    steps := Extend(t, now, before, Load(j, source, name, 10.0, 0));
    steps := Extend(t, now, steps, Note(j));
    assert Run(t, now, steps).jobs == Noting(s, j, source, name).jobs;
  }

  lemma CallTrims(t: Court.Tiers, now: int, before: seq<Step>, j: nat, source: string, name: string)
    returns (steps: seq<Step>)
    requires CanRun(t, now, before) && j !in Run(t, now, before).jobs
    ensures CanRun(t, now, steps) && Run(t, now, steps) == Trimming(Run(t, now, before), j, source, name)
  {
    hide CanRun, Run, Pruned;
    var s := Run(t, now, before);
    steps := CallNotes(t, now, before, j, source, name);
    steps := Extend(t, now, steps, Trim(j));
    assert Run(t, now, steps).jobs == Trimming(s, j, source, name).jobs;
  }

  lemma TimePasses(t: Court.Tiers, now: int, before: seq<Step>, dt: nat) returns (steps: seq<Step>)
    requires CanRun(t, now, before)
    ensures CanRun(t, now, steps) && Run(t, now, steps) == Run(t, now, before).(now := Run(t, now, before).now + dt)
  {
    hide CanRun, Run;
    steps := Extend(t, now, before, Tick(dt));
  }

  const EARLY := "EARLY"
  const LATER := "LATER"

  /** A whole call, started 119 seconds before the given time, and the time until then. */
  lemma EarlyCall(t: Court.Tiers, source: string, a: int) returns (steps: seq<Step>)
    ensures CanRun(t, a - 119, steps)
    ensures var s := Run(t, a - 119, steps);
      && s.now == a && s.cutoff < a - SIGNAL_WINDOW_SEC && s.observed == [Signal(source, EARLY, a - 119)]
      && source in s.rows && s.jobs == map[]
  {
    hide CanRun, Run, Pruned, Distinct, Addition, Scored;
    RunOfNothing(t, a - 119);
    steps := CallTrims(t, a - 119, [], 1, source, EARLY);
    steps := Extend(t, a - 119, steps, Look(1));
    steps := Extend(t, a - 119, steps, Store(1));
    assert Run(t, a - 119, steps).jobs == map[];
    steps := TimePasses(t, a - 119, steps, 119);
  }

  /** What the table still has from the latest cutoff on was observed. */
  lemma StillObserved(s: Board, x: Signal)
    requires Thinned(s) && x in s.signals && x.epoch >= s.cutoff
    ensures x in s.observed
  {
    hide Pruned;
    PrunedHolds(s.signals, s.cutoff);
    PrunedHolds(s.observed, s.cutoff);
  }

  /** All that is older than the latest cutoff has gone. */
  predicate Swept(s: Board) {
    forall x :: x in s.signals ==> x.epoch >= s.cutoff
  }

  lemma TrimSweeps(s: Board, j: nat, source: string, name: string)
    requires s.cutoff <= s.now - SIGNAL_WINDOW_SEC
    ensures var r := Trimming(s, j, source, name); Swept(r) && r.cutoff == s.now - SIGNAL_WINDOW_SEC
  {
    hide Pruned;
    PrunedHolds(Noting(s, j, source, name).signals, s.now - SIGNAL_WINDOW_SEC);
  }

  /** A call that started at a for the source is about to look, and the latest trim is that of one that started at b. */
  ghost predicate LookDue(t: Court.Tiers, now: int, steps: seq<Step>, j: nat, source: string, a: int, b: int) {
    CanRun(t, now, steps) &&
    var s := Run(t, now, steps);
    Enabled(s, Look(j)) && s.jobs[j].source == source && s.jobs[j].start == a && s.cutoff == b - SIGNAL_WINDOW_SEC
  }

  /** The same for a decay tick about to test the source. */
  ghost predicate TestDue(t: Court.Tiers, now: int, steps: seq<Step>, j: nat, source: string, a: int, b: int) {
    CanRun(t, now, steps) &&
    var s := Run(t, now, steps);
    && DecayerAt(s, j) && Asking(s.jobs[j]) && s.jobs[j].todo[0].0 == source && s.jobs[j].start == a
    && s.cutoff == b - SIGNAL_WINDOW_SEC
  }

  /** The distinct signals the table gives are those of the unpruned log. */
  predicate NamesFaithful(s: Board, source: string, start: int) {
    Distinct(s.signals, source, start - SIGNAL_WINDOW_SEC) == Distinct(s.observed, source, start - SIGNAL_WINDOW_SEC)
  }

  predicate ActivityFaithful(s: Board, source: string, start: int) {
    Active(s.signals, source, start - SIGNAL_WINDOW_SEC) <==> Active(s.observed, source, start - SIGNAL_WINDOW_SEC)
  }

  lemma EarlyNameHidden(s: Board, source: string, a: int)
    requires Thinned(s) && Swept(s) && s.cutoff > a - 119
    requires s.observed != [] && s.observed[0] == Signal(source, EARLY, a - 119)
    requires forall x :: x in s.observed && x.name == EARLY ==> x.epoch == a - 119
    ensures !NamesFaithful(s, source, a)
  {
    hide Thinned, Distinct;
    var since := a - SIGNAL_WINDOW_SEC;
    OldestNamed(s.observed, source, since);
    if EARLY in Distinct(s.signals, source, since) {
      DistinctNamed(s.signals, source, since, EARLY);
      var x :| x in s.signals && x.source == source && x.name == EARLY && x.epoch > since;
      StillObserved(s, x);
      assert false;
    }
  }

  lemma EarlySignalHidden(s: Board, source: string, a: int)
    requires Thinned(s) && Swept(s) && s.cutoff > a - 119
    requires s.observed != [] && s.observed[0] == Signal(source, EARLY, a - 119)
    requires forall x :: x in s.observed && x.source == source ==> x.epoch == a - 119
    ensures !ActivityFaithful(s, source, a)
  {
    hide Thinned;
    var since := a - SIGNAL_WINDOW_SEC;
    assert Active(s.observed, source, since);
    if Active(s.signals, source, since) {
      var k :| 0 <= k < |s.signals| && s.signals[k].source == source && s.signals[k].epoch > since;
      assert s.signals[k] in s.signals;
      StillObserved(s, s.signals[k]);
      assert false;
    }
  }

  /** Two calls for a source at 119 seconds' distance, and a third, more than a second later, that trims before the second looks. */
  lemma {:induction false} LateTrimHidesASignal(t: Court.Tiers, source: string, a: int, b: int) returns (steps: seq<Step>)
    requires b > a + 1
    ensures LookDue(t, a - 119, steps, 2, source, a, b)
    ensures !NamesFaithful(Run(t, a - 119, steps), source, a)
  {
    hide CanRun, Run, Pruned, Distinct, Thinned, Swept, NamesFaithful;
    steps := EarlyCall(t, source, a);
    TrimSweeps(Run(t, a - 119, steps), 2, source, LATER);
    steps := CallTrims(t, a - 119, steps, 2, source, LATER);
    steps := TimePasses(t, a - 119, steps, b - a);
    TrimSweeps(Run(t, a - 119, steps), 3, source, LATER);
    steps := CallTrims(t, a - 119, steps, 3, source, LATER);
    assert EARLY != LATER by { assert EARLY[0] != LATER[0]; }
    RunThinned(t, a - 119, steps);
    EarlyNameHidden(Run(t, a - 119, steps), source, a);
  }

  /** The same for a decay tick: the activity it should have seen is trimmed away by a call for another source. */
  lemma {:induction false} LateTrimHidesActivity(t: Court.Tiers, source: string, a: int, b: int) returns (steps: seq<Step>)
    requires b > a + 1
    ensures TestDue(t, a - 119, steps, 2, source, a, b)
    ensures !ActivityFaithful(Run(t, a - 119, steps), source, a)
  {
    hide CanRun, Run, Pruned, Active, Thinned, Swept, ActivityFaithful, Scan;
    steps := EarlyCall(t, source, a);
    var rows := Run(t, a - 119, steps).rows;
    ScanOfOne(rows, source);
    steps := Extend(t, a - 119, steps, Begin(2, [(source, rows[source])]));
    steps := TimePasses(t, a - 119, steps, b - a);
    TrimSweeps(Run(t, a - 119, steps), 3, source + "x", LATER);
    steps := CallTrims(t, a - 119, steps, 3, source + "x", LATER);
    assert |source + "x"| != |source|;
    RunThinned(t, a - 119, steps);
    EarlySignalHidden(Run(t, a - 119, steps), source, a);
  }

  /**
    The bound is sharp. Given when a call or a decay tick started and when the call that trimmed last did,
    its answer is that of the unpruned log in every run exactly when the latter was at most a second later.
   */
  lemma {:induction false} AnswersFaithfulExactly(t: Court.Tiers, source: string, a: int, b: int)
    ensures (forall now, steps, j :: LookDue(t, now, steps, j, source, a, b) ==>
              NamesFaithful(Run(t, now, steps), source, a)) <==> b <= a + 1
    ensures (forall now, steps, j :: TestDue(t, now, steps, j, source, a, b) ==>
              ActivityFaithful(Run(t, now, steps), source, a)) <==> b <= a + 1
  {
    hide CanRun, Run, Distinct, Active;
    if b <= a + 1 {
      forall now, steps, j | LookDue(t, now, steps, j, source, a, b) ensures NamesFaithful(Run(t, now, steps), source, a) {
        AnswersFaithful(t, now, steps, source, a - SIGNAL_WINDOW_SEC);
      }
      forall now, steps, j | TestDue(t, now, steps, j, source, a, b) ensures ActivityFaithful(Run(t, now, steps), source, a) {
        AnswersFaithful(t, now, steps, source, a - SIGNAL_WINDOW_SEC);
      }
    } else {
      hide LookDue, TestDue, NamesFaithful, ActivityFaithful;
      var look := LateTrimHidesASignal(t, source, a, b);
      var test := LateTrimHidesActivity(t, source, a, b);
    }
  }
}
