/**
  Scorer calls and decay ticks of any number of threads, interleaved between any two database calls:
  what holds of every stored row without any locking around load and upsert, and what does not.
 */
module ScoreThreads {
  import opened Labels
  import opened SignalLog
  import Court
  import opened TierRules
  import opened Scoring

  /** How far a scorer call has come. */
  datatype Phase = Loaded | Noted | Trimmed | Looked(sigs: seq<string>)

  datatype Job =
    | Scorer(source: string, name: string, weight: real, rec: Threat, start: int, phase: Phase)
    | Decayer(todo: seq<(string, Threat)>, start: int, quiet: bool)  // quiet: the next source was found without a signal

  /** What a finished scorer call reports. */
  datatype Outcome = Outcome(addition: real, delta: real)

  datatype Board = Board(
    now: int,
    rows: map<string, Threat>,
    signals: seq<Signal>,
    jobs: map<nat, Job>,
    outcomes: seq<Outcome>,
    downs: map<string, nat>,   // how often a decay took a source from 80 or more to below
    falls: map<string, nat>,   // the same for 50
    observed: seq<Signal>,     // every signal ever noted
    cutoff: int)               // the latest time anything was deleted before

  datatype Step =
    | Tick(dt: nat)
    | Load(j: nat, source: string, name: string, base: real, looked: int)
    | Note(j: nat)
    | Trim(j: nat)
    | Look(j: nat)
    | Store(j: nat)
    | Begin(j: nat, todo: seq<(string, Threat)>)
    | Skip(j: nat)
    | Pass(j: nat)
    | Lower(j: nat)
    | Finish(j: nat)

  function Start(now: int): Board {
    Board(now, map[], [], map[], [], map[], map[], [], now - SIGNAL_WINDOW_SEC)
  }

  function DownsOf(downs: map<string, nat>, source: string): nat {
    if source in downs then downs[source] else 0
  }

  function Counted(downs: map<string, nat>, source: string, rec: Threat, next: Threat, threshold: real): map<string, nat> {
    if rec.score >= threshold > next.score then downs[source := DownsOf(downs, source) + 1] else downs
  }

  predicate ScorerAt(s: Board, j: nat) {
    j in s.jobs && s.jobs[j].Scorer?
  }

  predicate DecayerAt(s: Board, j: nat) {
    j in s.jobs && s.jobs[j].Decayer?
  }

  /** db_threat_all: some of the rows, at most 512, none of them twice. */
  ghost predicate Scan(rows: map<string, Threat>, todo: seq<(string, Threat)>) {
    && |todo| <= MAX_ROWS
    && (forall k :: 0 <= k < |todo| ==> todo[k].0 in rows && rows[todo[k].0] == todo[k].1)
    && (forall i, k :: 0 <= i < k < |todo| ==> todo[i].0 != todo[k].0)
  }

  predicate Asking(job: Job) {
    job.Decayer? && job.todo != [] && !job.quiet
  }

  /** db_signal_active for the next row of a decay tick. */
  predicate Answer(s: Board, j: nat)
    requires DecayerAt(s, j) && Asking(s.jobs[j])
  {
    Active(s.signals, s.jobs[j].todo[0].0, s.jobs[j].start - SIGNAL_WINDOW_SEC)
  }

  ghost predicate Enabled(s: Board, st: Step) {
    match st
    case Tick(_) => true
    case Load(j, _, _, _, _) => j !in s.jobs
    case Note(j) => ScorerAt(s, j) && s.jobs[j].phase == Loaded
    case Trim(j) => ScorerAt(s, j) && s.jobs[j].phase == Noted
    case Look(j) => ScorerAt(s, j) && s.jobs[j].phase == Trimmed
    case Store(j) => ScorerAt(s, j) && s.jobs[j].phase.Looked?
    case Begin(j, todo) => j !in s.jobs && Scan(s.rows, todo)
    case Skip(j) => DecayerAt(s, j) && Asking(s.jobs[j]) && Answer(s, j)
    case Pass(j) => DecayerAt(s, j) && Asking(s.jobs[j]) && !Answer(s, j)
    case Lower(j) => DecayerAt(s, j) && s.jobs[j].todo != [] && s.jobs[j].quiet
    case Finish(j) => DecayerAt(s, j) && s.jobs[j].todo == []
  }

  function Stored(t: Court.Tiers, s: Board, j: nat): Board
    requires ScorerAt(s, j) && s.jobs[j].phase.Looked?
  {
    var job := s.jobs[j];
    var addition := Addition(job.weight, job.phase.sigs, job.rec, TierModifier(t, job.source));
    var rec := Scored(job.rec, addition, job.start);
    s.(rows := s.rows[job.source := rec], jobs := s.jobs - {j},
       outcomes := s.outcomes + [Outcome(addition, rec.score - job.rec.score)])
  }

  function Lowered(s: Board, j: nat): Board
    requires DecayerAt(s, j) && s.jobs[j].todo != []
  {
    var job := s.jobs[j];
    var (source, rec) := job.todo[0];
    var next := DecayedRow(rec, job.start);
    s.(rows := s.rows[source := next], jobs := s.jobs[j := job.(todo := job.todo[1..], quiet := false)],
       downs := Counted(s.downs, source, rec, next, THRESH_JAILED),
       falls := Counted(s.falls, source, rec, next, THRESH_QUARANTINED))
  }

  /** db_signal_prune by a call that started at the given time. */
  function Cut(s: Board, start: int): Board {
    var cutoff := start - SIGNAL_WINDOW_SEC;
    s.(signals := Pruned(s.signals, cutoff), cutoff := if cutoff > s.cutoff then cutoff else s.cutoff)
  }

  function Next(t: Court.Tiers, s: Board, st: Step): Board
    requires Enabled(s, st)
  {
    match st
    case Tick(dt) => s.(now := s.now + dt)
    case Load(j, source, name, base, looked) =>
      s.(jobs := s.jobs[j := Scorer(source, name, Weight(base, looked), RowOf(s.rows, source), s.now, Loaded)])
    case Note(j) =>
      var job := s.jobs[j];
      var x := Signal(job.source, job.name, job.start);
      s.(signals := s.signals + [x], observed := s.observed + [x], jobs := s.jobs[j := job.(phase := Noted)])
    case Trim(j) => Cut(s, s.jobs[j].start).(jobs := s.jobs[j := s.jobs[j].(phase := Trimmed)])
    case Look(j) =>
      var job := s.jobs[j];
      var sigs := Distinct(s.signals, job.source, job.start - SIGNAL_WINDOW_SEC);
      s.(jobs := s.jobs[j := job.(phase := Looked(sigs))])
    case Store(j) => Stored(t, s, j)
    case Begin(j, todo) => s.(jobs := s.jobs[j := Decayer(todo, s.now, false)])
    case Skip(j) => s.(jobs := s.jobs[j := s.jobs[j].(todo := s.jobs[j].todo[1..])])
    case Pass(j) => s.(jobs := s.jobs[j := s.jobs[j].(quiet := true)])
    case Lower(j) => Lowered(s, j)
    case Finish(j) => Cut(s, s.jobs[j].start).(jobs := s.jobs - {j})
  }

  ghost predicate CanRun(t: Court.Tiers, now: int, steps: seq<Step>)
    decreases |steps|, 0
  {
    steps == [] || (CanRun(t, now, steps[..|steps| - 1])
                    && Enabled(Run(t, now, steps[..|steps| - 1]), steps[|steps| - 1]))
  }

  ghost function Run(t: Court.Tiers, now: int, steps: seq<Step>): Board
    requires CanRun(t, now, steps)
    decreases |steps|, 1
  {
    if steps == [] then Start(now) else Next(t, Run(t, now, steps[..|steps| - 1]), steps[|steps| - 1])
  }

  // ---- what no interleaving can break --------------------------------------------------------

  predicate GoodJob(job: Job) {
    match job
    case Scorer(_, _, weight, rec, _, _) => weight > 0.0 && Good(rec)
    case Decayer(todo, _, _) => forall k :: 0 <= k < |todo| ==> Good(todo[k].1)
  }

  predicate GoodOutcome(o: Outcome) {
    0.0 <= o.delta <= o.addition
  }

  ghost predicate AllGood(s: Board) {
    && (forall source :: source in s.rows ==> Good(s.rows[source]))
    && (forall j :: j in s.jobs ==> GoodJob(s.jobs[j]))
    && (forall k :: 0 <= k < |s.outcomes| ==> GoodOutcome(s.outcomes[k]))
  }

  lemma StoredGood(t: Court.Tiers, s: Board, j: nat)
    requires AllGood(s) && ScorerAt(s, j) && s.jobs[j].phase.Looked?
    ensures AllGood(Stored(t, s, j))
  {
    var job := s.jobs[j];
    assert GoodJob(job);
    AdditionOrdered(job.weight, job.phase.sigs, job.phase.sigs, job.rec, job.rec, TierModifier(t, job.source));
    hide Addition, Scored, Good;
    ScoredIsGood(job.rec, Addition(job.weight, job.phase.sigs, job.rec, TierModifier(t, job.source)), job.start);
  }

  lemma LoweredGood(s: Board, j: nat)
    requires AllGood(s) && DecayerAt(s, j) && s.jobs[j].todo != []
    ensures AllGood(Lowered(s, j))
  {
    hide DecayedRow, Good;
    var todo := s.jobs[j].todo;
    assert GoodJob(s.jobs[j]);
    DecayedIsGood(todo[0].1, s.jobs[j].start);
    assert forall k :: 0 <= k < |todo[1..]| ==> todo[1..][k] == todo[k + 1];
  }

  lemma {:induction false} GoodKept(t: Court.Tiers, s: Board, st: Step)
    requires AllGood(s) && Enabled(s, st)
    ensures AllGood(Next(t, s, st))
  {
    hide Active, Pruned, Distinct, Addition;
    match st
    case Load(j, source, name, base, looked) => assert Good(NEW_THREAT);
    case Store(j) => StoredGood(t, s, j);
    case Lower(j) => LoweredGood(s, j);
    case Skip(j) =>
      var todo := s.jobs[j].todo;
      assert GoodJob(s.jobs[j]);
      assert forall k :: 0 <= k < |todo[1..]| ==> todo[1..][k] == todo[k + 1];
    case _ =>
  }

  /**
    Under any interleaving of scorer calls and decay ticks, every stored score lies between 0 and 100
    and carries the label of its band, and every call's own delta lies between 0 and its addition.
   */
  lemma {:induction false} EveryRowIsGood(t: Court.Tiers, now: int, steps: seq<Step>)
    requires CanRun(t, now, steps)
    ensures AllGood(Run(t, now, steps))
    decreases |steps|
  {
    hide AllGood, Next, Enabled;
    if steps == [] {
      StartGood(now);
    } else {
      EveryRowIsGood(t, now, steps[..|steps| - 1]);
      GoodKept(t, Run(t, now, steps[..|steps| - 1]), steps[|steps| - 1]);
    }
  }

  lemma StartGood(now: int)
    ensures AllGood(Start(now))
  {
  }
}
