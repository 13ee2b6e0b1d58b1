/**
  Whole calls are schedules of the interleaved machine: every history of whole scorer calls and decay
  ticks is the outcome of a run in which no call overlaps another.
 */
module ScoreCalls {
  import opened Labels
  import opened SignalLog
  import Court
  import opened TierRules
  import opened Scoring
  import T = ScoreThreads
  import R = ScoreRaces
  import opened ScoreHistory

  /** The tables of the interleaved machine. */
  function BookOf(s: T.Board): Book {
    Book(s.now, s.rows, s.signals)
  }

  ghost predicate Reaches(t: Court.Tiers, now: int, steps: seq<T.Step>, s: T.Board) {
    T.CanRun(t, now, steps) && T.Run(t, now, steps) == s
  }

  lemma Step(t: Court.Tiers, now: int, steps: seq<T.Step>, s: T.Board, st: T.Step) returns (more: seq<T.Step>)
    requires Reaches(t, now, steps, s) && T.Enabled(s, st)
    ensures Reaches(t, now, more, T.Next(t, s, st))
  {
    more := R.Extend(t, now, steps, st);
  }

  // ---- a scorer call -------------------------------------------------------------------------

  lemma {:induction false} SignalCall(t: Court.Tiers, now: int, before: seq<T.Step>, s: T.Board, e: Event)
    returns (steps: seq<T.Step>, r: T.Board)
    requires Reaches(t, now, before, s) && s.jobs == map[] && e.Arrive?
    ensures Reaches(t, now, steps, r) && r.jobs == map[] && BookOf(r) == After(t, BookOf(s), e, true)
  {
    hide Reaches, Addition, Pruned, Distinct, Scored, TierModifier;
    steps := Step(t, now, before, s, T.Load(0, e.source, e.name, e.base, e.looked));
    var a := T.Next(t, s, T.Load(0, e.source, e.name, e.base, e.looked));
    steps := Step(t, now, steps, a, T.Note(0));
    var b := T.Next(t, a, T.Note(0));
    steps := Step(t, now, steps, b, T.Trim(0));
    var c := T.Next(t, b, T.Trim(0));
    steps := Step(t, now, steps, c, T.Look(0));
    var d := T.Next(t, c, T.Look(0));
    steps := Step(t, now, steps, d, T.Store(0));
    r := T.Next(t, d, T.Store(0));
  }

  // ---- a decay tick --------------------------------------------------------------------------

  /** The sources of a scan. */
  ghost function Sources(todo: seq<(string, Threat)>): set<string> {
    set k | 0 <= k < |todo| :: todo[k].0
  }

  /** A tick over the scan is under way: the rows before position i are handled. */
  ghost predicate HalfTicked(b: Book, todo: seq<(string, Threat)>, i: nat, s: T.Board)
    requires i <= |todo| && T.Scan(b.rows, todo)
  {
    && s.jobs == map[0 := T.Decayer(todo[i..], b.now, false)]
    && s.now == b.now && s.signals == b.signals && s.rows.Keys == b.rows.Keys
    && forall source :: source in b.rows ==>
         s.rows[source] == if source in Sources(todo[..i]) then TickedRow(b, b.rows.Keys, source) else b.rows[source]
  }

  lemma SourcesGrow(todo: seq<(string, Threat)>, i: nat)
    requires i < |todo|
    ensures Sources(todo[..i + 1]) == Sources(todo[..i]) + {todo[i].0}
  {
    var a, b := todo[..i + 1], todo[..i];
    forall x ensures x in Sources(a) <==> x in Sources(b) || x == todo[i].0 {
      if x in Sources(b) {
        var k :| 0 <= k < |b| && b[k].0 == x;
        assert a[k] == b[k];
      }
      if x == todo[i].0 {
        assert a[i].0 == x;
      }
      if x in Sources(a) {
        var k :| 0 <= k < |a| && a[k].0 == x;
        assert k < i ==> b[k] == a[k];
      }
    }
  }

  lemma {:induction false} Handle(t: Court.Tiers, now: int, before: seq<T.Step>, b: Book, todo: seq<(string, Threat)>, i: nat, s: T.Board)
    returns (steps: seq<T.Step>, r: T.Board)
    requires Reaches(t, now, before, s) && T.Scan(b.rows, todo) && i < |todo| && HalfTicked(b, todo, i, s)
    ensures Reaches(t, now, steps, r) && HalfTicked(b, todo, i + 1, r)
  {
    hide Reaches, Active, DecayedRow, Sources;
    SourcesGrow(todo, i);
    assert todo[i..][0] == todo[i] && todo[i..][1..] == todo[i + 1..];
    if T.Answer(s, 0) {
      steps := Step(t, now, before, s, T.Skip(0));
      r := T.Next(t, s, T.Skip(0));
    } else {
      steps := Step(t, now, before, s, T.Pass(0));
      var p := T.Next(t, s, T.Pass(0));
      steps := Step(t, now, steps, p, T.Lower(0));
      r := T.Next(t, p, T.Lower(0));
    }
    assert r.jobs == map[0 := T.Decayer(todo[i + 1..], b.now, false)];
  }

  lemma {:induction false} HandleAll(t: Court.Tiers, now: int, before: seq<T.Step>, b: Book, todo: seq<(string, Threat)>, i: nat, s: T.Board)
    returns (steps: seq<T.Step>, r: T.Board)
    requires Reaches(t, now, before, s) && T.Scan(b.rows, todo) && i <= |todo| && HalfTicked(b, todo, i, s)
    ensures Reaches(t, now, steps, r) && HalfTicked(b, todo, |todo|, r)
    decreases |todo| - i
  {
    hide Reaches, HalfTicked, T.Scan;
    if i == |todo| {
      steps, r := before, s;
    } else {
      steps, r := Handle(t, now, before, b, todo, i, s);
      steps, r := HandleAll(t, now, steps, b, todo, i + 1, r);
    }
  }

  lemma TickCall(t: Court.Tiers, now: int, before: seq<T.Step>, s: T.Board, todo: seq<(string, Threat)>)
    returns (steps: seq<T.Step>, r: T.Board)
    requires Reaches(t, now, before, s) && s.jobs == map[] && T.Scan(s.rows, todo)
    ensures Reaches(t, now, steps, r) && r.jobs == map[]
    ensures BookOf(r) == AfterTick(BookOf(s), false, Sources(todo), true)
  {
    hide Reaches, Active, DecayedRow, Pruned;
    var b := BookOf(s);
    steps := Step(t, now, before, s, T.Begin(0, todo));
    var begun := T.Next(t, s, T.Begin(0, todo));
    assert todo[0..] == todo && todo[..0] == [] && todo[..|todo|] == todo && todo[|todo|..] == [];
    steps, r := HandleAll(t, now, steps, b, todo, 0, begun);
    var all := r;
    steps := Step(t, now, steps, all, T.Finish(0));
    r := T.Next(t, all, T.Finish(0));
    assert r.rows == AfterTick(b, false, Sources(todo), true).rows;
  }

  // ---- histories -----------------------------------------------------------------------------

  /** The rows of a set of sources can be scanned in some order. */
  lemma {:induction false} ScanOfSet(rows: map<string, Threat>, sources: set<string>) returns (todo: seq<(string, Threat)>)
    requires sources <= rows.Keys && |sources| <= MAX_ROWS
    ensures T.Scan(rows, todo) && Sources(todo) == sources && |todo| == |sources|
    decreases |sources|
  {
    assert Sources([]) == {};
    hide Sources, T.Scan;
    assert T.Scan(rows, []) by { NothingScanned(rows); }
    if sources == {} {
      todo := [];
    } else {
      var x :| x in sources;
      var front := ScanOfSet(rows, sources - {x});
      todo := front + [(x, rows[x])];
      ScanSnoc(rows, front, x);
    }
  }

  lemma NothingScanned(rows: map<string, Threat>)
    ensures T.Scan(rows, [])
  {
  }

  lemma ScanSnoc(rows: map<string, Threat>, front: seq<(string, Threat)>, x: string)
    requires T.Scan(rows, front) && |front| < MAX_ROWS && x in rows && x !in Sources(front)
    ensures T.Scan(rows, front + [(x, rows[x])]) && Sources(front + [(x, rows[x])]) == Sources(front) + {x}
  {
    var todo := front + [(x, rows[x])];
    assert todo[..|front|] == front && todo[..|front| + 1] == todo;
    SourcesGrow(todo, |front|);
    assert forall k :: 0 <= k < |front| ==> front[k].0 in Sources(front);
    hide Sources;
  }

  /** What a tick can get from the table: some of its rows, at most 512. */
  ghost predicate Scannable(t: Court.Tiers, now: int, events: seq<Event>) {
    events != [] ==>
      && Scannable(t, now, events[..|events| - 1])
      && var e := events[|events| - 1];
         e.DecayTick? && !e.locked ==>
           e.scanned <= Run(t, now, events[..|events| - 1], true).rows.Keys && |e.scanned| <= MAX_ROWS
  }

  /** Every history of whole calls and ticks is a run of the interleaved machine, with the same rows, window and clock. */
  lemma {:induction false} HistoryIsASchedule(t: Court.Tiers, now: int, events: seq<Event>) returns (steps: seq<T.Step>, s: T.Board)
    requires Scannable(t, now, events)
    ensures Reaches(t, now, steps, s) && s.jobs == map[] && BookOf(s) == Run(t, now, events, true)
    decreases |events|
  {
    hide Reaches, AfterSignal, AfterTick;
    if events == [] {
      steps, s := [], T.Start(now);
      Nothing(t, now);
    } else {
      var front, e := events[..|events| - 1], events[|events| - 1];
      steps, s := HistoryIsASchedule(t, now, front);
      match e
      case Wait(dt) =>
        steps := Step(t, now, steps, s, T.Tick(dt));
        s := T.Next(t, s, T.Tick(dt));
      case Arrive(_, _, _, _) =>
        steps, s := SignalCall(t, now, steps, s, e);
      case DecayTick(locked, scanned) =>
        if locked {
          LockedTick(BookOf(s), scanned);
        } else {
          var todo := ScanOfSet(s.rows, scanned);
          steps, s := TickCall(t, now, steps, s, todo);
        }
    }
  }

  lemma Nothing(t: Court.Tiers, now: int)
    ensures Reaches(t, now, [], T.Start(now))
  {
  }

  lemma LockedTick(b: Book, scanned: set<string>)
    ensures AfterTick(b, true, scanned, true) == b
  {
  }
}
