/**
  Runs of whole scorer calls and decay ticks under a clock that never goes back: pruning the window
  changes nothing, the recidivism counts are conserved, and quiet sources decay on schedule.
 */
module ScoreHistory {
  import opened Labels
  import opened SignalLog
  import Court
  import opened TierRules
  import opened Scoring

  datatype Book = Book(now: int, rows: map<string, Threat>, signals: seq<Signal>)

  datatype Event =
    | Wait(dt: nat)
    | Arrive(source: string, name: string, base: real, looked: int)
    | DecayTick(locked: bool, scanned: set<string>)

  function Trimmed(signals: seq<Signal>, now: int, pruning: bool): seq<Signal> {
    if pruning then Pruned(signals, now - SIGNAL_WINDOW_SEC) else signals
  }

  /** scorer_process. */
  function AfterSignal(t: Court.Tiers, b: Book, source: string, name: string, base: real, looked: int, pruning: bool): Book {
    var signals := Trimmed(b.signals + [Signal(source, name, b.now)], b.now, pruning);
    var sigs := Distinct(signals, source, b.now - SIGNAL_WINDOW_SEC);
    var rec := RowOf(b.rows, source);
    var addition := Addition(Weight(base, looked), sigs, rec, TierModifier(t, source));
    Book(b.now, b.rows[source := Scored(rec, addition, b.now)], signals)
  }

  /** The row a tick leaves for a source; a source with an active signal is skipped. */
  function TickedRow(b: Book, scanned: set<string>, source: string): Threat
    requires source in b.rows
  {
    if source in scanned && !Active(b.signals, source, b.now - SIGNAL_WINDOW_SEC) then DecayedRow(b.rows[source], b.now)
    else b.rows[source]
  }

  /** decay_tick; `scanned` are the sources db_threat_all returned. */
  function AfterTick(b: Book, locked: bool, scanned: set<string>, pruning: bool): Book {
    if locked then b
    else Book(b.now, map source | source in b.rows :: TickedRow(b, scanned, source), Trimmed(b.signals, b.now, pruning))
  }

  function After(t: Court.Tiers, b: Book, e: Event, pruning: bool): Book {
    match e
    case Wait(dt) => b.(now := b.now + dt)
    case Arrive(source, name, base, looked) => AfterSignal(t, b, source, name, base, looked, pruning)
    case DecayTick(locked, scanned) => AfterTick(b, locked, scanned, pruning)
  }

  function Run(t: Court.Tiers, now: int, events: seq<Event>, pruning: bool): Book {
    if events == [] then Book(now, map[], [])
    else After(t, Run(t, now, events[..|events| - 1], pruning), events[|events| - 1], pruning)
  }

  // ---- pruning is invisible ------------------------------------------------------------------

  /** The same book but for signals too old to be asked about. */
  ghost predicate SameBut(pruned: Book, whole: Book, cutoff: int) {
    && pruned.now == whole.now && pruned.rows == whole.rows
    && pruned.signals == Pruned(whole.signals, cutoff) && cutoff <= whole.now - SIGNAL_WINDOW_SEC
  }

  lemma SignalSame(t: Court.Tiers, pruned: Book, whole: Book, cutoff: int, source: string, name: string,
                                      base: real, looked: int)
    requires SameBut(pruned, whole, cutoff)
    ensures SameBut(AfterSignal(t, pruned, source, name, base, looked, true),
                    AfterSignal(t, whole, source, name, base, looked, false), whole.now - SIGNAL_WINDOW_SEC)
  {
    hide Pruned, Distinct, Addition;
    var x, cut := Signal(source, name, whole.now), whole.now - SIGNAL_WINDOW_SEC;
    PruneAppend(whole.signals, x, cutoff);
    PruneTwice(whole.signals + [x], cutoff, cut);
    PruneInvisibleDistinct(whole.signals + [x], cut, source, cut);
  }

  lemma TickSame(pruned: Book, whole: Book, cutoff: int, locked: bool, scanned: set<string>)
    requires SameBut(pruned, whole, cutoff) && !locked
    ensures SameBut(AfterTick(pruned, locked, scanned, true), AfterTick(whole, locked, scanned, false),
                    whole.now - SIGNAL_WINDOW_SEC)
  {
    hide Pruned, Active;
    PruneTwice(whole.signals, cutoff, whole.now - SIGNAL_WINDOW_SEC);
    var a, b := AfterTick(pruned, locked, scanned, true).rows, AfterTick(whole, locked, scanned, false).rows;
    forall source | source in whole.rows ensures a[source] == b[source] {
      PruneInvisibleActive(whole.signals, cutoff, source, whole.now - SIGNAL_WINDOW_SEC);
    }
    assert a == b;
  }

  lemma {:induction false} RunSame(t: Court.Tiers, now: int, events: seq<Event>) returns (cutoff: int)
    ensures SameBut(Run(t, now, events, true), Run(t, now, events, false), cutoff)
    decreases |events|
  {
    hide SameBut, AfterSignal, AfterTick;
    if events == [] {
      cutoff := now - SIGNAL_WINDOW_SEC;
      NothingSame(now);
    } else {
      var front, e := events[..|events| - 1], events[|events| - 1];
      var c := RunSame(t, now, front);
      var pruned, whole := Run(t, now, front, true), Run(t, now, front, false);
      match e
      case Wait(dt) =>
        cutoff := c;
        WaitSame(pruned, whole, c, dt);
      case Arrive(source, name, base, looked) =>
        cutoff := whole.now - SIGNAL_WINDOW_SEC;
        SignalSame(t, pruned, whole, c, source, name, base, looked);
      case DecayTick(locked, scanned) =>
        if locked {
          cutoff := c;
          LockedSame(pruned, whole, c, scanned);
        } else {
          cutoff := whole.now - SIGNAL_WINDOW_SEC;
          TickSame(pruned, whole, c, locked, scanned);
        }
    }
  }

  lemma NothingSame(now: int)
    ensures SameBut(Book(now, map[], []), Book(now, map[], []), now - SIGNAL_WINDOW_SEC)
  {
  }

  lemma WaitSame(pruned: Book, whole: Book, cutoff: int, dt: nat)
    requires SameBut(pruned, whole, cutoff)
    ensures SameBut(pruned.(now := pruned.now + dt), whole.(now := whole.now + dt), cutoff)
  {
  }

  lemma LockedSame(pruned: Book, whole: Book, cutoff: int, scanned: set<string>)
    requires SameBut(pruned, whole, cutoff)
    ensures SameBut(AfterTick(pruned, true, scanned, true), AfterTick(whole, true, scanned, false), cutoff)
  {
  }

  /**
    Pruning is invisible: the daemon's rows are, after any run, the rows of a daemon that never deletes
    a signal, and every question about the last two minutes gets the same answer in both.
   */
  lemma {:induction false} PruningInvisible(t: Court.Tiers, now: int, events: seq<Event>, source: string, since: int)
    requires since >= Run(t, now, events, true).now - SIGNAL_WINDOW_SEC
    ensures var pruned, whole := Run(t, now, events, true), Run(t, now, events, false);
      && pruned.rows == whole.rows && pruned.now == whole.now
      && Active(pruned.signals, source, since) == Active(whole.signals, source, since)
      && Distinct(pruned.signals, source, since) == Distinct(whole.signals, source, since)
  {
    hide Run, Active, Distinct, Pruned;
    var cutoff := RunSame(t, now, events);
    PruneInvisibleActive(Run(t, now, events, false).signals, cutoff, source, since);
    PruneInvisibleDistinct(Run(t, now, events, false).signals, cutoff, source, since);
  }

  // ---- recidivism is conserved ---------------------------------------------------------------

  predicate Crosses(b: Book, next: Book, source: string, threshold: real) {
    RowOf(b.rows, source).score >= threshold > RowOf(next.rows, source).score
  }

  /** How many decay ticks took the source from the threshold or above to below it. */
  function Downs(t: Court.Tiers, now: int, events: seq<Event>, source: string, threshold: real): nat {
    if events == [] then 0
    else
      var front := events[..|events| - 1];
      Downs(t, now, front, source, threshold)
      + (if events[|events| - 1].DecayTick? && Crosses(Run(t, now, front, true), Run(t, now, events, true), source, threshold)
         then 1 else 0)
  }

  /** The counts after n ways down from 80 and m from 50. */
  predicate Conserved(rec: Threat, n: nat, m: nat) {
    && Good(rec) && rec.jails == n + Above(rec, THRESH_JAILED)
    && rec.quarantines <= m + Above(rec, THRESH_QUARANTINED)
  }

  lemma ScoringConserves(rec: Threat, addition: real, now: int, n: nat, m: nat)
    requires Conserved(rec, n, m) && addition > 0.0
    ensures Conserved(Scored(rec, addition, now), n, m)
  {
    ScoredIsGood(rec, addition, now);
  }

  lemma DecayConserves(rec: Threat, now: int, n: nat, m: nat)
    requires Conserved(rec, n, m)
    ensures var next := DecayedRow(rec, now);
      Conserved(next, n + (if rec.score >= THRESH_JAILED > next.score then 1 else 0),
                m + (if rec.score >= THRESH_QUARANTINED > next.score then 1 else 0))
  {
    DecayedIsGood(rec, now);
  }

  lemma SignalRow(t: Court.Tiers, b: Book, e: Event, source: string) returns (addition: real)
    requires e.Arrive?
    ensures addition > 0.0
    ensures RowOf(After(t, b, e, true).rows, source)
         == if source == e.source then Scored(RowOf(b.rows, source), addition, b.now) else RowOf(b.rows, source)
  {
    hide Addition, Pruned, Distinct, Scored;
    var signals := Trimmed(b.signals + [Signal(e.source, e.name, b.now)], b.now, true);
    var sigs := Distinct(signals, e.source, b.now - SIGNAL_WINDOW_SEC);
    var rec := RowOf(b.rows, e.source);
    AdditionPositive(e.base, e.looked, sigs, rec, t, e.source);
    addition := Addition(Weight(e.base, e.looked), sigs, rec, TierModifier(t, e.source));
  }

  lemma TickRow(t: Court.Tiers, b: Book, e: Event, source: string)
    requires e.DecayTick?
    ensures RowOf(After(t, b, e, true).rows, source) == RowOf(b.rows, source)
         || RowOf(After(t, b, e, true).rows, source) == DecayedRow(RowOf(b.rows, source), b.now)
  {
    hide Pruned, Active;
  }

  /**
    Conservation from an empty table: prior_jails is the number of decays that took the source from 80
    or more to below 80, plus one while its score is at 80 or more; prior_quarantines never exceeds the
    number of such decays through 50 by more than one.
   */
  lemma {:induction false} RecidivismConserved(t: Court.Tiers, now: int, events: seq<Event>, source: string)
    ensures Conserved(RowOf(Run(t, now, events, true).rows, source), Downs(t, now, events, source, THRESH_JAILED),
                      Downs(t, now, events, source, THRESH_QUARANTINED))
    decreases |events|
  {
    hide Conserved, After, Scored, DecayedRow;
    if events == [] {
      NewConserved();
    } else {
      var front, e := events[..|events| - 1], events[|events| - 1];
      var b := Run(t, now, front, true);
      var n, m := Downs(t, now, front, source, THRESH_JAILED), Downs(t, now, front, source, THRESH_QUARANTINED);
      RecidivismConserved(t, now, front, source);
      match e
      case Wait(dt) => WaitRow(t, b, e, source);
      case Arrive(_, _, _, _) =>
        var addition := SignalRow(t, b, e, source);
        ScoringConserves(RowOf(b.rows, source), addition, b.now, n, m);
      case DecayTick(_, _) =>
        TickRow(t, b, e, source);
        DecayConserves(RowOf(b.rows, source), b.now, n, m);
    }
  }

  lemma WaitRow(t: Court.Tiers, b: Book, e: Event, source: string)
    requires e.Wait?
    ensures RowOf(After(t, b, e, true).rows, source) == RowOf(b.rows, source)
  {
  }

  lemma NewConserved()
    ensures Conserved(NEW_THREAT, 0, 0)
  {
  }

  // ---- decay on schedule ---------------------------------------------------------------------

  /** The ticks of a history that reach a source: unlocked, and its row among those scanned. */
  function Reaching(events: seq<Event>, source: string): nat {
    if events == [] then 0
    else
      var e := events[|events| - 1];
      Reaching(events[..|events| - 1], source) + (if e.DecayTick? && !e.locked && source in e.scanned then 1 else 0)
  }

  /** Nothing arrives from the source. */
  predicate Silent(events: seq<Event>, source: string) {
    forall k :: 0 <= k < |events| && events[k].Arrive? ==> events[k].source != source
  }

  /** A source with a good row and no signal in the last two minutes. */
  predicate Quiet(b: Book, source: string) {
    source in b.rows && Good(b.rows[source]) && !Active(b.signals, source, b.now - SIGNAL_WINDOW_SEC)
  }

  lemma QuietLater(signals: seq<Signal>, source: string, since: int, later: int)
    requires !Active(signals, source, since) && since <= later
    ensures !Active(signals, source, later)
  {
  }

  lemma QuietPruned(signals: seq<Signal>, source: string, since: int, cutoff: int)
    requires !Active(signals, source, since)
    ensures !Active(Pruned(signals, cutoff), source, since)
  {
    hide Pruned, Active;
    PrunedHolds(signals, cutoff);
    ActiveMeans(signals, source, since);
    ActiveMeans(Pruned(signals, cutoff), source, since);
  }

  lemma QuietAmong(signals: seq<Signal>, x: Signal, source: string, since: int)
    requires !Active(signals, source, since) && x.source != source
    ensures !Active(signals + [x], source, since)
  {
  }

  lemma QuietArrival(t: Court.Tiers, b: Book, e: Event, source: string)
    requires Quiet(b, source) && e.Arrive? && e.source != source
    ensures Quiet(After(t, b, e, true), source) && After(t, b, e, true).rows[source] == b.rows[source]
  {
    hide Active, Pruned, Distinct, Addition, Scored, Good;
    var x := Signal(e.source, e.name, b.now);
    QuietAmong(b.signals, x, source, b.now - SIGNAL_WINDOW_SEC);
    QuietPruned(b.signals + [x], source, b.now - SIGNAL_WINDOW_SEC, b.now - SIGNAL_WINDOW_SEC);
  }

  lemma QuietTick(t: Court.Tiers, b: Book, e: Event, source: string)
    requires Quiet(b, source) && e.DecayTick?
    ensures Quiet(After(t, b, e, true), source)
    ensures After(t, b, e, true).rows[source]
         == if !e.locked && source in e.scanned then DecayedRow(b.rows[source], b.now) else b.rows[source]
  {
    hide Active, Pruned, DecayedRow, Good;
    QuietPruned(b.signals, source, b.now - SIGNAL_WINDOW_SEC, b.now - SIGNAL_WINDOW_SEC);
    DecayedIsGood(b.rows[source], b.now);
  }

  lemma QuietWait(t: Court.Tiers, b: Book, e: Event, source: string)
    requires Quiet(b, source) && e.Wait?
    ensures Quiet(After(t, b, e, true), source) && After(t, b, e, true).rows[source] == b.rows[source]
  {
    QuietLater(b.signals, source, b.now - SIGNAL_WINDOW_SEC, b.now + e.dt - SIGNAL_WINDOW_SEC);
  }

  lemma RunOneMore(t: Court.Tiers, now: int, before: seq<Event>, more: seq<Event>)
    requires more != []
    ensures Run(t, now, before + more, true)
         == After(t, Run(t, now, before + more[..|more| - 1], true), more[|more| - 1], true)
  {
    var all := before + more;
    assert all[..|all| - 1] == before + more[..|more| - 1];
  }

  /**
    In any run, a quiet source from which nothing more arrives follows the schedule of the ticks that
    reach it, whatever else arrives, waits or is locked out in between; its rank never rises.
   */
  lemma {:induction false} QuietSourceDecays(t: Court.Tiers, now: int, before: seq<Event>, more: seq<Event>, source: string)
    requires Quiet(Run(t, now, before, true), source) && Silent(more, source)
    ensures var b, r := Run(t, now, before, true), Run(t, now, before + more, true);
      && Quiet(r, source) && r.rows[source].score == Ticks(b.rows[source].score, Reaching(more, source))
      && StateRank(r.rows[source].state) <= StateRank(b.rows[source].state)
    decreases |more|
  {
    hide Run, After, Quiet, DecayedRow, Good;
    var b := Run(t, now, before, true);
    if more == [] {
      assert before + more == before;
    } else {
      var front, e := more[..|more| - 1], more[|more| - 1];
      QuietSourceDecays(t, now, before, front, source);
      RunOneMore(t, now, before, more);
      var r := Run(t, now, before + front, true);
      match e
      case Wait(_) => QuietWait(t, r, e, source);
      case Arrive(_, _, _, _) => QuietArrival(t, r, e, source);
      case DecayTick(_, _) =>
        QuietTick(t, r, e, source);
        QuietIsGood(r, source);
        DecayedIsGood(r.rows[source], r.now);
        DecayedScores(r.rows[source], r.now);
    }
  }

  lemma QuietIsGood(b: Book, source: string)
    requires Quiet(b, source)
    ensures source in b.rows && Good(b.rows[source])
  {
  }

  lemma DecayedScores(rec: Threat, now: int)
    ensures DecayedRow(rec, now).score == DecayedScore(rec.score)
  {
  }

  /** Forty-two ticks that reach a quiet source clear it. */
  lemma {:induction false} QuietSourceClears(t: Court.Tiers, now: int, before: seq<Event>, more: seq<Event>, source: string)
    requires Quiet(Run(t, now, before, true), source) && Silent(more, source) && Reaching(more, source) == 42
    ensures var r := Run(t, now, before + more, true);
      source in r.rows && r.rows[source].score == 0.0 && r.rows[source].state == Clean
  {
    hide Run, Ticks, Reaching, Active, Silent;
    QuietSourceDecays(t, now, before, more, source);
    FortyTwoTicksClean(Run(t, now, before, true).rows[source].score);
  }
}
