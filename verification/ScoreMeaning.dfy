/**
  What a scorer call and a decay tick do to a row, told from the history of arrivals alone: which signals of
  the last two minutes count, what they add, and whom a tick spares.
 */
module ScoreMeaning {
  import opened Labels
  import opened SignalLog
  import Court
  import opened TierRules
  import opened Scoring
  import opened ScoreHistory

  /** The time after a history. */
  function Clock(now: int, events: seq<Event>): int {
    if events == [] then now
    else Clock(now, events[..|events| - 1]) + (if events[|events| - 1].Wait? then events[|events| - 1].dt else 0)
  }

  /** Every signal that ever arrived, with its time. */
  function Noted(now: int, events: seq<Event>): seq<Signal> {
    if events == [] then []
    else
      var front, last := events[..|events| - 1], events[|events| - 1];
      Noted(now, front) + (if last.Arrive? then [Signal(last.source, last.name, Clock(now, front))] else [])
  }

  /** A daemon that never deletes holds exactly the signals that arrived. */
  lemma {:induction false} RunNotes(t: Court.Tiers, now: int, events: seq<Event>)
    ensures Run(t, now, events, false).signals == Noted(now, events)
    ensures Run(t, now, events, false).now == Clock(now, events)
  {
    hide Distinct, Addition, Scored, Active;
    if events != [] {
      RunNotes(t, now, events[..|events| - 1]);
    }
  }

  lemma OneMore(t: Court.Tiers, now: int, events: seq<Event>, e: Event)
    ensures Run(t, now, events + [e], true) == After(t, Run(t, now, events, true), e, true)
    ensures Noted(now, events + [e])
         == Noted(now, events) + (if e.Arrive? then [Signal(e.source, e.name, Clock(now, events))] else [])
    ensures Clock(now, events + [e]) == Clock(now, events) + (if e.Wait? then e.dt else 0)
  {
    assert (events + [e])[..|events|] == events;
  }

  /** The different names under which a source has been reported in the last two minutes. */
  ghost function RecentNames(now: int, events: seq<Event>, source: string): set<string> {
    NamesSince(Noted(now, events), source, Clock(now, events) - SIGNAL_WINDOW_SEC)
  }

  /** A scorer call looks at the names that have arrived, its own included, whatever has been deleted since. */
  lemma SigsOf(t: Court.Tiers, now: int, events: seq<Event>, e: Event) returns (sigs: seq<string>)
    requires e.Arrive?
    ensures After(t, Run(t, now, events, true), e, true)
         == AfterSignal(t, Run(t, now, events, true), e.source, e.name, e.base, e.looked, true)
    ensures var b := Run(t, now, events, true);
      && b.now == Clock(now, events)
      && sigs == Distinct(Trimmed(b.signals + [Signal(e.source, e.name, b.now)], b.now, true), e.source, b.now - SIGNAL_WINDOW_SEC)
      && sigs == Distinct(Noted(now, events + [e]), e.source, Clock(now, events + [e]) - SIGNAL_WINDOW_SEC)
  {
    hide Run, Distinct, Pruned;
    var b, whole := Run(t, now, events, true), Run(t, now, events, false);
    var cutoff := RunSame(t, now, events);
    RunNotes(t, now, events);
    OneMore(t, now, events, e);
    var x, cut := Signal(e.source, e.name, b.now), b.now - SIGNAL_WINDOW_SEC;
    PruneAppend(whole.signals, x, cutoff);
    PruneTwice(whole.signals + [x], cutoff, cut);
    PruneInvisibleDistinct(whole.signals + [x], cut, e.source, cut);
    sigs := Distinct(Trimmed(b.signals + [x], b.now, true), e.source, cut);
  }

  /** The names a call looks at are those of the last two minutes, if there are no more than sixteen. */
  lemma ArrivalRows(t: Court.Tiers, now: int, events: seq<Event>, e: Event) returns (sigs: seq<string>)
    requires e.Arrive? && |RecentNames(now, events + [e], e.source)| <= DISTINCT_LIMIT
    ensures var names := RecentNames(now, events + [e], e.source);
            (forall s :: s in names <==> s in sigs) && |names| == |sigs|
    ensures var rows := Run(t, now, events, true).rows;
      var rec := RowOf(rows, e.source);
      Run(t, now, events + [e], true).rows
      == rows[e.source := Scored(rec, Addition(Weight(e.base, e.looked), sigs, rec, TierModifier(t, e.source)), Clock(now, events))]
  {
    hide Run, Distinct, Pruned, Noted, Clock, NamesSince, Addition, Scored, AfterSignal;
    sigs := SigsOf(t, now, events, e);
    OneMore(t, now, events, e);
    SignalRows(t, Run(t, now, events, true), e, sigs);
    DistinctExactly(Noted(now, events + [e]), e.source, Clock(now, events + [e]) - SIGNAL_WINDOW_SEC);
  }

  lemma SignalRows(t: Court.Tiers, b: Book, e: Event, sigs: seq<string>)
    requires e.Arrive?
    requires sigs == Distinct(Trimmed(b.signals + [Signal(e.source, e.name, b.now)], b.now, true), e.source, b.now - SIGNAL_WINDOW_SEC)
    ensures var rec := RowOf(b.rows, e.source);
      AfterSignal(t, b, e.source, e.name, e.base, e.looked, true).rows
      == b.rows[e.source := Scored(rec, Addition(Weight(e.base, e.looked), sigs, rec, TierModifier(t, e.source)), b.now)]
  {
    hide Distinct, Pruned, Addition, Scored, Trimmed;
  }

  /**
    What an arrival does to the row of its source, in any history: the score rises by the weight times the strength of
    the strongest pattern among the names of the last two minutes, times 1.2 if there are three, times the gravity
    of the record before it, times the damping of the source, and stops at 100.
   */
  lemma {:induction false} ArrivalScores(t: Court.Tiers, now: int, events: seq<Event>, e: Event,
                                         p: Pattern, st: Standing, w: real, d: real)
    requires e.Arrive?
    requires var names := RecentNames(now, events + [e], e.source); |names| <= DISTINCT_LIMIT && Strongest(names, p)
    requires var rec := RowOf(Run(t, now, events, true).rows, e.source); Worst(rec.jails, rec.quarantines, st)
    requires Weighs(e.base, e.looked, w) && Damps(t, e.source, d)
    ensures var rec := RowOf(Run(t, now, events, true).rows, e.source);
      var next := RowOf(Run(t, now, events + [e], true).rows, e.source);
      var names := RecentNames(now, events + [e], e.source);
      var raised := rec.score + Five(w, Strength(p), if |names| >= 3 then 1.20 else 1.00, Gravity(st), d);
      && next.score == (if raised > 100.0 then 100.0 else raised) && next.state == ScoreToState(next.score)
      && next.jails == rec.jails + (if rec.score < 80.0 <= next.score then 1 else 0)
      && next.quarantines == rec.quarantines + (if rec.score < 50.0 <= next.score < 70.0 then 1 else 0)
    ensures forall source :: source != e.source ==>
      RowOf(Run(t, now, events + [e], true).rows, source) == RowOf(Run(t, now, events, true).rows, source)
  {
    var sigs := ArrivalRows(t, now, events, e);
    RecidivismConserved(t, now, events, e.source);
    var rec, names := RowOf(Run(t, now, events, true).rows, e.source), RecentNames(now, events + [e], e.source);
    var addition := Addition(Weight(e.base, e.looked), sigs, rec, TierModifier(t, e.source));
    AdditionPositive(e.base, e.looked, sigs, rec, t, e.source);
    hide Run, RecentNames, Clock, Strongest, Worst, Addition, Scored, Weighs, Damps, Five;
    AdditionIs(t, e.source, e.base, e.looked, sigs, names, rec, p, st, w, d);
    ScoredIs(rec, addition, Clock(now, events));
    ScoredIsGood(rec, addition, Clock(now, events));
  }

  /** Two prior jails double what a signal adds: the record says so once the score has come down from 80 twice. */
  lemma {:induction false} RepeatOffender(t: Court.Tiers, now: int, events: seq<Event>, source: string)
    ensures var rec := RowOf(Run(t, now, events, true).rows, source);
      Worst(rec.jails, rec.quarantines, RepeatedlyJailed) <==>
        Downs(t, now, events, source, 80.0) + (if rec.score >= 80.0 then 1 else 0) >= 2
  {
    hide Run, Downs;
    RecidivismConserved(t, now, events, source);
  }

  /** A tick lowers exactly the scanned rows of sources from which nothing has arrived for two minutes; the lock stops it. */
  lemma {:induction false} TickLowers(t: Court.Tiers, now: int, events: seq<Event>, e: Event, source: string)
    requires e.DecayTick? && source in Run(t, now, events, true).rows
    ensures var rec := Run(t, now, events, true).rows[source];
      var next := RowOf(Run(t, now, events + [e], true).rows, source);
      var since := Clock(now, events) - SIGNAL_WINDOW_SEC;
      if !e.locked && source in e.scanned && RecentNames(now, events, source) == {} then
        && next.score == (if rec.score * 0.88 < 0.5 then 0.0 else rec.score * 0.88) && next.state == ScoreToState(next.score)
        && next.jails == rec.jails && next.quarantines == rec.quarantines
      else next == rec
  {
    OneMore(t, now, events, e);
    var cutoff := RunSame(t, now, events);
    RunNotes(t, now, events);
    var b := Run(t, now, events, true);
    var since := b.now - SIGNAL_WINDOW_SEC;
    PruneInvisibleActive(Noted(now, events), cutoff, source, since);
    ActiveNamed(Noted(now, events), source, since);
    hide Run, Active, Pruned, Noted, NamesSince;
  }

  /** A source is active exactly when it has a name in the window. */
  lemma ActiveNamed(window: seq<Signal>, source: string, since: int)
    ensures Active(window, source, since) <==> NamesSince(window, source, since) != {}
  {
    ActiveMeans(window, source, since);
    if Active(window, source, since) {
      var x :| x in window && x.source == source && x.epoch > since;
      assert x.name in NamesSince(window, source, since);
    }
    if NamesSince(window, source, since) != {} {
      var name :| name in NamesSince(window, source, since);
    }
  }
}
