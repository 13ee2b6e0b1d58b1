/** scorer.c and decay.c on the database, call by call. */
module ScoreDaemon {
  import opened Text
  import opened Labels
  import opened SignalLog
  import opened TierRules
  import opened Scoring
  import opened ScoreHistory
  import opened Database
  import Counting

  method SigsetHas(sigs: seq<string>, sig: string) returns (r: bool)
    ensures r == (sig in sigs)
  {
    for i := 0 to |sigs|
      invariant sig !in sigs[..i]
    {
      if sigs[i] == sig {
        return true;
      }
    }
    return false;
  }

  method CovarianceOf(sigs: seq<string>) returns (cov: real, stack: real)
    ensures cov == Covariance(sigs) && stack == StackBonus(sigs)
  {
    stack := if |sigs| >= 3 then 1.20 else 1.00;
    var integrity := SigsetHas(sigs, "INTEGRITY_VIOLATION");
    if integrity {
      return 1.80, stack;
    }
    var network := SigsetHas(sigs, "NETWORK_ANOMALY");
    var hog := SigsetHas(sigs, "CPU_HOG");
    var hogCritical := SigsetHas(sigs, "CPU_HOG_CRITICAL");
    if network && (hog || hogCritical) {
      return 1.60, stack;
    }
    var wakelock := SigsetHas(sigs, "WAKELOCK_ANOMALY");
    if wakelock && network {
      return 1.50, stack;
    }
    var thermalCritical := SigsetHas(sigs, "THERMAL_CRITICAL");
    if thermalCritical && hogCritical {
      return 1.40, stack;
    }
    var thermalWarn := SigsetHas(sigs, "THERMAL_WARN");
    if (thermalCritical || thermalWarn) && network {
      return 1.30, stack;
    }
    var throttling := SigsetHas(sigs, "CPU_THROTTLING");
    if throttling && wakelock {
      return 1.20, stack;
    }
    return 1.00, stack;
  }

  /** The new record: score clamped, counts raised on a new crossing. */
  method Raise(was: Threat, addition: real, now: int) returns (rec: Threat)
    ensures rec == Scored(was, addition, now)
  {
    rec := was;
    var score := rec.score + addition;
    if score > MAX_SCORE {
      score := MAX_SCORE;
    }
    if score < SCORE_FLOOR {
      score := SCORE_FLOOR;
    }
    var state := ScoreToState(score);
    if state == Jailed && ScoreToState(rec.score) != Jailed {
      rec := rec.(jails := rec.jails + 1);
    }
    if state == Quarantined && ScoreToState(rec.score) != Quarantined {
      rec := rec.(quarantines := rec.quarantines + 1);
    }
    rec := rec.(score := score, updated := now, state := state);
  }

  /** scorer_process: one signal, from loading the row to storing it. `looked` is the weights table's answer. */
  method Process(db: Db, list: Option<string>, source: string, name: string, base: real, looked: int, now: int)
    returns (out: Result)
    modifies db`threats, db`window
    ensures Book(now, db.threats, db.window)
         == AfterSignal(TiersOf(list), old(Book(now, db.threats, db.window)), source, name, base, looked, true)
    ensures var rec, next := old(RowOf(db.threats, source)), db.threats[source];
      out == Result(rec.score, next.score, next.state, next.score - rec.score, next.jails, next.quarantines)
  {
    hide Covariance, StackBonus, RecidivismMod, Pruned, Distinct, TiersOf, TierModifier, Scored, Product;
    var weight := base;
    if base <= 0.0 {
      weight := if looked > 0 then looked as real else 10.0;
    }
    var rec := db.ThreatLoad(source);
    db.SignalInsert(source, name, now);
    db.SignalPrune(now - SIGNAL_WINDOW_SEC);
    var sigs := db.SignalDistinct(source, now - SIGNAL_WINDOW_SEC);
    var tier := Modifier(list, source);
    var cov, stack := CovarianceOf(sigs);
    var recid := RecidivismMod(rec.jails, rec.quarantines);
    var addition := Product([weight, cov, stack, recid, tier]);
    var next := Raise(rec, addition, now);
    db.ThreatUpsert(source, next);
    out := Result(rec.score, next.score, next.state, next.score - rec.score, next.jails, next.quarantines);
  }

  /** The sources a decay tick handles: the first rows of the scan. */
  ghost function Handled(scan: seq<string>): set<string> {
    set k | 0 <= k < FirstRows(scan) :: scan[k]
  }

  function FirstRows(scan: seq<string>): (n: nat)
    ensures n <= |scan| && n <= MAX_ROWS
  {
    if |scan| < MAX_ROWS then |scan| else MAX_ROWS
  }

  /** A table of at most 512 sources is handled whole. */
  lemma {:induction false} WholeTableHandled(rows: map<string, Threat>, scan: seq<string>)
    requires ScansThreats(rows, scan) && |rows| <= MAX_ROWS
    ensures Handled(scan) == rows.Keys
  {
    Counting.Listed(scan, rows.Keys);
    assert |rows| == |rows.Keys|;
    forall source ensures source in Handled(scan) <==> source in rows {
      if source in rows {
        var k :| 0 <= k < |scan| && scan[k] == source;
      }
    }
  }

  /** The table once the first i rows of the scan have been handled. */
  ghost predicate HalfWay(before: Book, scan: seq<string>, i: nat, threats: map<string, Threat>)
    requires i <= |scan| && forall k :: 0 <= k < |scan| ==> scan[k] in before.rows
  {
    && threats.Keys == before.rows.Keys
    && forall source :: source in before.rows ==>
         threats[source] == if source in scan[..i] then TickedRow(before, before.rows.Keys, source) else before.rows[source]
  }

  lemma OneMoreRow(before: Book, scan: seq<string>, i: nat, threats: map<string, Threat>, next: map<string, Threat>)
    requires ScansThreats(before.rows, scan) && i < |scan| && HalfWay(before, scan, i, threats)
    requires next == threats[scan[i] := TickedRow(before, before.rows.Keys, scan[i])]
    ensures HalfWay(before, scan, i + 1, next)
  {
    hide TickedRow;
    assert scan[..i + 1] == scan[..i] + [scan[i]];
    forall source | source in before.rows
      ensures next[source] == if source in scan[..i + 1] then TickedRow(before, before.rows.Keys, source) else before.rows[source]
    {
    }
  }

  lemma NotYet(before: Book, scan: seq<string>, i: nat, threats: map<string, Threat>)
    requires ScansThreats(before.rows, scan) && i < |scan| && HalfWay(before, scan, i, threats)
    ensures scan[i] in threats && threats[scan[i]] == before.rows[scan[i]]
  {
    assert scan[i] !in scan[..i];
  }

  lemma AllHandled(before: Book, scan: seq<string>, threats: map<string, Threat>)
    requires ScansThreats(before.rows, scan) && HalfWay(before, scan, FirstRows(scan), threats)
    ensures threats == AfterTick(before, false, Handled(scan), true).rows
  {
    hide DecayedRow, Active, FirstRows, Pruned;
    var n := FirstRows(scan);
    forall source | source in before.rows ensures threats[source] == TickedRow(before, Handled(scan), source) {
      assert source in Handled(scan) <==> source in scan[..n] by {
        if source in scan[..n] {
          var k :| 0 <= k < n && scan[..n][k] == source;
          assert scan[k] == source;
        }
        if source in Handled(scan) {
          var k :| 0 <= k < n && scan[k] == source;
          assert scan[..n][k] == source;
        }
      }
    }
  }

  /** decay_tick: every row the scan returned, one after the other; the rows beyond the first 512 are left alone. */
  method Tick(db: Db, locked: bool, scan: seq<string>, now: int)
    requires ScansThreats(db.threats, scan)
    modifies db`threats, db`window
    ensures Book(now, db.threats, db.window)
         == AfterTick(old(Book(now, db.threats, db.window)), locked, Handled(scan), true)
  {
    hide HalfWay, Handled, Active, Pruned;
    if locked {
      return;
    }
    ghost var before := Book(now, db.threats, db.window);
    var rows := db.ThreatAll(scan, MAX_ROWS);
    assert |rows| == FirstRows(scan);
    Untouched(before, scan);
    var i := 0;
    while i < |rows|
      invariant i <= |rows|
      invariant db.window == before.signals && HalfWay(before, scan, i, db.threats)
    {
      NotYet(before, scan, i, db.threats);
      ghost var was := db.threats;
      var active := db.SignalActive(rows[i].0, now - SIGNAL_WINDOW_SEC);
      if !active {
        var updated := Lower(rows[i].1, now);
        db.ThreatUpsert(rows[i].0, updated);
      }
      assert HalfWay(before, scan, i, was);
      SameRow(was, scan[i], db.threats);
      OneMoreRow(before, scan, i, was, db.threats);
      i := i + 1;
    }
    AllHandled(before, scan, db.threats);
    db.SignalPrune(now - SIGNAL_WINDOW_SEC);
  }

  lemma Untouched(before: Book, scan: seq<string>)
    requires ScansThreats(before.rows, scan)
    ensures HalfWay(before, scan, 0, before.rows)
  {
  }

  lemma SameRow(was: map<string, Threat>, source: string, threats: map<string, Threat>)
    requires source in was && source in threats && (threats == was || threats == was[source := threats[source]])
    ensures threats == was[source := threats[source]]
  {
  }

  method Lower(rec: Threat, now: int) returns (updated: Threat)
    ensures updated == DecayedRow(rec, now)
  {
    var score := rec.score * DECAY_FACTOR;
    if score < DECAY_CUTOFF {
      score := 0.0;
    }
    updated := rec.(score := score, updated := now, state := ScoreToState(score));
  }
}
