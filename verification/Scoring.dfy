/** scorer.c and decay.c as functions: what one signal adds to a score, and what one decay tick takes away. */
module Scoring {
  import opened Labels
  import opened Court
  import opened TierRules

  const MAX_SCORE: real := 100.0
  const SCORE_FLOOR: real := 0.0
  const DECAY_FACTOR: real := 0.88
  const DECAY_CUTOFF: real := 0.5
  const MAX_ROWS: nat := 512

  /** A row of threat_scores. */
  datatype Threat = Threat(score: real, state: Label, jails: nat, quarantines: nat, updated: int)

  const NEW_THREAT := Threat(0.0, Clean, 0, 0, 0)

  /** db_threat_load: a source without a row starts clean. */
  function RowOf(rows: map<string, Threat>, source: string): Threat {
    if source in rows then rows[source] else NEW_THREAT
  }

  datatype Result = Result(prev: real, score: real, state: Label, delta: real, jails: nat, quarantines: nat)

  /** What every stored row satisfies: a score in range, labelled by its band. */
  predicate Good(rec: Threat) {
    SCORE_FLOOR <= rec.score <= MAX_SCORE && rec.state == ScoreToState(rec.score)
  }

  function RecidivismMod(jails: nat, quarantines: nat): real {
    if jails >= 2 then 2.00 else if jails >= 1 then 1.60 else if quarantines >= 1 then 1.30 else 1.00
  }

  function Covariance(sigs: seq<string>): real {
    if "INTEGRITY_VIOLATION" in sigs then 1.80
    else if "NETWORK_ANOMALY" in sigs && ("CPU_HOG" in sigs || "CPU_HOG_CRITICAL" in sigs) then 1.60
    else if "WAKELOCK_ANOMALY" in sigs && "NETWORK_ANOMALY" in sigs then 1.50
    else if "THERMAL_CRITICAL" in sigs && "CPU_HOG_CRITICAL" in sigs then 1.40
    else if ("THERMAL_CRITICAL" in sigs || "THERMAL_WARN" in sigs) && "NETWORK_ANOMALY" in sigs then 1.30
    else if "CPU_THROTTLING" in sigs && "WAKELOCK_ANOMALY" in sigs then 1.20
    else 1.00
  }

  function StackBonus(sigs: seq<string>): real {
    if |sigs| >= 3 then 1.20 else 1.00
  }

  /** The weight a signal counts with; `looked` is what the weights table says. */
  function Weight(base: real, looked: int): real {
    if base > 0.0 then base else if looked > 0 then looked as real else 10.0
  }

  function Product(factors: seq<real>): real {
    if factors == [] then 1.0 else factors[0] * Product(factors[1..])
  }

  /** The modifiers that are not wired yet count as 1. */
  function Addition(weight: real, sigs: seq<string>, rec: Threat, tier: real): real {
    Product([weight, Covariance(sigs), StackBonus(sigs), RecidivismMod(rec.jails, rec.quarantines), tier])
  }

  function Clamped(x: real): real {
    if x > MAX_SCORE then MAX_SCORE else if x < SCORE_FLOOR then SCORE_FLOOR else x
  }

  /** The record after a signal: clamped score, its label, and a count of new jails and quarantines. */
  function Scored(rec: Threat, addition: real, now: int): Threat {
    var score := Clamped(rec.score + addition);
    var state, before := ScoreToState(score), ScoreToState(rec.score);
    Threat(score, state,
           rec.jails + (if state == Jailed && before != Jailed then 1 else 0),
           rec.quarantines + (if state == Quarantined && before != Quarantined then 1 else 0),
           now)
  }

  /** 1 while the score is at the threshold or higher. */
  function Above(rec: Threat, threshold: real): nat {
    if rec.score >= threshold then 1 else 0
  }

  function DecayedScore(x: real): real {
    if x * DECAY_FACTOR < DECAY_CUTOFF then 0.0 else x * DECAY_FACTOR
  }

  function DecayedRow(rec: Threat, now: int): Threat {
    rec.(score := DecayedScore(rec.score), state := ScoreToState(DecayedScore(rec.score)), updated := now)
  }

  // ---- scoring -------------------------------------------------------------------------------

  /** The combinations of signals that are held to reinforce each other; any set of signals shows the last one. */
  datatype Pattern = Tampered | BusyNetwork | AwakeNetwork | HotAndBusy | HotNetwork | ThrottledAwake | NoPattern

  predicate Shows(names: set<string>, p: Pattern) {
    match p
    case Tampered => "INTEGRITY_VIOLATION" in names
    case BusyNetwork => "NETWORK_ANOMALY" in names && ("CPU_HOG" in names || "CPU_HOG_CRITICAL" in names)
    case AwakeNetwork => "WAKELOCK_ANOMALY" in names && "NETWORK_ANOMALY" in names
    case HotAndBusy => "THERMAL_CRITICAL" in names && "CPU_HOG_CRITICAL" in names
    case HotNetwork => ("THERMAL_CRITICAL" in names || "THERMAL_WARN" in names) && "NETWORK_ANOMALY" in names
    case ThrottledAwake => "CPU_THROTTLING" in names && "WAKELOCK_ANOMALY" in names
    case NoPattern => true
  }

  function Strength(p: Pattern): real {
    match p
    case Tampered => 1.80
    case BusyNetwork => 1.60
    case AwakeNetwork => 1.50
    case HotAndBusy => 1.40
    case HotNetwork => 1.30
    case ThrottledAwake => 1.20
    case NoPattern => 1.00
  }

  /** The strongest pattern that a set of names shows. */
  ghost predicate Strongest(names: set<string>, p: Pattern) {
    Shows(names, p) && forall q :: Shows(names, q) ==> Strength(q) <= Strength(p)
  }

  /** The covariance is the strength of the strongest pattern the signals show. */
  lemma {:induction false} CovarianceIsStrongest(sigs: seq<string>)
    ensures var names := set s | s in sigs; exists p :: Strongest(names, p)
    ensures var names := set s | s in sigs; forall p :: Strongest(names, p) ==> Strength(p) == Covariance(sigs)
  {
    var names := set s | s in sigs;
    var p := if Shows(names, Tampered) then Tampered
             else if Shows(names, BusyNetwork) then BusyNetwork
             else if Shows(names, AwakeNetwork) then AwakeNetwork
             else if Shows(names, HotAndBusy) then HotAndBusy
             else if Shows(names, HotNetwork) then HotNetwork
             else if Shows(names, ThrottledAwake) then ThrottledAwake
             else NoPattern;
    assert Strength(p) == Covariance(sigs);
    assert Strongest(names, p);
  }

  /** What a source's record is held against it; every record is at least a clean one. */
  datatype Standing = RepeatedlyJailed | OnceJailed | OnceQuarantined | Unrecorded

  predicate Held(jails: nat, quarantines: nat, s: Standing) {
    match s
    case RepeatedlyJailed => jails >= 2
    case OnceJailed => jails >= 1
    case OnceQuarantined => quarantines >= 1
    case Unrecorded => true
  }

  function Gravity(s: Standing): real {
    match s
    case RepeatedlyJailed => 2.00
    case OnceJailed => 1.60
    case OnceQuarantined => 1.30
    case Unrecorded => 1.00
  }

  ghost predicate Worst(jails: nat, quarantines: nat, s: Standing) {
    Held(jails, quarantines, s) && forall r :: Held(jails, quarantines, r) ==> Gravity(r) <= Gravity(s)
  }

  /** The recidivism factor is that of the worst standing the record has. */
  lemma {:induction false} RecidivismIsWorst(jails: nat, quarantines: nat)
    ensures exists s :: Worst(jails, quarantines, s)
    ensures forall s :: Worst(jails, quarantines, s) ==> Gravity(s) == RecidivismMod(jails, quarantines)
  {
    var s := if Held(jails, quarantines, RepeatedlyJailed) then RepeatedlyJailed
             else if Held(jails, quarantines, OnceJailed) then OnceJailed
             else if Held(jails, quarantines, OnceQuarantined) then OnceQuarantined
             else Unrecorded;
    assert Worst(jails, quarantines, s);
  }

  /** The weight as the caller or the table gives it. */
  ghost predicate Weighs(base: real, looked: int, w: real) {
    && (base > 0.0 ==> w == base)
    && (base <= 0.0 && looked > 0 ==> w == looked as real)
    && (base <= 0.0 && looked <= 0 ==> w == 10.0)
  }

  /** The damping of a source: the fleet's own first, then the user's list, then the system's packages. */
  ghost predicate Damps(t: Tiers, source: string, d: real) {
    && (source != "" && t.own(source) ==> d == 0.40)
    && (source != "" && !t.own(source) && t.sovereign(source) ==> d == 0.15)
    && (source != "" && !t.own(source) && !t.sovereign(source) && t.system(source) ==> d == 0.60)
    && (source == "" || !Protected(t, source) ==> d == 1.00)
  }

  /** A product of five, kept by name so that proofs can treat it as one term. */
  function Five(a: real, b: real, c: real, d: real, e: real): real {
    a * b * c * d * e
  }

  /**
    What a signal adds: its weight, times the strength of the strongest pattern shown, times 1.2 from three
    different names on, times the gravity of the worst standing, times the damping of the source.
   */
  lemma {:induction false} AdditionIs(t: Tiers, source: string, base: real, looked: int, sigs: seq<string>, names: set<string>,
                                      rec: Threat, p: Pattern, st: Standing, w: real, d: real)
    requires (forall s :: s in names <==> s in sigs) && |names| == |sigs|
    requires Strongest(names, p) && Worst(rec.jails, rec.quarantines, st) && Weighs(base, looked, w) && Damps(t, source, d)
    ensures Addition(Weight(base, looked), sigs, rec, TierModifier(t, source))
         == Five(w, Strength(p), if |names| >= 3 then 1.20 else 1.00, Gravity(st), d)
  {
    assert names == set s | s in sigs;
    CovarianceIsStrongest(sigs);
    RecidivismIsWorst(rec.jails, rec.quarantines);
    WeightIs(base, looked, w);
    TierIs(t, source, d);
    assert StackBonus(sigs) == if |names| >= 3 then 1.20 else 1.00;
    hide Covariance, RecidivismMod, Strongest, Worst, Product, Weight, StackBonus, TierModifier, Strength, Gravity, Weighs, Damps, Five;
    FiveFactors(Weight(base, looked), Covariance(sigs), StackBonus(sigs), RecidivismMod(rec.jails, rec.quarantines),
                TierModifier(t, source));
  }

  lemma WeightIs(base: real, looked: int, w: real)
    requires Weighs(base, looked, w)
    ensures Weight(base, looked) == w
  {
  }

  lemma TierIs(t: Tiers, source: string, d: real)
    requires Damps(t, source, d)
    ensures TierModifier(t, source) == d
  {
  }

  lemma ProductOrder(x: real, y: real, a: real, b: real)
    requires 0.0 < x <= y && 0.0 < a <= b
    ensures 0.0 < x * a <= y * b
  {
    assert x * a <= y * a <= y * b;
  }

  /** Every signal adds something, and stronger evidence or a worse record never adds less. */
  lemma {:induction false} AdditionOrdered(weight: real, sigs: seq<string>, more: seq<string>, rec: Threat, worse: Threat,
                                           tier: real)
    requires weight > 0.0 && tier > 0.0
    requires |sigs| <= |more| && forall s :: s in sigs ==> s in more
    requires rec.jails <= worse.jails && rec.quarantines <= worse.quarantines
    ensures 0.0 < Addition(weight, sigs, rec, tier) <= Addition(weight, more, worse, tier)
  {
    ModifiersOrdered(sigs, more, rec, worse);
    hide Covariance, StackBonus, RecidivismMod, Product;
    ProductsOrdered([weight, Covariance(sigs), StackBonus(sigs), RecidivismMod(rec.jails, rec.quarantines), tier],
                    [weight, Covariance(more), StackBonus(more), RecidivismMod(worse.jails, worse.quarantines), tier]);
  }

  /** A product of positive factors grows with each of them. */
  lemma {:induction false} ProductsOrdered(a: seq<real>, b: seq<real>)
    requires |a| == |b| && forall i :: 0 <= i < |a| ==> 0.0 < a[i] <= b[i]
    ensures 0.0 < Product(a) <= Product(b)
  {
    if a != [] {
      ProductsOrdered(a[1..], b[1..]);
      ProductOrder(a[0], b[0], Product(a[1..]), Product(b[1..]));
    }
  }

  lemma FiveFactors(a: real, b: real, c: real, d: real, e: real)
    ensures Product([a, b, c, d, e]) == a * (b * (c * (d * e))) == Five(a, b, c, d, e)
  {
    FiveRegrouped(a, b, c, d, e);
    var f := [a, b, c, d, e];
    assert f[1..] == [b, c, d, e] && [b, c, d, e][1..] == [c, d, e] && [c, d, e][1..] == [d, e] && [d, e][1..] == [e] && [e][1..] == [];
    assert Product([e]) == e && Product([d, e]) == d * e;
    assert Product([c, d, e]) == c * (d * e);
    assert Product([b, c, d, e]) == b * (c * (d * e));
  }

  lemma FiveRegrouped(a: real, b: real, c: real, d: real, e: real)
    ensures a * (b * (c * (d * e))) == Five(a, b, c, d, e)
  {
    hide Five;
    Regroup(c, d, e);
    Regroup(b, c * d, e);
    Regroup(b, c, d);
    Regroup(a, b * c * d, e);
    Regroup(a, b * c, d);
    Regroup(a, b, c);
    FiveIs(a, b, c, d, e);
  }

  lemma FiveIs(a: real, b: real, c: real, d: real, e: real)
    ensures Five(a, b, c, d, e) == a * b * c * d * e
  {
  }

  lemma Regroup(a: real, b: real, c: real)
    ensures a * (b * c) == a * b * c
  {
  }

  lemma ModifiersOrdered(sigs: seq<string>, more: seq<string>, rec: Threat, worse: Threat)
    requires |sigs| <= |more| && forall s :: s in sigs ==> s in more
    requires rec.jails <= worse.jails && rec.quarantines <= worse.quarantines
    ensures 1.0 <= Covariance(sigs) <= Covariance(more)
    ensures 1.0 <= StackBonus(sigs) <= StackBonus(more)
    ensures 1.0 <= RecidivismMod(rec.jails, rec.quarantines) <= RecidivismMod(worse.jails, worse.quarantines)
  {
  }

  lemma AdditionPositive(base: real, looked: int, sigs: seq<string>, rec: Threat, t: Tiers, source: string)
    ensures Addition(Weight(base, looked), sigs, rec, TierModifier(t, source)) > 0.0
  {
    hide Addition;
    AdditionOrdered(Weight(base, looked), sigs, sigs, rec, rec, TierModifier(t, source));
  }

  /** Whatever the record it started from, a scorer stores a good row that rose by no more than its addition. */
  lemma ScoredIsGood(rec: Threat, addition: real, now: int)
    requires Good(rec) && addition >= 0.0
    ensures Good(Scored(rec, addition, now))
    ensures 0.0 <= Scored(rec, addition, now).score - rec.score <= addition
    ensures Scored(rec, addition, now).score < MAX_SCORE ==> Scored(rec, addition, now).score - rec.score == addition
  {
  }

  /** The score rises by the addition and stops at 100; a count rises when its band is entered, and only then. */
  lemma {:induction false} ScoredIs(rec: Threat, addition: real, now: int)
    requires Good(rec) && addition > 0.0
    ensures var next := Scored(rec, addition, now);
      && next.score == (if rec.score + addition > 100.0 then 100.0 else rec.score + addition)
      && (next.jails == rec.jails + 1 <==> rec.score < 80.0 <= next.score)
      && (next.jails == rec.jails <==> !(rec.score < 80.0 <= next.score))
      && (next.quarantines == rec.quarantines + 1 <==> rec.score < 50.0 <= next.score < 70.0)
      && (next.quarantines == rec.quarantines <==> !(rec.score < 50.0 <= next.score < 70.0))
      && next.updated == now
  {
  }

  // ---- decay ---------------------------------------------------------------------------------

  lemma DecayedIsGood(rec: Threat, now: int)
    requires Good(rec)
    ensures Good(DecayedRow(rec, now)) && DecayedScore(rec.score) <= rec.score
    ensures StateRank(DecayedRow(rec, now).state) <= StateRank(rec.state)
  {
  }

  /** A score after k ticks. */
  function Ticks(x: real, k: nat): real {
    if k == 0 then x else DecayedScore(Ticks(x, k - 1))
  }

  function Pow(k: nat): real {
    if k == 0 then 1.0 else DECAY_FACTOR * Pow(k - 1)
  }

  lemma {:induction false} PowPositive(k: nat)
    ensures 0.0 < Pow(k) <= 1.0
  {
    if k > 0 {
      PowPositive(k - 1);
    }
  }

  lemma {:induction false} PowAdds(j: nat, k: nat)
    ensures Pow(j + k) == Pow(j) * Pow(k)
  {
    if j > 0 {
      PowAdds(j - 1, k);
      Regroup(DECAY_FACTOR, Pow(j - 1), Pow(k));
    }
  }

  /** k ticks multiply by 0.88 to the k, with 0 in place of anything below a half. */
  lemma {:induction false} TicksArePowers(x: real, k: nat)
    requires x >= 0.0 && k > 0
    ensures Ticks(x, k) == if x * Pow(k) < DECAY_CUTOFF then 0.0 else x * Pow(k)
  {
    assert Pow(k) == DECAY_FACTOR * Pow(k - 1);
    Regroup(x, Pow(k - 1), DECAY_FACTOR);
    assert x * Pow(k) == (x * Pow(k - 1)) * DECAY_FACTOR;
    if k == 1 {
      assert Ticks(x, 0) == x && Pow(0) == 1.0;
    } else {
      TicksArePowers(x, k - 1);
    }
  }

  lemma {:induction false} TicksKeepOrder(x: real, y: real, k: nat)
    requires 0.0 <= x <= y
    ensures 0.0 <= Ticks(x, k) <= Ticks(y, k)
  {
    if k > 0 {
      TicksKeepOrder(x, y, k - 1);
    }
  }

  lemma PowBounds()
    ensures 0.0 < Pow(42) < 0.005 < Pow(41)
  {
    assert Pow(1) == 0.88 && Pow(2) == 0.7744;
    PowAdds(2, 2);
    PowAdds(4, 4);
    assert 0.3596 < Pow(8) < 0.3597;
    PowAdds(8, 8);
    assert 0.1293 < Pow(16) < 0.1294;
    PowAdds(16, 16);
    assert 0.0167 < Pow(32) < 0.0168;
    PowAdds(32, 8);
    assert 0.0060 < Pow(40) < 0.00605;
    PowAdds(40, 1);
    PowAdds(40, 2);
  }

  /** Forty-two ticks bring any score to 0 and CLEAN; forty-one are not enough from 100. */
  lemma {:induction false} FortyTwoTicksClean(x: real)
    requires SCORE_FLOOR <= x <= MAX_SCORE
    ensures Ticks(x, 42) == 0.0 && ScoreToState(Ticks(x, 42)) == Clean
    ensures Ticks(MAX_SCORE, 41) > 0.0
  {
    hide Ticks, Pow;
    PowBounds();
    TicksArePowers(MAX_SCORE, 42);
    TicksArePowers(MAX_SCORE, 41);
    TicksKeepOrder(x, MAX_SCORE, 42);
  }
}
