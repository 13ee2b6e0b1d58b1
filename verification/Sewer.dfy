/**
  splinterd's store: one row per (source, event type), an append-only list of real changes that is
  summarised and emptied every 500 rows, and lifetime totals per source.
 */
module Sewer {

  const ROLLUP_CAP: nat := 500
  const GAP_THRESHOLD_SEC: nat := 1800

  datatype StateRow = StateRow(source: string, kind: string, firstSeen: int, lastSeen: int, repeats: nat)

  datatype Change = FirstSeen | Resumed

  datatype Transition = Transition(source: string, kind: string, change: Change, ts: int)

  /** A row of sewer_rats: how many changes of each type it summarises. */
  datatype Rollup = Rollup(ts: int, firstSeen: nat, resumed: nat)

  datatype Store = Store(
    emitState: seq<StateRow>,
    transitions: seq<Transition>,
    rollups: seq<Rollup>,
    totals: map<string, nat>)

  datatype Emit = Emit(source: string, kind: string, ts: int)

  const EMPTY := Store([], [], [], map[])

  function FindState(rows: seq<StateRow>, source: string, kind: string): (r: nat)
    ensures r <= |rows|
    ensures r < |rows| ==> rows[r].source == source && rows[r].kind == kind
    ensures forall k :: 0 <= k < r ==> !(rows[k].source == source && rows[k].kind == kind)
  {
    if rows == [] || (rows[0].source == source && rows[0].kind == kind) then 0
    else 1 + FindState(rows[1..], source, kind)
  }

  /** The change an emission makes, if it is one. */
  function ChangeOf(rows: seq<StateRow>, e: Emit): (r: seq<Transition>)
    ensures |r| <= 1
  {
    var i := FindState(rows, e.source, e.kind);
    if i == |rows| then [Transition(e.source, e.kind, FirstSeen, e.ts)]
    else if e.ts - rows[i].lastSeen >= GAP_THRESHOLD_SEC then [Transition(e.source, e.kind, Resumed, e.ts)]
    else []
  }

  function Upserted(rows: seq<StateRow>, e: Emit): seq<StateRow> {
    var i := FindState(rows, e.source, e.kind);
    if i == |rows| then rows + [StateRow(e.source, e.kind, e.ts, e.ts, 1)]
    else rows[i := rows[i].(lastSeen := e.ts, repeats := rows[i].repeats + 1)]
  }

  function CountChange(ts: seq<Transition>, c: Change): nat {
    if ts == [] then 0
    else CountChange(ts[..|ts| - 1], c) + (if ts[|ts| - 1].change == c then 1 else 0)
  }

  function Total(totals: map<string, nat>, source: string): nat {
    if source in totals then totals[source] else 0
  }

  function RolledUp(s: Store, now: int): Store {
    if |s.transitions| >= ROLLUP_CAP then
      s.(rollups := s.rollups + [Rollup(now, CountChange(s.transitions, FirstSeen), CountChange(s.transitions, Resumed))],
         transitions := [])
    else s
  }

  function Record(s: Store, e: Emit): Store {
    var change := ChangeOf(s.emitState, e);
    var next := Store(Upserted(s.emitState, e), s.transitions + change, s.rollups,
                      s.totals[e.source := Total(s.totals, e.source) + 1]);
    if change != [] then RolledUp(next, e.ts) else next
  }

  /** The store, and every change ever recorded, after a history of emissions. */
  function Run(history: seq<Emit>): Store {
    if history == [] then EMPTY else Record(Run(history[..|history| - 1]), history[|history| - 1])
  }

  function Changes(history: seq<Emit>): seq<Transition> {
    if history == [] then []
    else
      var front := history[..|history| - 1];
      Changes(front) + ChangeOf(Run(front).emitState, history[|history| - 1])
  }

  /** Reference counts, taken from the history alone. */
  function Emissions(history: seq<Emit>, source: string): nat {
    if history == [] then 0
    else Emissions(history[..|history| - 1], source) + (if history[|history| - 1].source == source then 1 else 0)
  }

  function PairEmissions(history: seq<Emit>, source: string, kind: string): nat {
    if history == [] then 0
    else
      var last := history[|history| - 1];
      PairEmissions(history[..|history| - 1], source, kind) + (if last.source == source && last.kind == kind then 1 else 0)
  }

  function SumRepeats(rows: seq<StateRow>, source: string): nat {
    if rows == [] then 0
    else SumRepeats(rows[..|rows| - 1], source) + (if rows[|rows| - 1].source == source then rows[|rows| - 1].repeats else 0)
  }

  function Repeats(rows: seq<StateRow>, source: string, kind: string): nat {
    var i := FindState(rows, source, kind);
    if i == |rows| then 0 else rows[i].repeats
  }

  lemma {:induction false} SumAfterBump(rows: seq<StateRow>, i: nat, e: Emit, source: string)
    requires i < |rows|
    ensures SumRepeats(rows[i := rows[i].(lastSeen := e.ts, repeats := rows[i].repeats + 1)], source)
         == SumRepeats(rows, source) + (if rows[i].source == source then 1 else 0)
  {
    var bumped := rows[i].(lastSeen := e.ts, repeats := rows[i].repeats + 1);
    var n := |rows| - 1;
    if i == n {
      assert rows[i := bumped][..n] == rows[..n];
    } else {
      assert rows[i := bumped][..n] == rows[..n][i := bumped];
      SumAfterBump(rows[..n], i, e, source);
    }
  }

  lemma SumAfterUpsert(rows: seq<StateRow>, e: Emit, source: string)
    ensures SumRepeats(Upserted(rows, e), source) == SumRepeats(rows, source) + (if e.source == source then 1 else 0)
  {
    var i := FindState(rows, e.source, e.kind);
    if i == |rows| {
      assert Upserted(rows, e)[..|rows|] == rows;
    } else {
      SumAfterBump(rows, i, e, source);
    }
  }

  lemma FindStateIs(rows: seq<StateRow>, source: string, kind: string, i: nat)
    requires i <= |rows|
    requires i < |rows| ==> rows[i].source == source && rows[i].kind == kind
    requires forall k :: 0 <= k < i ==> !(rows[k].source == source && rows[k].kind == kind)
    ensures FindState(rows, source, kind) == i
  {
  }

  lemma RepeatsAfterUpsert(rows: seq<StateRow>, e: Emit, source: string, kind: string)
    ensures Repeats(Upserted(rows, e), source, kind)
         == Repeats(rows, source, kind) + (if e.source == source && e.kind == kind then 1 else 0)
  {
    var i, j := FindState(rows, e.source, e.kind), FindState(rows, source, kind);
    var k := if i == |rows| && j == |rows| && !(e.source == source && e.kind == kind) then |rows| + 1 else j;
    FindStateIs(Upserted(rows, e), source, kind, k);
  }

  /** At any moment each source's rows add up to its lifetime total, which is the number of its emissions. */
  lemma {:induction false} RepeatsAddUp(history: seq<Emit>, source: string)
    ensures SumRepeats(Run(history).emitState, source) == Total(Run(history).totals, source) == Emissions(history, source)
  {
    hide SumRepeats, Upserted, ChangeOf;
    if history == [] {
      assert SumRepeats([], source) == 0 by { NoRows(source); }
    } else {
      var front, e := history[..|history| - 1], history[|history| - 1];
      RepeatsAddUp(front, source);
      SumAfterUpsert(Run(front).emitState, e, source);
    }
  }

  lemma NoRows(source: string)
    ensures SumRepeats([], source) == 0
  {
  }

  /** Each row counts exactly the emissions of its own pair. */
  lemma {:induction false} RepeatsCountPairs(history: seq<Emit>, source: string, kind: string)
    ensures Repeats(Run(history).emitState, source, kind) == PairEmissions(history, source, kind)
  {
    hide Repeats, Upserted, ChangeOf;
    if history == [] {
      assert Repeats([], source, kind) == 0 by { NoPairs(source, kind); }
    } else {
      var front, e := history[..|history| - 1], history[|history| - 1];
      RepeatsCountPairs(front, source, kind);
      RepeatsAfterUpsert(Run(front).emitState, e, source, kind);
    }
  }

  lemma NoPairs(source: string, kind: string)
    ensures Repeats([], source, kind) == 0
  {
  }

  ghost predicate KeysUnique(rows: seq<StateRow>) {
    forall i, j :: 0 <= i < j < |rows| ==> !(rows[i].source == rows[j].source && rows[i].kind == rows[j].kind)
  }

  /** The pair is the primary key, and each row was a first_seen change exactly once. */
  lemma {:induction false} RowsWereFirstSeen(history: seq<Emit>)
    ensures KeysUnique(Run(history).emitState)
    ensures CountChange(Changes(history), FirstSeen) == |Run(history).emitState|
  {
    hide CountChange;
    if history == [] {
      assert CountChange([], FirstSeen) == 0 by { NoChanges(FirstSeen); }
    } else {
      var front, e := history[..|history| - 1], history[|history| - 1];
      RowsWereFirstSeen(front);
      CountAppend(Changes(front), ChangeOf(Run(front).emitState, e), FirstSeen);
      NoChanges(FirstSeen);
      if ChangeOf(Run(front).emitState, e) != [] {
        OneChange(ChangeOf(Run(front).emitState, e)[0], FirstSeen);
      }
    }
  }

  lemma NoChanges(c: Change)
    ensures CountChange([], c) == 0
  {
  }

  lemma OneChange(t: Transition, c: Change)
    ensures CountChange([t], c) == if t.change == c then 1 else 0
  {
    assert [t][..0] == [];
  }

  lemma {:induction false} CountAppend(a: seq<Transition>, b: seq<Transition>, c: Change)
    ensures CountChange(a + b, c) == CountChange(a, c) + CountChange(b, c)
    decreases |b|
  {
    if b == [] {
      assert a + b == a;
    } else {
      assert (a + b)[..|a + b| - 1] == a + b[..|b| - 1];
      CountAppend(a, b[..|b| - 1], c);
    }
  }

  /**
    Every change ever made is either still stored or in exactly one rollup: rollup k summarises changes
    500k to 500k + 499, the table holds the rest, and the table stays below the cap.
   */
  ghost predicate Partitioned(s: Store, changes: seq<Transition>) {
    && |s.transitions| < ROLLUP_CAP
    && |changes| == ROLLUP_CAP * |s.rollups| + |s.transitions|
    && s.transitions == changes[ROLLUP_CAP * |s.rollups|..]
    && forall k :: 0 <= k < |s.rollups| ==> Summarises(s.rollups[k], changes, k)
  }

  ghost predicate Summarises(r: Rollup, changes: seq<Transition>, k: nat) {
    && ROLLUP_CAP * (k + 1) <= |changes| && r.ts == changes[ROLLUP_CAP * (k + 1) - 1].ts
    && r.firstSeen == CountChange(changes[ROLLUP_CAP * k..ROLLUP_CAP * (k + 1)], FirstSeen)
    && r.resumed == CountChange(changes[ROLLUP_CAP * k..ROLLUP_CAP * (k + 1)], Resumed)
  }

  lemma SummaryKept(r: Rollup, changes: seq<Transition>, more: seq<Transition>, k: nat)
    requires Summarises(r, changes, k)
    ensures Summarises(r, changes + more, k)
  {
    assert (changes + more)[ROLLUP_CAP * k..ROLLUP_CAP * (k + 1)] == changes[ROLLUP_CAP * k..ROLLUP_CAP * (k + 1)];
  }

  lemma PartitionStep(s: Store, changes: seq<Transition>, e: Emit)
    requires Partitioned(s, changes)
    ensures Partitioned(Record(s, e), changes + ChangeOf(s.emitState, e))
  {
    hide Summarises, CountChange, Upserted, ChangeOf;
    var change := ChangeOf(s.emitState, e);
    var all := changes + change;
    var cut := ROLLUP_CAP * |s.rollups|;
    assert all[cut..] == s.transitions + change;
    forall k | 0 <= k < |s.rollups| ensures Summarises(s.rollups[k], all, k) {
      SummaryKept(s.rollups[k], changes, change, k);
    }
    if |s.transitions + change| == ROLLUP_CAP {
      assert all[cut..cut + ROLLUP_CAP] == s.transitions + change;
      ChangeNow(s.emitState, e);
      NewSummary(all, |s.rollups|, e.ts);
    }
  }

  lemma ChangeNow(rows: seq<StateRow>, e: Emit)
    ensures ChangeOf(rows, e) != [] ==> ChangeOf(rows, e)[0].ts == e.ts
  {
  }

  lemma NewSummary(all: seq<Transition>, k: nat, now: int)
    requires |all| == ROLLUP_CAP * (k + 1) && all[|all| - 1].ts == now
    ensures var part := all[ROLLUP_CAP * k..ROLLUP_CAP * (k + 1)];
            Summarises(Rollup(now, CountChange(part, FirstSeen), CountChange(part, Resumed)), all, k)
  {
  }

  lemma {:induction false} ChangesPartitioned(history: seq<Emit>)
    ensures Partitioned(Run(history), Changes(history))
  {
    if history != [] {
      hide Partitioned, Record, ChangeOf;
      ChangesPartitioned(history[..|history| - 1]);
      PartitionStep(Run(history[..|history| - 1]), Changes(history[..|history| - 1]), history[|history| - 1]);
    }
  }

  // ---- told from the history alone -----------------------------------------------------------

  predicate SamePair(a: Emit, b: Emit) {
    a.source == b.source && a.kind == b.kind
  }

  /** Emission j is the first of the pair, or the latest one, among the emissions given. */
  ghost predicate First(history: seq<Emit>, e: Emit, j: int) {
    0 <= j < |history| && SamePair(history[j], e) && forall i :: 0 <= i < j ==> !SamePair(history[i], e)
  }

  ghost predicate Latest(history: seq<Emit>, e: Emit, j: int) {
    0 <= j < |history| && SamePair(history[j], e) && forall i :: j < i < |history| ==> !SamePair(history[i], e)
  }

  ghost predicate Unseen(history: seq<Emit>, e: Emit) {
    forall i :: 0 <= i < |history| ==> !SamePair(history[i], e)
  }

  /** The row of a pair: there is none before its first emission, and then it holds the first and the latest time. */
  ghost predicate RowTells(rows: seq<StateRow>, history: seq<Emit>, e: Emit) {
    var i := FindState(rows, e.source, e.kind);
    && (Unseen(history, e) <==> i == |rows|)
    && (forall j :: 0 <= j < |history| && First(history, e, j) ==> i < |rows| && rows[i].firstSeen == history[j].ts)
    && (forall j :: 0 <= j < |history| && Latest(history, e, j) ==> i < |rows| && rows[i].lastSeen == history[j].ts)
  }

  lemma FindAfterUpsert(rows: seq<StateRow>, x: Emit, e: Emit)
    ensures var i, k := FindState(rows, e.source, e.kind), FindState(Upserted(rows, x), e.source, e.kind);
      && (SamePair(x, e) || i < |rows| ==> k == i < |Upserted(rows, x)|)
      && (SamePair(x, e) && i == |rows| ==> Upserted(rows, x)[k] == StateRow(x.source, x.kind, x.ts, x.ts, 1))
      && (SamePair(x, e) && i < |rows| ==>
            Upserted(rows, x)[k] == rows[i].(lastSeen := x.ts, repeats := rows[i].repeats + 1))
      && (!SamePair(x, e) && i == |rows| ==> k == |Upserted(rows, x)|)
      && (!SamePair(x, e) && i < |rows| ==> Upserted(rows, x)[k] == rows[i])
  {
    var i := FindState(rows, e.source, e.kind);
    FindStateIs(Upserted(rows, x), e.source, e.kind, if i == |rows| && !SamePair(x, e) then |Upserted(rows, x)| else i);
  }

  /** What one more emission does to first, latest and unseen. */
  lemma HistorySnoc(front: seq<Emit>, x: Emit, e: Emit, j: int)
    ensures Unseen(front + [x], e) <==> Unseen(front, e) && !SamePair(x, e)
    ensures First(front + [x], e, j) <==> First(front, e, j) || (j == |front| && Unseen(front, e) && SamePair(x, e))
    ensures Latest(front + [x], e, j) <==> if SamePair(x, e) then j == |front| else Latest(front, e, j)
  {
    var all := front + [x];
    assert forall i :: 0 <= i < |front| ==> all[i] == front[i];
    assert all[|front|] == x;
  }

  lemma TellsStep(rows: seq<StateRow>, front: seq<Emit>, x: Emit, e: Emit)
    requires RowTells(rows, front, e)
    ensures RowTells(Upserted(rows, x), front + [x], e)
  {
    hide FindState, Upserted, Unseen, First, Latest, SamePair;
    FindAfterUpsert(rows, x, e);
    HistorySnoc(front, x, e, 0);
    forall j | 0 <= j < |front + [x]| && First(front + [x], e, j)
      ensures var k := FindState(Upserted(rows, x), e.source, e.kind);
              k < |Upserted(rows, x)| && Upserted(rows, x)[k].firstSeen == (front + [x])[j].ts
    {
      HistorySnoc(front, x, e, j);
      FirstInside(front, e, j);
    }
    forall j | 0 <= j < |front + [x]| && Latest(front + [x], e, j)
      ensures var k := FindState(Upserted(rows, x), e.source, e.kind);
              k < |Upserted(rows, x)| && Upserted(rows, x)[k].lastSeen == (front + [x])[j].ts
    {
      HistorySnoc(front, x, e, j);
      FirstInside(front, e, j);
    }
  }

  lemma FirstInside(front: seq<Emit>, e: Emit, j: int)
    ensures First(front, e, j) || Latest(front, e, j) ==> 0 <= j < |front| && !Unseen(front, e)
  {
  }

  lemma {:induction false} RowsTell(history: seq<Emit>, e: Emit)
    ensures RowTells(Run(history).emitState, history, e)
  {
    hide RowTells, ChangeOf, Upserted;
    if history == [] {
      NothingTold(e);
    } else {
      var front, x := history[..|history| - 1], history[|history| - 1];
      RowsTell(front, e);
      TellsStep(Run(front).emitState, front, x, e);
      assert history == front + [x];
    }
  }

  lemma NothingTold(e: Emit)
    ensures RowTells([], [], e)
  {
  }

  /**
    Which changes a history records: an emission is a first_seen exactly when no earlier one has its pair, a resumed
    exactly when the latest earlier one of its pair lies at least half an hour back, and no change otherwise.
   */
  lemma {:induction false} ChangeExactly(history: seq<Emit>, e: Emit)
    ensures Unseen(history, e) ==>
              Changes(history + [e]) == Changes(history) + [Transition(e.source, e.kind, FirstSeen, e.ts)]
    ensures forall j :: Latest(history, e, j) ==>
              Changes(history + [e])
              == Changes(history) + (if e.ts - history[j].ts >= 1800 then [Transition(e.source, e.kind, Resumed, e.ts)] else [])
    ensures Unseen(history, e) || exists j :: Latest(history, e, j)
  {
    ChangeNext(history, e);
    RowsTell(history, e);
    if !Unseen(history, e) {
      var j := LatestThere(history, e);
    }
    var rows := Run(history).emitState;
    hide Run, Changes, FindState;
    forall j | Latest(history, e, j)
      ensures ChangeOf(rows, e) == if e.ts - history[j].ts >= 1800 then [Transition(e.source, e.kind, Resumed, e.ts)] else []
    {
      FirstInside(history, e, j);
    }
  }

  lemma ChangeNext(history: seq<Emit>, e: Emit)
    ensures Changes(history + [e]) == Changes(history) + ChangeOf(Run(history).emitState, e)
  {
    assert (history + [e])[..|history|] == history;
  }

  lemma {:induction false} LatestThere(history: seq<Emit>, e: Emit) returns (j: nat)
    requires !Unseen(history, e)
    ensures Latest(history, e, j)
  {
    var front, x := history[..|history| - 1], history[|history| - 1];
    assert history == front + [x];
    if SamePair(x, e) {
      j := |front|;
    } else {
      HistorySnoc(front, x, e, 0);
      j := LatestThere(front, e);
      HistorySnoc(front, x, e, j);
    }
  }

  /** The open database. */
  class SewerDb {
    var emitState: seq<StateRow>
    var transitions: seq<Transition>
    var rollups: seq<Rollup>
    var totals: map<string, nat>

    function State(): Store
      reads this
    {
      Store(emitState, transitions, rollups, totals)
    }

    constructor ()
      ensures State() == EMPTY
    {
      emitState, transitions, rollups, totals := [], [], [], map[];
    }

    method LookUp(source: string, kind: string) returns (i: nat)
      ensures i == FindState(emitState, source, kind)
    {
      i := 0;
      while i < |emitState| && !(emitState[i].source == source && emitState[i].kind == kind)
        invariant i <= |emitState|
        invariant forall k :: 0 <= k < i ==> !(emitState[k].source == source && emitState[k].kind == kind)
      {
        i := i + 1;
      }
      FindStateIs(emitState, source, kind, i);
    }

    method RecordEmit(source: string, kind: string, now: int)
      modifies this
      ensures State() == Record(old(State()), Emit(source, kind, now))
    {
      var i := LookUp(source, kind);
      var changed := false;
      var change := FirstSeen;
      if i == |emitState| {
        changed := true;
      } else if now - emitState[i].lastSeen >= GAP_THRESHOLD_SEC {
        changed, change := true, Resumed;
      }

      if i == |emitState| {
        emitState := emitState + [StateRow(source, kind, now, now, 1)];
      } else {
        emitState := emitState[i := emitState[i].(lastSeen := now, repeats := emitState[i].repeats + 1)];
      }
      if changed {
        transitions := transitions + [Transition(source, kind, change, now)];
      }
      totals := totals[source := (if source in totals then totals[source] else 0) + 1];
      if changed {
        MaybeRollup(now);
      } else {
        assert transitions == transitions + [];
      }
    }

    method MaybeRollup(now: int)
      modifies `transitions, `rollups
      ensures State() == RolledUp(old(State()), now)
    {
      if |transitions| >= ROLLUP_CAP {
        var seen, resumed := 0, 0;
        for k := 0 to |transitions|
          invariant seen == CountChange(transitions[..k], FirstSeen)
          invariant resumed == CountChange(transitions[..k], Resumed)
        {
          assert transitions[..k + 1][..k] == transitions[..k];
          if transitions[k].change == FirstSeen {
            seen := seen + 1;
          } else {
            resumed := resumed + 1;
          }
        }
        assert transitions[..|transitions|] == transitions;
        rollups := rollups + [Rollup(now, seen, resumed)];
        transitions := [];
      }
    }
  }
}
