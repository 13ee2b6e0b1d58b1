/**
  ratkingd's behavioural baseline: one running record per process name, updated sample by sample.
  The stored deviation is only ever used squared, so a record holds its square; the square root the
  program takes is of exactly this number.
 */
module Baseline {

  const MAX_BASELINE: nat := 128

  datatype Sample = Sample(name: string, cpu: int, rss: int)

  /** Running mean, squared deviation and maximum of one quantity. */
  datatype Stat = Stat(mean: real, deviation2: real, max: int)

  datatype Row = Row(name: string, cpu: Stat, rss: Stat, samples: nat)

  function First(x: int): Stat {
    Stat(x as real, 0.0, x)
  }

  /** Welford's step; n counts the new sample too. */
  function Stepped(s: Stat, x: int, n: nat): Stat
    requires n > 0
  {
    var delta := x as real - s.mean;
    var mean := s.mean + delta / n as real;
    Stat(mean,
         (s.deviation2 * (n - 1) as real + Times(delta, x as real - mean)) / n as real,
         if x > s.max then x else s.max)
  }

  function FindRow(rows: seq<Row>, name: string): (r: nat)
    ensures r <= |rows|
    ensures r < |rows| ==> rows[r].name == name
    ensures forall k :: 0 <= k < r ==> rows[k].name != name
  {
    if rows == [] || rows[0].name == name then 0 else 1 + FindRow(rows[1..], name)
  }

  function Updated(row: Row, s: Sample): Row {
    row.(cpu := Stepped(row.cpu, s.cpu, row.samples + 1),
         rss := Stepped(row.rss, s.rss, row.samples + 1),
         samples := row.samples + 1)
  }

  function Update(rows: seq<Row>, s: Sample): seq<Row> {
    var i := FindRow(rows, s.name);
    if i < |rows| then rows[i := Updated(rows[i], s)]
    else if |rows| < MAX_BASELINE then rows + [Row(s.name, First(s.cpu), First(s.rss), 1)]
    else rows
  }

  /** The records after a whole history of samples. */
  function Learn(history: seq<Sample>): seq<Row> {
    if history == [] then [] else Update(Learn(history[..|history| - 1]), history[|history| - 1])
  }

  /** The quantity's values recorded under one name, in order. */
  function Values(history: seq<Sample>, name: string, of: Sample -> int): seq<int> {
    if history == [] then []
    else
      var last := history[|history| - 1];
      Values(history[..|history| - 1], name, of) + (if last.name == name then [of(last)] else [])
  }

  /** The distinct names, in order of first appearance. */
  function Names(history: seq<Sample>): seq<string> {
    if history == [] then []
    else
      var before := Names(history[..|history| - 1]);
      var name := history[|history| - 1].name;
      if name in before then before else before + [name]
  }

  function Sum(xs: seq<int>): int {
    if xs == [] then 0 else Sum(xs[..|xs| - 1]) + xs[|xs| - 1]
  }

  /** Sum of squared distances from a centre. */
  function Scatter(xs: seq<int>, centre: real): real {
    if xs == [] then 0.0
    else
      Scatter(xs[..|xs| - 1], centre) + Times(xs[|xs| - 1] as real - centre, xs[|xs| - 1] as real - centre)
  }

  /** A product kept by name, so that proofs can treat it as one term. */
  function Times(a: real, b: real): real {
    a * b
  }

  /** The statistics computed from all the values at once. */
  ghost predicate Describes(s: Stat, xs: seq<int>) {
    && xs != []
    && s.mean == Sum(xs) as real / |xs| as real
    && s.deviation2 == Scatter(xs, s.mean) / |xs| as real
    && s.max in xs && forall x :: x in xs ==> x <= s.max
  }

  function Cpu(s: Sample): int { s.cpu }

  function Rss(s: Sample): int { s.rss }

  /** What moving the centre by u adds to the scatter of n values whose sum is `off` away from n centres. */
  function Moved(n: real, off: real, u: real): real {
    2.0 * u * off + n * (u * u)
  }

  lemma MovedStep(n: real, off: real, u: real, w: real)
    ensures Moved(n, off, u) + Times(w + u, w + u) == Times(w, w) + Moved(n + 1.0, off + w, u)
  {
    assert (w + u) * (w + u) == w * w + 2.0 * (u * w) + u * u;
    assert 2.0 * u * (off + w) == 2.0 * u * off + 2.0 * (u * w);
  }

  /** Moving the centre changes the scatter by a term in the mean and a term in the move. */
  lemma {:induction false} ScatterShift(xs: seq<int>, a: real, b: real)
    ensures Scatter(xs, b) == Scatter(xs, a) + Moved(|xs| as real, Sum(xs) as real - |xs| as real * a, a - b)
  {
    if xs != [] {
      hide Moved, Times;
      var front, x := xs[..|xs| - 1], xs[|xs| - 1] as real;
      ScatterShift(front, a, b);
      var off, n := Sum(front) as real - |front| as real * a, |front| as real;
      MovedStep(n, off, a - b, x - a);
      assert Sum(xs) as real - |xs| as real * a == off + (x - a) by {
        assert |xs| as real * a == n * a + a;
      }
      assert x - b == (x - a) + (a - b);
    }
  }

  lemma {:induction false} ScatterNonNegative(xs: seq<int>, centre: real)
    ensures Scatter(xs, centre) >= 0.0
  {
    if xs != [] {
      ScatterNonNegative(xs[..|xs| - 1], centre);
    }
  }

  /** The algebra of Welford's step. */
  lemma WelfordAlgebra(m: real, m': real, x: real, n: real)
    requires n > 0.0 && m' == m + (x - m) / (n + 1.0)
    ensures Moved(n, 0.0, m - m') + Times(x - m', x - m') == Times(x - m, x - m')
  {
    var d := m' - m;
    assert (n + 1.0) * d == x - m;
    assert x - m' == n * d;
    assert (m - m') * (m - m') == d * d;
    assert (x - m') * (x - m') == (n * d) * (n * d) == n * n * (d * d);
    assert (x - m) * (x - m') == ((n + 1.0) * d) * (n * d) == (n + 1.0) * n * (d * d);
    assert n * (d * d) + n * n * (d * d) == (n + 1.0) * n * (d * d);
  }

  lemma MeanStep(m: real, total: real, x: real, n: real)
    requires n > 0.0 && m == total / n
    ensures m + (x - m) / (n + 1.0) == (total + x) / (n + 1.0)
  {
    assert n * m == total;
    assert (n + 1.0) * m == total + m;
    assert m == (total + m) / (n + 1.0);
    assert (total + m) / (n + 1.0) + (x - m) / (n + 1.0) == (total + x) / (n + 1.0);
  }

  /** One step takes the statistics of the values so far to the statistics of one value more. */
  lemma {:induction false} StepDescribes(s: Stat, xs: seq<int>, x: int)
    requires Describes(s, xs)
    ensures Describes(Stepped(s, x, |xs| + 1), xs + [x])
  {
    var all, next := xs + [x], Stepped(s, x, |xs| + 1);
    assert all[..|xs|] == xs;
    assert next.mean == Sum(all) as real / |all| as real by {
      MeanStep(s.mean, Sum(xs) as real, x as real, |xs| as real);
    }
    assert next.deviation2 == Scatter(all, next.mean) / |all| as real by {
      ScatterStep(s, xs, x);
    }
  }

  lemma ScatterStep(s: Stat, xs: seq<int>, x: int)
    requires xs != [] && s.mean == Sum(xs) as real / |xs| as real
    requires s.deviation2 == Scatter(xs, s.mean) / |xs| as real
    ensures var next := Stepped(s, x, |xs| + 1);
            next.deviation2 == Scatter(xs + [x], next.mean) / (|xs| + 1) as real
  {
    hide Scatter, Sum, Times, Stepped;
    SteppedIs(s, x, |xs|);
    ScatterAdds(xs, x, s.mean);
    DivideBack(s.deviation2, Scatter(xs, s.mean), |xs| as real);
  }

  lemma SteppedIs(s: Stat, x: int, n: nat)
    ensures var next := Stepped(s, x, n + 1);
      && next.mean == s.mean + (x as real - s.mean) / (n + 1) as real
      && next.deviation2 == (s.deviation2 * n as real + Times(x as real - s.mean, x as real - next.mean)) / (n + 1) as real
  {
    hide Times;
  }

  lemma DivideBack(q: real, a: real, n: real)
    requires n > 0.0 && q == a / n
    ensures q * n == a && a - n * q == 0.0
  {
  }

  lemma ScatterAdds(xs: seq<int>, x: int, m: real)
    requires xs != [] && m == Sum(xs) as real / |xs| as real
    ensures var m' := m + (x as real - m) / (|xs| + 1) as real;
            Scatter(xs + [x], m') == Scatter(xs, m) + Times(x as real - m, x as real - m')
  {
    hide Scatter, Sum, Times, Moved;
    var n := |xs| as real;
    assert (|xs| + 1) as real == n + 1.0;
    var m' := m + (x as real - m) / (|xs| + 1) as real;
    ScatterSnoc(xs, x, m');
    ScatterShift(xs, m, m');
    DivideBack(m, Sum(xs) as real, n);
    assert Sum(xs) as real - |xs| as real * m == 0.0;
    WelfordAlgebra(m, m', x as real, n);
    assert Scatter(xs, m') == Scatter(xs, m) + Moved(n, 0.0, m - m');
  }

  lemma ScatterSnoc(xs: seq<int>, x: int, centre: real)
    ensures Scatter(xs + [x], centre) == Scatter(xs, centre) + Times(x as real - centre, x as real - centre)
  {
    assert (xs + [x])[..|xs|] == xs;
  }

  lemma FirstDescribes(x: int)
    ensures Describes(First(x), [x])
  {
    assert [x][..0] == [];
    assert Sum([x]) == Sum([]) + x;
    ScatterSnoc([], x, x as real);
    assert [] + [x] == [x];
  }

  /** What the records must be after a history. */
  ghost predicate Faithful(rows: seq<Row>, history: seq<Sample>) {
    && |rows| == (if |Names(history)| < MAX_BASELINE then |Names(history)| else MAX_BASELINE)
    && (forall i :: 0 <= i < |rows| ==> rows[i].name == Names(history)[i])
    && (forall i :: 0 <= i < |rows| ==> RowFaithful(rows[i], history))
  }

  ghost predicate RowFaithful(row: Row, history: seq<Sample>) {
    && row.samples == |Values(history, row.name, Cpu)| == |Values(history, row.name, Rss)|
    && Describes(row.cpu, Values(history, row.name, Cpu))
    && Describes(row.rss, Values(history, row.name, Rss))
  }

  lemma {:induction false} NamesDistinct(history: seq<Sample>)
    ensures forall i, j :: 0 <= i < j < |Names(history)| ==> Names(history)[i] != Names(history)[j]
    ensures forall k :: 0 <= k < |history| ==> history[k].name in Names(history)
  {
    if history != [] {
      var front := history[..|history| - 1];
      NamesDistinct(front);
      assert forall k :: 0 <= k < |front| ==> history[k].name == front[k].name;
    }
  }

  lemma {:induction false} UnseenHasNoValues(history: seq<Sample>, name: string, of: Sample -> int)
    requires name !in Names(history)
    ensures Values(history, name, of) == []
  {
    if history != [] {
      UnseenHasNoValues(history[..|history| - 1], name, of);
    }
  }

  lemma RowStep(row: Row, front: seq<Sample>, s: Sample)
    requires RowFaithful(row, front)
    ensures row.name == s.name ==> RowFaithful(Updated(row, s), front + [s])
    ensures row.name != s.name ==> RowFaithful(row, front + [s])
  {
    hide Stepped, Describes;
    var history := front + [s];
    assert history[..|front|] == front;
    if row.name == s.name {
      StepDescribes(row.cpu, Values(front, s.name, Cpu), s.cpu);
      StepDescribes(row.rss, Values(front, s.name, Rss), s.rss);
      assert Values(history, s.name, Cpu) == Values(front, s.name, Cpu) + [s.cpu];
      assert Values(history, s.name, Rss) == Values(front, s.name, Rss) + [s.rss];
    } else {
      assert Values(history, row.name, Cpu) == Values(front, row.name, Cpu);
      assert Values(history, row.name, Rss) == Values(front, row.name, Rss);
    }
  }

  lemma NewRow(front: seq<Sample>, s: Sample)
    requires s.name !in Names(front)
    ensures RowFaithful(Row(s.name, First(s.cpu), First(s.rss), 1), front + [s])
  {
    hide First, Describes;
    assert (front + [s])[..|front|] == front;
    UnseenHasNoValues(front, s.name, Cpu);
    UnseenHasNoValues(front, s.name, Rss);
    FirstDescribes(s.cpu);
    FirstDescribes(s.rss);
    assert Values(front + [s], s.name, Cpu) == [s.cpu];
    assert Values(front + [s], s.name, Rss) == [s.rss];
  }

  lemma UpdateFaithful(rows: seq<Row>, front: seq<Sample>, s: Sample)
    requires Faithful(rows, front)
    ensures Faithful(Update(rows, s), front + [s])
  {
    hide RowFaithful, Values, Updated;
    var history := front + [s];
    assert history[..|front|] == front;
    NamesDistinct(front);
    var i := FindRow(rows, s.name);
    forall k | 0 <= k < |rows|
      ensures k != i ==> RowFaithful(rows[k], history)
      ensures k == i ==> RowFaithful(Updated(rows[k], s), history)
    {
      RowStep(rows[k], front, s);
    }
    if i == |rows| < MAX_BASELINE {
      assert forall k :: 0 <= k < |Names(front)| ==> Names(front)[k] != s.name;
      NewRow(front, s);
    }
    assert i < |rows| ==> Updated(rows[i], s).name == s.name by {
      UpdatedName(rows, s);
    }
    assert i < |rows| ==> s.name in Names(front) by {
      assert i < |rows| ==> Names(front)[i] == s.name;
    }
  }

  lemma UpdatedName(rows: seq<Row>, s: Sample)
    ensures forall k :: 0 <= k < |rows| ==> Updated(rows[k], s).name == rows[k].name
  {
  }

  /** After any history each of the first 128 names has one record, equal to the statistics of all its samples. */
  lemma {:induction false} LearnFaithful(history: seq<Sample>)
    ensures Faithful(Learn(history), history)
    decreases |history|
  {
    hide Faithful, Update;
    if history == [] {
      assert Faithful([], []) by { EmptyFaithful(); }
    } else {
      var front := history[..|history| - 1];
      LearnFaithful(front);
      UpdateFaithful(Learn(front), front, history[|history| - 1]);
      assert front + [history[|history| - 1]] == history;
    }
  }

  lemma EmptyFaithful()
    ensures Faithful([], [])
  {
  }

  /** The argument of the square root is never negative. */
  lemma {:induction false} DeviationNonNegative(history: seq<Sample>, i: nat)
    requires i < |Learn(history)|
    ensures Learn(history)[i].cpu.deviation2 >= 0.0 && Learn(history)[i].rss.deviation2 >= 0.0
  {
    LearnFaithful(history);
    var row := Learn(history)[i];
    assert RowFaithful(row, history);
    ScatterNonNegative(Values(history, row.name, Cpu), row.cpu.mean);
    ScatterNonNegative(Values(history, row.name, Rss), row.rss.mean);
  }

  /** The table itself. */
  class Baselines {
    const table: array<Row>
    var count: nat

    ghost predicate Valid()
      reads this
    {
      table.Length == MAX_BASELINE && count <= MAX_BASELINE
    }

    function Rows(): seq<Row>
      reads this, table
      requires count <= table.Length
    {
      table[..count]
    }

    constructor ()
      ensures Valid() && Rows() == [] && fresh(table)
    {
      table := new Row[MAX_BASELINE](_ => Row("", First(0), First(0), 0));
      count := 0;
    }

    method FindBaseline(name: string) returns (r: nat)
      requires Valid()
      ensures r == FindRow(Rows(), name)
    {
      r := 0;
      while r < count && table[r].name != name
        invariant r <= count
        invariant forall k :: 0 <= k < r ==> table[k].name != name
      {
        r := r + 1;
      }
    }

    method UpdateBaseline(s: Sample)
      requires Valid()
      modifies `count, table
      ensures Valid() && Rows() == Update(old(Rows()), s)
    {
      hide Stepped;
      var i := FindBaseline(s.name);
      if i == count {
        if count < MAX_BASELINE {
          table[count] := Row(s.name, First(s.cpu), First(s.rss), 1);
          count := count + 1;
        }
        return;
      }
      var b := table[i];
      var n := b.samples + 1;
      table[i] := Row(b.name, Stepped(b.cpu, s.cpu, n), Stepped(b.rss, s.rss, n), n);
    }
  }
}
