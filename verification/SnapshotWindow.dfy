/** overlordd's ten-slot window of snapshots and the trend it reads from it. */
module SnapshotWindow {

  const WINDOW_SIZE: nat := 10

  /** The newest snapshots of a history, oldest first, at most a window of them. */
  function Newest<T>(history: seq<T>): seq<T> {
    if |history| <= WINDOW_SIZE then history else history[|history| - WINDOW_SIZE..]
  }

  /** How often a value is below the known value just before it; negative values mean "no data". */
  function Falls(values: seq<int>): nat {
    if |values| < 2 then 0
    else
      var n := |values|;
      Falls(values[..n - 1]) + (if values[n - 2] >= 0 && values[n - 1] < values[n - 2] then 1 else 0)
  }

  /** The value at i is below the one just before it, which is known. */
  predicate FallAt(values: seq<int>, i: int) {
    1 <= i < |values| && values[i - 1] >= 0 && values[i] < values[i - 1]
  }

  ghost function FallsAt(values: seq<int>): set<int> {
    set i | 0 <= i < |values| && FallAt(values, i)
  }

  lemma {:induction false} FallsCounts(values: seq<int>)
    ensures Falls(values) == |FallsAt(values)|
  {
    if |values| < 2 {
      assert FallsAt(values) == {};
    } else {
      var n := |values| - 1;
      var front := values[..n];
      FallsCounts(front);
      forall i ensures i in FallsAt(values) <==> i in FallsAt(front) || (i == n && FallAt(values, n)) {
        assert i < n ==> (FallAt(values, i) <==> FallAt(front, i));
      }
      assert FallsAt(values) == FallsAt(front) + (if FallAt(values, n) then {n} else {});
    }
  }

  function Values<T>(snaps: seq<T>, getter: T -> int): (r: seq<int>)
    ensures |r| == |snaps|
  {
    seq(|snaps|, i requires 0 <= i < |snaps| => getter(snaps[i]))
  }

  /** The loop's index arithmetic, before and after the window has filled. */
  lemma SlotFormula(n: nat, i: nat)
    requires i < WINDOW_SIZE
    ensures n >= WINDOW_SIZE ==> (n % WINDOW_SIZE - WINDOW_SIZE + i + WINDOW_SIZE) % WINDOW_SIZE == (n - WINDOW_SIZE + i) % WINDOW_SIZE
    ensures (i + WINDOW_SIZE) % WINDOW_SIZE == i % WINDOW_SIZE == i
  {
    var q := n / WINDOW_SIZE;
    assert n == WINDOW_SIZE * q + n % WINDOW_SIZE;
  }

  lemma NextSlot(n: nat)
    ensures (n % WINDOW_SIZE + 1) % WINDOW_SIZE == (n + 1) % WINDOW_SIZE
    ensures (n + 1) % WINDOW_SIZE == 0 ==> n + 1 >= WINDOW_SIZE
    ensures n + 1 == WINDOW_SIZE ==> (n + 1) % WINDOW_SIZE == 0
  {
  }

  /** Of ten snapshots in a row no two share a slot. */
  lemma OtherSlot(n: nat, i: nat)
    requires i < n < i + WINDOW_SIZE
    ensures i % WINDOW_SIZE != n % WINDOW_SIZE
  {
  }

  class Window<T(0)> {
    const slots: array<T>
    var pos: nat
    var full: bool
    ghost var history: seq<T>

    ghost predicate Valid()
      reads this, slots
    {
      && slots.Length == WINDOW_SIZE && pos < WINDOW_SIZE
      && full == (|history| >= WINDOW_SIZE)
      && pos == |history| % WINDOW_SIZE
      && forall i :: 0 <= i < |history| && |history| - WINDOW_SIZE <= i ==> history[i] == slots[i % WINDOW_SIZE]
    }

    constructor ()
      ensures Valid() && history == [] && fresh(slots)
    {
      slots := new T[WINDOW_SIZE];
      pos, full := 0, false;
      history := [];
    }

    method UpdateWindow(s: T)
      requires Valid()
      modifies this, slots
      ensures Valid() && history == old(history) + [s]
    {
      NextSlot(|history|);
      forall i | 0 <= i < |history| && |history| - WINDOW_SIZE < i ensures i % WINDOW_SIZE != |history| % WINDOW_SIZE {
        OtherSlot(|history|, i);
      }
      slots[pos] := s;
      pos := (pos + 1) % WINDOW_SIZE;
      if !full && pos == 0 {
        full := true;
      }
      history := history + [s];
    }

    /** The index the trend loop computes names the i-th oldest kept snapshot. */
    lemma Visits(count: nat, i: nat)
      requires Valid() && count == (if full then WINDOW_SIZE else pos) && i < count
      ensures |Newest(history)| == count
      ensures slots[(pos as int - count + i + WINDOW_SIZE) % WINDOW_SIZE] == Newest(history)[i]
    {
      var n := |history|;
      SlotFormula(n, i);
      assert Newest(history)[i] == history[n - count + i];
    }

    method TrendFalling(getter: T -> int, threshold: int) returns (r: bool)
      requires Valid()
      ensures r <==> |history| >= 3 && Falls(Values(Newest(history), getter)) >= threshold
    {
      var count := if full then WINDOW_SIZE else pos;
      if count < 3 {
        return false;
      }
      var prev, falling := -1, 0;
      ghost var values := Values(Newest(history), getter);
      Visits(count, 0);
      for i := 0 to count
        invariant |values| == count
        invariant falling == Falls(values[..i])
        invariant prev == if i == 0 then -1 else values[i - 1]
      {
        Visits(count, i);
        var idx := (pos as int - count + i + WINDOW_SIZE) % WINDOW_SIZE;
        var val := getter(slots[idx]);
        if prev >= 0 && val < prev {
          falling := falling + 1;
        }
        prev := val;
        assert values[..i + 1][..i] == values[..i];
      }
      assert values[..count] == values;
      return falling >= threshold;
    }
  }
}
