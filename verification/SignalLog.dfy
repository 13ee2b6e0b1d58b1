/** The signal_window table: inserts, pruning, and the two questions asked of it. */
module SignalLog {
  import Counting

  const SIGNAL_WINDOW_SEC: int := 120
  const DISTINCT_LIMIT: nat := 16

  datatype Signal = Signal(source: string, name: string, epoch: int)

  function Pruned(window: seq<Signal>, cutoff: int): (r: seq<Signal>)
    ensures |r| <= |window|
  {
    if window == [] then []
    else
      var last := window[|window| - 1];
      Pruned(window[..|window| - 1], cutoff) + (if last.epoch < cutoff then [] else [last])
  }

  predicate Active(window: seq<Signal>, source: string, since: int) {
    exists k :: 0 <= k < |window| && window[k].source == source && window[k].epoch > since
  }

  /** The distinct names seen for a source, in order of first appearance, at most sixteen. */
  function Distinct(window: seq<Signal>, source: string, since: int): (r: seq<string>)
    ensures |r| <= DISTINCT_LIMIT
  {
    if window == [] then []
    else
      var before := Distinct(window[..|window| - 1], source, since);
      var last := window[|window| - 1];
      if last.source == source && last.epoch > since && last.name !in before && |before| < DISTINCT_LIMIT
      then before + [last.name] else before
  }

  lemma {:induction false} PrunedHolds(window: seq<Signal>, cutoff: int)
    ensures forall s :: s in Pruned(window, cutoff) <==> s in window && s.epoch >= cutoff
  {
    if window != [] {
      var front := window[..|window| - 1];
      PrunedHolds(front, cutoff);
      assert window == front + [window[|window| - 1]];
    }
  }

  lemma ActiveMeans(window: seq<Signal>, source: string, since: int)
    ensures Active(window, source, since) <==> exists s :: s in window && s.source == source && s.epoch > since
  {
    if Active(window, source, since) {
      var k :| 0 <= k < |window| && window[k].source == source && window[k].epoch > since;
      assert window[k] in window;
    }
  }

  /** Pruning never changes the answer to a question about a later time. */
  lemma {:induction false} PruneInvisibleActive(window: seq<Signal>, cutoff: int, source: string, since: int)
    requires cutoff <= since + 1
    ensures Active(Pruned(window, cutoff), source, since) == Active(window, source, since)
  {
    hide Pruned, Active;
    PrunedHolds(window, cutoff);
    ActiveMeans(window, source, since);
    ActiveMeans(Pruned(window, cutoff), source, since);
  }

  lemma {:induction false} PruneInvisibleDistinct(window: seq<Signal>, cutoff: int, source: string, since: int)
    requires cutoff <= since + 1
    ensures Distinct(Pruned(window, cutoff), source, since) == Distinct(window, source, since)
  {
    if window != [] {
      var front, last := window[..|window| - 1], window[|window| - 1];
      PruneInvisibleDistinct(front, cutoff, source, since);
      if last.epoch >= cutoff {
        assert Pruned(window, cutoff)[..|Pruned(front, cutoff)|] == Pruned(front, cutoff);
      } else {
        assert Pruned(front, cutoff) + [] == Pruned(front, cutoff);
      }
    }
  }

  /** That is as far as it goes: pruning later than a second after the time asked about can change either answer. */
  lemma {:induction false} PruneInvisibleExactly(cutoff: int, source: string, since: int)
    ensures (forall w :: Distinct(Pruned(w, cutoff), source, since) == Distinct(w, source, since)) <==> cutoff <= since + 1
    ensures (forall w :: Active(Pruned(w, cutoff), source, since) == Active(w, source, since)) <==> cutoff <= since + 1
  {
    if cutoff <= since + 1 {
      hide Pruned, Active, Distinct;
      forall w
        ensures Distinct(Pruned(w, cutoff), source, since) == Distinct(w, source, since)
        ensures Active(Pruned(w, cutoff), source, since) == Active(w, source, since)
      {
        PruneInvisibleDistinct(w, cutoff, source, since);
        PruneInvisibleActive(w, cutoff, source, since);
      }
    } else {
      OneIsHidden(cutoff, source, since);
    }
  }

  lemma OneIsHidden(cutoff: int, source: string, since: int)
    requires cutoff > since + 1
    ensures var w := [Signal(source, "", since + 1)];
      && Distinct(Pruned(w, cutoff), source, since) != Distinct(w, source, since)
      && Active(Pruned(w, cutoff), source, since) != Active(w, source, since)
  {
    var w := [Signal(source, "", since + 1)];
    assert w[..0] == [];
    assert Pruned(w, cutoff) == [];
    assert w[0].source == source && w[0].epoch > since;
  }

  /** The names given are those of signals from the source after the time asked about. */
  lemma {:induction false} DistinctNamed(window: seq<Signal>, source: string, since: int, name: string)
    requires name in Distinct(window, source, since)
    ensures exists x :: x in window && x.source == source && x.name == name && x.epoch > since
  {
    var front, last := window[..|window| - 1], window[|window| - 1];
    assert last in window;
    if name in Distinct(front, source, since) {
      DistinctNamed(front, source, since, name);
    }
  }

  /** The oldest such signal is always named. */
  lemma {:induction false} OldestNamed(window: seq<Signal>, source: string, since: int)
    requires window != [] && window[0].source == source && window[0].epoch > since
    ensures window[0].name in Distinct(window, source, since)
  {
    if |window| == 1 {
      assert window[..0] == [];
    } else {
      OldestNamed(window[..|window| - 1], source, since);
    }
  }

  /** All the names a source's signals after a time bear. */
  ghost function NamesSince(window: seq<Signal>, source: string, since: int): set<string> {
    set x | x in window && x.source == source && x.epoch > since :: x.name
  }

  lemma NamesSnoc(front: seq<Signal>, x: Signal, source: string, since: int)
    ensures NamesSince(front + [x], source, since)
         == NamesSince(front, source, since) + (if x.source == source && x.epoch > since then {x.name} else {})
  {
    forall name ensures name in NamesSince(front + [x], source, since) <==>
                          name in NamesSince(front, source, since) || (x.source == source && x.epoch > since && name == x.name) {
      if name in NamesSince(front + [x], source, since) {
        var y :| y in front + [x] && y.source == source && y.epoch > since && y.name == name;
      }
      if name in NamesSince(front, source, since) {
        var y :| y in front && y.source == source && y.epoch > since && y.name == name;
        assert y in front + [x];
      }
      assert x in front + [x];
    }
  }

  lemma {:induction false} DistinctLists(window: seq<Signal>, source: string, since: int)
    ensures var list := Distinct(window, source, since);
      && (forall j, k :: 0 <= j < k < |list| ==> list[j] != list[k])
      && (forall name :: name in list ==> name in NamesSince(window, source, since))
      && (|list| < DISTINCT_LIMIT ==> forall name :: name in NamesSince(window, source, since) ==> name in list)
  {
    if window != [] {
      hide NamesSince;
      var front, last := window[..|window| - 1], window[|window| - 1];
      assert window == front + [last];
      DistinctLists(front, source, since);
      NamesSnoc(front, last, source, since);
    } else {
      assert NamesSince(window, source, since) == {};
    }
  }

  /**
    No name is listed twice; fewer than sixteen names are listed exactly as far as signals after the time bear them,
    and a list of sixteen leaves out names only when there are more than sixteen.
   */
  lemma {:induction false} DistinctExactly(window: seq<Signal>, source: string, since: int)
    ensures var list, names := Distinct(window, source, since), NamesSince(window, source, since);
      && (forall j, k :: 0 <= j < k < |list| ==> list[j] != list[k])
      && |list| == (if |names| < DISTINCT_LIMIT then |names| else DISTINCT_LIMIT)
      && (forall name :: name in list ==> name in names)
      && (|names| <= DISTINCT_LIMIT ==> forall name :: name in names ==> name in list)
  {
    hide Distinct, NamesSince;
    DistinctLists(window, source, since);
    var list, names := Distinct(window, source, since), NamesSince(window, source, since);
    var listed := set name | name in list;
    Counting.Listed(list, listed);
    assert listed <= names;
    Counting.Within(listed, names);
    if |list| < DISTINCT_LIMIT {
      assert listed == names;
    }
  }

  /** Pruning twice is pruning once, at the later time. */
  lemma {:induction false} PruneTwice(window: seq<Signal>, first: int, second: int)
    requires first <= second
    ensures Pruned(Pruned(window, first), second) == Pruned(window, second)
  {
    if window != [] {
      var front, last := window[..|window| - 1], window[|window| - 1];
      PruneTwice(front, first, second);
      if last.epoch >= first {
        assert Pruned(window, first)[..|Pruned(front, first)|] == Pruned(front, first);
      } else {
        assert Pruned(front, first) + [] == Pruned(front, first);
        assert Pruned(front, second) + [] == Pruned(front, second);
      }
    }
  }

  lemma PruneAppend(window: seq<Signal>, s: Signal, cutoff: int)
    requires s.epoch >= cutoff
    ensures Pruned(window + [s], cutoff) == Pruned(window, cutoff) + [s]
  {
    assert (window + [s])[..|window|] == window;
  }
}
