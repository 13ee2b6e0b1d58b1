/** Lists without repetitions as counts of sets. */
module Counting {

  /** A list without repetitions counts the set of its entries. */
  lemma {:induction false} Listed(list: seq<string>, ids: set<string>)
    requires forall j, k :: 0 <= j < k < |list| ==> list[j] != list[k]
    requires forall id :: id in ids <==> id in list
    ensures |ids| == |list|
    decreases |list|
  {
    if list == [] {
      assert ids == {};
    } else {
      var front, last := list[..|list| - 1], list[|list| - 1];
      assert list == front + [last];
      Listed(front, ids - {last});
    }
  }

  lemma {:induction false} Within(part: set<string>, whole: set<string>)
    requires part <= whole
    ensures |part| <= |whole| && (|part| == |whole| ==> part == whole)
  {
    if part != {} {
      var x :| x in part;
      Within(part - {x}, whole - {x});
    }
  }
}
