/** The bounded rings of gaveld: the ingest queue and the verdict queue, which drop their oldest entry when full. */
module Rings {
  import opened Text

  /** What a push does to the queued entries, oldest first. */
  function Pushed<T>(capacity: nat, q: seq<T>, x: T): seq<T>
    requires capacity > 0
  {
    (if |q| >= capacity then q[1..] else q) + [x]
  }

  function Next(i: nat, n: nat): (r: nat)
    requires i < n
    ensures r < n && r == (if i + 1 == n then 0 else i + 1)
  {
    (i + 1) % n
  }

  /** Where entry i of a ring starting at head lies. */
  function Slot(head: nat, i: nat, n: nat): (r: nat)
    requires head < n && i <= n
    ensures r < n
  {
    if head + i < n then head + i else head + i - n
  }

  class Ring<T(0)> {
    const slots: array<T>
    var head: nat
    var tail: nat
    var count: nat

    ghost predicate Valid()
      reads this
    {
      && 0 < slots.Length && head < slots.Length && count <= slots.Length
      && tail == Slot(head, count, slots.Length)
    }

    /** The queued entries, oldest first. */
    function Contents(): (r: seq<T>)
      reads this, slots
      requires head < slots.Length && count <= slots.Length
      ensures |r| == count
    {
      seq(count, i requires 0 <= i < count && head < slots.Length && count <= slots.Length reads this, slots =>
        slots[Slot(head, i, slots.Length)])
    }

    constructor (capacity: nat)
      requires capacity > 0
      ensures Valid() && slots.Length == capacity && Contents() == [] && fresh(slots)
    {
      slots := new T[capacity];
      head, tail, count := 0, 0, 0;
    }

    method Push(x: T)
      requires Valid()
      modifies this, slots
      ensures Valid() && Contents() == Pushed(slots.Length, old(Contents()), x)
    {
      if count >= slots.Length {
        head := Next(head, slots.Length);
        count := count - 1;
      }
      assert Contents() == if old(count) >= slots.Length then old(Contents())[1..] else old(Contents());
      slots[tail] := x;
      tail := Next(tail, slots.Length);
      count := count + 1;
    }

    /** None is the answer of a stopped, empty queue. */
    method Dequeue() returns (r: Option<T>)
      requires Valid()
      modifies this
      ensures Valid()
      ensures r == (if old(Contents()) == [] then None else Some(old(Contents())[0]))
      ensures Contents() == if old(Contents()) == [] then [] else old(Contents())[1..]
    {
      if count == 0 {
        return None;
      }
      r := Some(slots[head]);
      head := Next(head, slots.Length);
      count := count - 1;
    }

    method Depth() returns (d: nat)
      requires Valid()
      ensures d == |Contents()|
    {
      d := count;
    }
  }

  datatype Op<T> = Put(x: T) | Get

  /** A ring with its past: everything pushed, which of those were handed out, and how many were dropped. */
  datatype Trace<T> = Trace(pushed: seq<T>, taken: seq<nat>, given: seq<T>, dropped: nat, contents: seq<T>)

  function Apply<T>(capacity: nat, t: Trace<T>, op: Op<T>): Trace<T>
    requires capacity > 0
  {
    match op
    case Put(x) => t.(pushed := t.pushed + [x],
                      dropped := if |t.contents| >= capacity then t.dropped + 1 else t.dropped,
                      contents := Pushed(capacity, t.contents, x))
    case Get =>
      if t.contents == [] then t
      else t.(taken := t.taken + [|t.taken| + t.dropped], given := t.given + [t.contents[0]], contents := t.contents[1..])
  }

  function Run<T>(capacity: nat, ops: seq<Op<T>>): Trace<T>
    requires capacity > 0
  {
    if ops == [] then Trace([], [], [], 0, [])
    else Apply(capacity, Run(capacity, ops[..|ops| - 1]), ops[|ops| - 1])
  }

  /** The contents are the newest pushes, and what was handed out is a subsequence of the rest, in order. */
  ghost predicate Orderly<T>(capacity: nat, t: Trace<T>) {
    && |t.contents| <= capacity && |t.contents| <= |t.pushed|
    && t.contents == t.pushed[|t.pushed| - |t.contents|..]
    && |t.pushed| == |t.taken| + t.dropped + |t.contents|
    && |t.given| == |t.taken|
    && (forall k :: 0 <= k < |t.taken| ==> t.taken[k] < |t.pushed| - |t.contents| && t.given[k] == t.pushed[t.taken[k]])
    && (forall j, k :: 0 <= j < k < |t.taken| ==> t.taken[j] < t.taken[k])
  }

  lemma {:induction false} ApplyOrderly<T>(capacity: nat, t: Trace<T>, op: Op<T>)
    requires capacity > 0 && Orderly(capacity, t)
    ensures Orderly(capacity, Apply(capacity, t, op))
  {
    match op
    case Put(x) => PutOrderly(capacity, t, x);
    case Get => GetOrderly(capacity, t);
  }

  lemma PutOrderly<T>(capacity: nat, t: Trace<T>, x: T)
    requires capacity > 0 && Orderly(capacity, t)
    ensures Orderly(capacity, Apply(capacity, t, Put(x)))
  {
    var cut := |t.pushed| - |t.contents|;
    assert (t.pushed + [x])[cut..] == t.contents + [x];
    assert |t.contents| > 0 ==> (t.pushed + [x])[cut + 1..] == t.contents[1..] + [x];
  }

  lemma GetOrderly<T>(capacity: nat, t: Trace<T>)
    requires capacity > 0 && Orderly(capacity, t)
    ensures Orderly(capacity, Apply(capacity, t, Get))
  {
    var cut := |t.pushed| - |t.contents|;
    if t.contents != [] {
      assert t.contents[0] == t.pushed[cut];
      assert t.pushed[cut + 1..] == t.contents[1..];
    }
  }

  /** In any run of pushes and dequeues. */
  lemma {:induction false} RunOrderly<T>(capacity: nat, ops: seq<Op<T>>)
    requires capacity > 0
    ensures Orderly(capacity, Run(capacity, ops))
  {
    hide Orderly;
    if ops == [] {
      EmptyOrderly<T>(capacity);
    } else {
      RunOrderly(capacity, ops[..|ops| - 1]);
      ApplyOrderly(capacity, Run(capacity, ops[..|ops| - 1]), ops[|ops| - 1]);
    }
  }

  lemma EmptyOrderly<T>(capacity: nat)
    ensures Orderly<T>(capacity, Trace([], [], [], 0, []))
  {
  }
}
