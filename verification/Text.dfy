/** Substring search and line-end trimming on C strings (text up to, not including, the NUL). */
module Text {

  datatype Option<+T> = None | Some(value: T)

  predicate IsEol(c: char) {
    c == '\n' || c == '\r'
  }

  predicate OccursAt(hay: string, needle: string, i: nat) {
    i + |needle| <= |hay| && hay[i..i + |needle|] == needle
  }

  /** No occurrence of the needle anywhere in the text. */
  ghost predicate Absent(hay: string, needle: string) {
    forall i: nat :: !OccursAt(hay, needle, i)
  }

  predicate OneLine(s: string) {
    forall j :: 0 <= j < |s| ==> !IsEol(s[j])
  }

  /** Empty, or ended by a newline: what a well-behaved command prints. */
  predicate Terminated(s: string) {
    s != "" ==> s[|s| - 1] == '\n'
  }

  /** At most the first n characters, what strncpy keeps. */
  function Take(s: string, n: nat): string {
    if n < |s| then s[..n] else s
  }

  /** The offset strstr reports, None for a null result. */
  function Find(hay: string, needle: string): (r: Option<nat>)
    ensures r.Some? ==> r.value + |needle| <= |hay|
  {
    FindFrom(hay, needle, 0)
  }

  function FindFrom(hay: string, needle: string, from: nat): (r: Option<nat>)
    requires from <= |hay|
    ensures r.Some? ==> from <= r.value && r.value + |needle| <= |hay|
    decreases |hay| - from
  {
    if OccursAt(hay, needle, from) then Some(from)
    else if from == |hay| then None
    else FindFrom(hay, needle, from + 1)
  }

  function TrimLeft(s: string): (r: string)
    ensures |r| <= |s|
  {
    if s != "" && IsEol(s[0]) then TrimLeft(s[1..]) else s
  }

  function TrimRight(s: string): (r: string)
    ensures |r| <= |s|
  {
    if s != "" && IsEol(s[|s| - 1]) then TrimRight(s[..|s| - 1]) else s
  }

  function Trim(s: string): string {
    TrimRight(TrimLeft(s))
  }

  /** Find reports the first occurrence, and None only when there is none. */
  lemma {:induction false} FindFromFirst(hay: string, needle: string, from: nat)
    requires from <= |hay|
    ensures match FindFrom(hay, needle, from)
            case Some(p) => from <= p && OccursAt(hay, needle, p)
                            && forall i: nat :: from <= i < p ==> !OccursAt(hay, needle, i)
            case None => forall i: nat :: from <= i ==> !OccursAt(hay, needle, i)
    decreases |hay| - from
  {
    if !OccursAt(hay, needle, from) && from < |hay| {
      FindFromFirst(hay, needle, from + 1);
    }
  }

  lemma FindFirst(hay: string, needle: string)
    ensures match Find(hay, needle)
            case Some(p) => OccursAt(hay, needle, p) && forall i: nat :: i < p ==> !OccursAt(hay, needle, i)
            case None => Absent(hay, needle)
  {
    hide OccursAt;
    FindFromFirst(hay, needle, 0);
  }

  /** Trimming removes line ends only, all of them, on its own side. */
  lemma {:induction false} TrimLeftKeeps(s: string)
    ensures |TrimLeft(s)| <= |s| && TrimLeft(s) == s[|s| - |TrimLeft(s)|..]
    ensures TrimLeft(s) == "" || !IsEol(TrimLeft(s)[0])
    ensures forall k :: 0 <= k < |s| - |TrimLeft(s)| ==> IsEol(s[k])
  {
    if s != "" && IsEol(s[0]) {
      TrimLeftKeeps(s[1..]);
      assert forall k :: 1 <= k < |s| ==> s[k] == s[1..][k - 1];
    }
  }

  lemma {:induction false} TrimRightKeeps(s: string)
    ensures |TrimRight(s)| <= |s| && TrimRight(s) == s[..|TrimRight(s)|]
    ensures TrimRight(s) == "" || !IsEol(TrimRight(s)[|TrimRight(s)| - 1])
    ensures forall k :: |TrimRight(s)| <= k < |s| ==> IsEol(s[k])
  {
    if s != "" && IsEol(s[|s| - 1]) {
      TrimRightKeeps(s[..|s| - 1]);
      assert forall k :: 0 <= k < |s| - 1 ==> s[k] == s[..|s| - 1][k];
    }
  }

  /** The trimmed text is the only slice with these properties. */
  lemma {:induction false} TrimLeftUnique(s: string, k: nat)
    requires k <= |s|
    requires forall j :: 0 <= j < k ==> IsEol(s[j])
    requires k == |s| || !IsEol(s[k])
    ensures TrimLeft(s) == s[k..]
  {
    if k != 0 {
      assert s[1..][k - 1..] == s[k..];
      TrimLeftUnique(s[1..], k - 1);
    }
  }

  lemma {:induction false} TrimRightUnique(s: string, k: nat)
    requires k <= |s|
    requires forall j :: k <= j < |s| ==> IsEol(s[j])
    requires k == 0 || !IsEol(s[k - 1])
    ensures TrimRight(s) == s[..k]
  {
    if k != |s| {
      assert s[..|s| - 1][..k] == s[..k];
      TrimRightUnique(s[..|s| - 1], k);
    }
  }

  /** Trimming on the left never reaches past a text that starts with a visible character. */
  lemma {:induction false} TrimLeftBefore(a: string, rest: string)
    requires rest == "" || !IsEol(rest[0])
    ensures TrimLeft(a + rest) == TrimLeft(a) + rest
  {
    if a == "" {
      assert a + rest == rest;
    } else if IsEol(a[0]) {
      assert (a + rest)[1..] == a[1..] + rest;
      TrimLeftBefore(a[1..], rest);
    }
  }

  /** Printing an extra leading newline does not change the trimmed text. */
  lemma TrimLeftNewline(s: string)
    ensures TrimLeft("\n" + s) == TrimLeft(s)
  {
    assert ("\n" + s)[1..] == s;
  }

  lemma FindIs(hay: string, needle: string, p: nat)
    requires OccursAt(hay, needle, p)
    requires forall i: nat :: i < p ==> !OccursAt(hay, needle, i)
    ensures Find(hay, needle) == Some(p)
  {
    hide OccursAt;
    FindFirst(hay, needle);
  }

  lemma OccursInTail(a: string, b: string, needle: string, i: nat)
    ensures OccursAt(a + b, needle, |a| + i) <==> OccursAt(b, needle, i)
  {
    if i + |needle| <= |b| {
      assert (a + b)[|a| + i..|a| + i + |needle|] == b[i..i + |needle|];
    }
  }

  lemma OccurrenceCovers(hay: string, needle: string, i: nat, p: nat)
    requires OccursAt(hay, needle, i) && i <= p < i + |needle|
    ensures hay[p] == needle[p - i]
  {
    assert hay[p] == hay[i..i + |needle|][p - i];
  }

  /** A one-line needle cannot straddle the newline that ends `a`. */
  lemma NoStraddle(a: string, b: string, needle: string, i: nat)
    requires OneLine(needle)
    requires i < |a| && a[|a| - 1] == '\n'
    requires OccursAt(a + b, needle, i)
    ensures OccursAt(a, needle, i)
  {
    if |a| < i + |needle| {
      OccurrenceCovers(a + b, needle, i, |a| - 1);
    }
    assert (a + b)[i..i + |needle|] == a[i..i + |needle|];
  }

  /** Searching past complete lines that do not hold the needle. */
  lemma FindBeyondLine(a: string, b: string, needle: string)
    requires OneLine(needle)
    requires Terminated(a) && Absent(a, needle)
    ensures Find(b, needle).None? ==> Find(a + b, needle).None?
    ensures Find(b, needle).Some? ==> Find(a + b, needle) == Some(|a| + Find(b, needle).value)
  {
    hide OccursAt, Find;
    FindFirst(a + b, needle);
    FindFirst(b, needle);
    forall i: nat | i < |a| ensures !OccursAt(a + b, needle, i) {
      if OccursAt(a + b, needle, i) {
        NoStraddle(a, b, needle, i);
      }
    }
    forall i: nat | |a| <= i ensures OccursAt(a + b, needle, i) ==> OccursAt(b, needle, i - |a|) {
      OccursInTail(a, b, needle, i - |a|);
    }
    if Find(b, needle).Some? {
      var q := Find(b, needle).value;
      OccursInTail(a, b, needle, q);
      FindIs(a + b, needle, |a| + q);
    }
  }

  lemma FindPrefix(needle: string, text: string)
    requires needle <= text
    ensures Find(text, needle) == Some(0)
  {
    hide Find;
    FindIs(text, needle, 0);
  }

  lemma SliceOfSlice(a: string, lo: nat, hi: nat, i: nat, k: nat)
    requires lo <= hi <= |a| && i <= k <= hi - lo
    ensures a[lo..hi][i..k] == a[lo + i..lo + k]
  {
    forall j | 0 <= j < k - i ensures a[lo..hi][i..k][j] == a[lo + i..lo + k][j] {
    }
  }

  lemma OccursInWhole(a: string, lo: nat, hi: nat, needle: string, i: nat)
    requires lo <= hi <= |a| && OccursAt(a[lo..hi], needle, i)
    ensures OccursAt(a, needle, lo + i)
  {
    SliceOfSlice(a, lo, hi, i, i + |needle|);
  }

  lemma AbsentInPart(a: string, lo: nat, hi: nat, needle: string)
    requires lo <= hi <= |a| && Absent(a, needle)
    ensures Absent(a[lo..hi], needle)
  {
    hide OccursAt;
    forall i: nat ensures !OccursAt(a[lo..hi], needle, i) {
      if OccursAt(a[lo..hi], needle, i) {
        OccursInWhole(a, lo, hi, needle, i);
      }
    }
  }

  lemma AbsentInLines(a: string, b: string, needle: string)
    requires OneLine(needle)
    requires Terminated(a) && Absent(a, needle) && Absent(b, needle)
    ensures Absent(a + b, needle)
  {
    hide OccursAt, Find;
    FindFirst(a + b, needle);
    FindFirst(b, needle);
    FindBeyondLine(a, b, needle);
  }

  lemma TrimLeftSilent(s: string, needle: string)
    requires Absent(s, needle)
    ensures Absent(TrimLeft(s), needle)
  {
    TrimLeftKeeps(s);
    var k := |s| - |TrimLeft(s)|;
    assert TrimLeft(s) == s[k..|s|];
    AbsentInPart(s, k, |s|, needle);
  }

  lemma TrimLeftLines(s: string)
    requires Terminated(s)
    ensures Terminated(TrimLeft(s))
  {
    TrimLeftKeeps(s);
    var r := TrimLeft(s);
    assert r != "" ==> r[|r| - 1] == s[|s| - 1];
  }

  lemma AbsentIfShort(s: string, needle: string)
    requires |s| < |needle|
    ensures Absent(s, needle)
  {
  }

  /** The pointer walk over leading line ends. */
  method SkipLineEnds(s: string, start: nat) returns (r: nat)
    requires start <= |s|
    ensures start <= r <= |s| && s[r..] == TrimLeft(s[start..])
  {
    r := start;
    while r < |s| && IsEol(s[r])
      invariant start <= r <= |s|
      invariant TrimLeft(s[r..]) == TrimLeft(s[start..])
    {
      assert s[r..][1..] == s[r + 1..];
      r := r + 1;
    }
  }

  /** The length walk back over trailing line ends. */
  method TrimmedLength(s: string, length: nat) returns (r: nat)
    requires length <= |s|
    ensures r <= length && s[..r] == TrimRight(s[..length])
  {
    r := length;
    while r > 0 && IsEol(s[r - 1])
      invariant r <= length
      invariant TrimRight(s[..r]) == TrimRight(s[..length])
    {
      assert s[..r][..r - 1] == s[..r - 1];
      r := r - 1;
    }
  }
}
