/** json_escape: free text escaped into a bounded buffer as the content of a JSON string. */
module JsonEscape {
  import opened Text

  type Byte = b: int | 0 <= b < 256

  const QUOTE: Byte := 0x22
  const BACKSLASH: Byte := 0x5C
  const LF: Byte := 0x0A
  const CR: Byte := 0x0D
  const TAB: Byte := 0x09

  function Escaped(c: Byte): seq<Byte> {
    if c == QUOTE || c == BACKSLASH then [BACKSLASH, c]
    else if c == LF then [BACKSLASH, 0x6E]
    else if c == CR then [BACKSLASH, 0x72]
    else if c == TAB then [BACKSLASH, 0x74]
    else if c < 0x20 then []
    else [c]
  }

  function EscapedAll(s: seq<Byte>): seq<Byte> {
    if s == [] then [] else EscapedAll(s[..|s| - 1]) + Escaped(s[|s| - 1])
  }

  /** How many bytes the loop consumes from position i on, having written j, in a buffer of the given size. */
  function Fit(s: seq<Byte>, i: nat, j: nat, size: nat): (r: nat)
    requires i <= |s|
    ensures i <= r <= |s|
    decreases |s| - i
  {
    if i == |s| || j + 1 >= size || (|Escaped(s[i])| == 2 && j + 2 >= size) then i
    else Fit(s, i + 1, j + |Escaped(s[i])|, size)
  }

  /** A control byte other than newline, carriage return and tab. */
  predicate Dropped(c: Byte) {
    c < 0x20 && c != 0x0A && c != 0x0D && c != 0x09
  }

  /** The input without the dropped bytes. */
  function Kept(s: seq<Byte>): seq<Byte> {
    if s == [] then [] else Kept(s[..|s| - 1]) + (if Dropped(s[|s| - 1]) then [] else [s[|s| - 1]])
  }

  /**
    The bytes a JSON string content stands for (section 7 of RFC 8259); None for anything the grammar
    refuses there. Of the escapes it accepts only the two-character ones.
   */
  function Decode(s: seq<Byte>): Option<seq<Byte>> {
    if s == [] then Some([])
    else if s[0] == QUOTE || s[0] < 0x20 then None
    else if s[0] != BACKSLASH then Prepend(s[0], Decode(s[1..]))
    else if |s| == 1 || Unescape(s[1]).None? then None
    else Prepend(Unescape(s[1]).value, Decode(s[2..]))
  }

  function Unescape(c: Byte): Option<Byte> {
    if c == QUOTE || c == BACKSLASH || c == 0x2F then Some(c)
    else if c == 0x62 then Some(0x08)
    else if c == 0x66 then Some(0x0C)
    else if c == 0x6E then Some(LF)
    else if c == 0x72 then Some(CR)
    else if c == 0x74 then Some(TAB)
    else None
  }

  function Prepend(c: Byte, rest: Option<seq<Byte>>): Option<seq<Byte>> {
    match rest case None => None case Some(t) => Some([c] + t)
  }

  function Append(front: seq<Byte>, rest: Option<seq<Byte>>): Option<seq<Byte>> {
    match rest case None => None case Some(t) => Some(front + t)
  }

  lemma AppendMore(a: seq<Byte>, b: seq<Byte>, rest: Option<seq<Byte>>)
    ensures Append(a, Append(b, rest)) == Append(a + b, rest)
  {
    match rest
    case None =>
    case Some(t) => assert a + (b + t) == a + b + t;
  }

  lemma ByteDecodes(c: Byte, rest: seq<Byte>)
    ensures Decode(Escaped(c) + rest) == Append(if Dropped(c) then [] else [c], Decode(rest))
  {
    var text := Escaped(c) + rest;
    if |Escaped(c)| == 2 {
      assert text[2..] == rest;
    } else if |Escaped(c)| == 1 {
      assert text[1..] == rest;
    } else {
      assert text == rest;
      match Decode(rest) case None => case Some(t) => assert [] + t == t;
    }
  }

  lemma {:induction false} FrontDecodes(s: seq<Byte>, rest: seq<Byte>)
    ensures Decode(EscapedAll(s) + rest) == Append(Kept(s), Decode(rest))
    decreases |s|
  {
    hide Decode, Escaped;
    if s == [] {
      assert EscapedAll(s) + rest == rest;
      match Decode(rest) case None => case Some(t) => assert [] + t == t;
    } else {
      var front, c := s[..|s| - 1], s[|s| - 1];
      assert EscapedAll(s) + rest == EscapedAll(front) + (Escaped(c) + rest);
      FrontDecodes(front, Escaped(c) + rest);
      ByteDecodes(c, rest);
      AppendMore(Kept(front), if Dropped(c) then [] else [c], Decode(rest));
    }
  }

  /** The escaped text is JSON string content and stands for the input minus the dropped control bytes. */
  lemma EscapedDecodes(s: seq<Byte>)
    ensures Decode(EscapedAll(s)) == Some(Kept(s))
  {
    FrontDecodes(s, []);
    assert EscapedAll(s) + [] == EscapedAll(s);
    assert Kept(s) + [] == Kept(s);
    assert Decode([]) == Some([]);
  }

  lemma EscapedGrows(s: seq<Byte>, k: nat)
    requires k < |s|
    ensures EscapedAll(s[..k + 1]) == EscapedAll(s[..k]) + Escaped(s[k])
  {
    assert s[..k + 1][..k] == s[..k];
  }

  lemma {:induction false} EscapedMonotone(s: seq<Byte>, j: nat, k: nat)
    requires j <= k <= |s|
    ensures EscapedAll(s[..j]) <= EscapedAll(s[..k])
  {
    hide EscapedAll, Escaped;
    if j < k {
      EscapedMonotone(s, j, k - 1);
      EscapedGrows(s, k - 1);
    }
  }

  /** The loop stops with everything it wrote inside the buffer, and stops early only when the rest does not fit. */
  lemma {:induction false} FitStops(s: seq<Byte>, i: nat, size: nat)
    requires i <= |s| && |EscapedAll(s[..i])| < size
    ensures var k := Fit(s, i, |EscapedAll(s[..i])|, size);
            |EscapedAll(s[..k])| < size && (EscapedAll(s[..k]) == EscapedAll(s) <==> |EscapedAll(s)| < size)
    decreases |s| - i
  {
    hide EscapedAll;
    assert s[..|s|] == s;
    if i < |s| {
      EscapedGrows(s, i);
      EscapedMonotone(s, i + 1, |s|);
      EscapedMonotone(s, i, |s|);
      var j := |EscapedAll(s[..i])|;
      if !(j + 1 >= size || (|Escaped(s[i])| == 2 && j + 2 >= size)) {
        FitStops(s, i + 1, size);
      }
    }
  }

  /**
    Whatever the input, the buffer ends up holding string content that stands for a prefix of the
    input minus dropped control bytes, and for all of it exactly when the escaped input fits.
   */
  lemma {:induction false} NeverBroken(s: seq<Byte>, size: nat)
    requires size > 0
    ensures var shown := EscapedAll(s[..Fit(s, 0, 0, size)]);
            && |shown| < size
            && Decode(shown) == Some(Kept(s[..Fit(s, 0, 0, size)]))
            && (shown == EscapedAll(s) <==> |EscapedAll(s)| < size)
    ensures var k := Fit(s, 0, 0, size);
            k < |s| ==> |EscapedAll(s[..k])| + (if |Escaped(s[k])| == 2 then 2 else 1) >= size
  {
    hide Decode, Fit;
    assert s[..0] == [];
    FitStops(s, 0, size);
    StopsOnlyWhenFull(s, 0, size);
    EscapedDecodes(s[..Fit(s, 0, 0, size)]);
  }

  /** The loop takes as much as it can: it stops only where the next byte would leave no room for the terminator. */
  lemma {:induction false} StopsOnlyWhenFull(s: seq<Byte>, i: nat, size: nat)
    requires i <= |s|
    ensures var k := Fit(s, i, |EscapedAll(s[..i])|, size);
            k < |s| ==> |EscapedAll(s[..k])| + (if |Escaped(s[k])| == 2 then 2 else 1) >= size
    decreases |s| - i
  {
    hide EscapedAll;
    if i < |s| {
      EscapedGrows(s, i);
      if Fit(s, i, |EscapedAll(s[..i])|, size) > i {
        StopsOnlyWhenFull(s, i + 1, size);
      }
    }
  }

  /** The length of the UTF-8 character a text starts with (section 4 of RFC 3629), 0 when there is none. */
  function CharLength(s: seq<Byte>): (n: nat)
    ensures n <= |s| && n <= 4
  {
    if s == [] then 0
    else if s[0] < 0x80 then 1
    else if 0xC2 <= s[0] <= 0xDF && Tail(s, 1, 1) then 2
    else if s[0] == 0xE0 && Tail(s, 1, 2) && s[1] >= 0xA0 then 3
    else if s[0] == 0xED && Tail(s, 1, 2) && s[1] <= 0x9F then 3
    else if 0xE1 <= s[0] <= 0xEF && s[0] != 0xED && Tail(s, 1, 2) then 3
    else if s[0] == 0xF0 && Tail(s, 1, 3) && s[1] >= 0x90 then 4
    else if s[0] == 0xF4 && Tail(s, 1, 3) && s[1] <= 0x8F then 4
    else if 0xF1 <= s[0] <= 0xF3 && Tail(s, 1, 3) then 4
    else 0
  }

  predicate Tail(s: seq<Byte>, from: nat, count: nat) {
    from + count <= |s| && forall k :: from <= k < from + count ==> 0x80 <= s[k] <= 0xBF
  }

  predicate Utf8(s: seq<Byte>) {
    s == [] || (CharLength(s) > 0 && Utf8(s[CharLength(s)..]))
  }

  lemma CharLengthFront(a: seq<Byte>, b: seq<Byte>)
    requires CharLength(a) > 0
    ensures CharLength(a + b) == CharLength(a)
  {
    assert forall k :: 0 <= k < |a| ==> (a + b)[k] == a[k];
  }

  lemma {:induction false} Utf8Behind(a: seq<Byte>, b: seq<Byte>)
    requires Utf8(a)
    ensures Utf8(a + b) <==> Utf8(b)
    decreases |a|
  {
    if a == [] {
      assert a + b == b;
    } else {
      var n := CharLength(a);
      CharLengthFront(a, b);
      assert (a + b)[n..] == a[n..] + b;
      Utf8Behind(a[n..], b);
    }
  }

  /** Bytes of a longer character are never escaped. */
  lemma {:induction false} HighBytesKept(s: seq<Byte>)
    requires forall k :: 0 <= k < |s| ==> s[k] >= 0x80
    ensures EscapedAll(s) == s
  {
    hide EscapedAll;
    if s == [] {
      NothingEscaped();
    } else {
      var front, c := s[..|s| - 1], s[|s| - 1];
      HighBytesKept(front);
      EscapedSnoc(front, c);
      assert s == front + [c] && Escaped(c) == [c];
    }
  }

  lemma {:induction false} EscapedConcat(a: seq<Byte>, b: seq<Byte>)
    ensures EscapedAll(a + b) == EscapedAll(a) + EscapedAll(b)
    decreases |b|
  {
    hide EscapedAll, Escaped;
    if b == [] {
      assert a + b == a;
      assert EscapedAll(b) == [] by { NothingEscaped(); }
    } else {
      var front, c := b[..|b| - 1], b[|b| - 1];
      assert a + b == a + front + [c];
      assert b == front + [c];
      EscapedConcat(a, front);
      EscapedSnoc(a + front, c);
      EscapedSnoc(front, c);
      assert EscapedAll(a) + EscapedAll(front) + Escaped(c) == EscapedAll(a) + (EscapedAll(front) + Escaped(c));
    }
  }

  lemma NothingEscaped()
    ensures EscapedAll([]) == []
  {
  }

  lemma EscapedSnoc(s: seq<Byte>, c: Byte)
    ensures EscapedAll(s + [c]) == EscapedAll(s) + Escaped(c)
  {
    hide Escaped;
    assert (s + [c])[..|s|] == s;
  }

  /** One whole character stays whole when escaped. */
  lemma CharEscaped(s: seq<Byte>)
    requires CharLength(s) > 0
    ensures CharLength(s) > 1 ==> forall k :: 0 <= k < CharLength(s) ==> s[k] >= 0x80
    ensures Utf8(EscapedAll(s[..CharLength(s)]))
  {
    hide EscapedAll, Utf8;
    if CharLength(s) == 1 {
      AsciiEscaped(s[0]);
      assert s[..1] == [s[0]];
      OneEscaped(s[0]);
    } else {
      HighBytesKept(s[..CharLength(s)]);
      CharAlone(s);
    }
  }

  lemma OneEscaped(c: Byte)
    ensures EscapedAll([c]) == Escaped(c)
  {
    assert [c][..0] == [];
    assert EscapedAll([c]) == EscapedAll([]) + Escaped(c);
  }

  lemma AsciiEscaped(c: Byte)
    requires c < 0x80
    ensures Utf8(Escaped(c))
  {
    var e := Escaped(c);
    if |e| == 2 {
      assert e[1..] == [e[1]];
      assert e[1..][1..] == [];
    } else if |e| == 1 {
      assert e[1..] == [];
    }
  }

  /** For valid input, the shown text is valid UTF-8 exactly when the cut falls between characters. */
  lemma {:induction false} Utf8Exactly(s: seq<Byte>, k: nat)
    requires Utf8(s) && k <= |s|
    ensures Utf8(EscapedAll(s[..k])) <==> Utf8(s[..k])
    decreases |s|
  {
    hide EscapedAll;
    if k == 0 {
      assert s[..k] == [];
      NothingEscaped();
      return;
    }
    var n := CharLength(s);
    assert n > 0 && Utf8(s[n..]);
    hide Utf8, CharLength;
    CharEscaped(s);
    if k < n {
      HighBytesKept(s[..k]);
    } else {
      var ch, rest := s[..n], s[n..][..k - n];
      assert s[..k] == ch + rest;
      CharAlone(s);
      Utf8Exactly(s[n..], k - n);
      EscapedConcat(ch, rest);
      Utf8Behind(ch, rest);
      Utf8Behind(EscapedAll(ch), EscapedAll(rest));
    }
  }

  lemma CharAlone(s: seq<Byte>)
    requires CharLength(s) > 0
    ensures Utf8(s[..CharLength(s)])
  {
    var ch := s[..CharLength(s)];
    assert CharLength(ch) == |ch|;
    assert ch[|ch|..] == [];
  }

  /** A two-byte character cut after its first byte leaves text that is not UTF-8. */
  lemma {:induction false} CutCharacter()
    ensures Utf8([0xC3, 0xA9])
    ensures EscapedAll([0xC3, 0xA9][..Fit([0xC3, 0xA9], 0, 0, 2)]) == [0xC3] && !Utf8([0xC3])
  {
    var s: seq<Byte> := [0xC3, 0xA9];
    assert Utf8(s) by {
      assert CharLength(s) == 2 && s[2..] == [];
    }
    hide Utf8, CharLength, EscapedAll, Fit;
    assert Fit(s, 0, 0, 2) == 1 by {
      FitStep(s, 0, 0, 2);
      FitStep(s, 1, 1, 2);
    }
    assert s[..1] == [0xC3];
    HighBytesKept([0xC3]);
    LoneLead();
  }

  lemma LoneLead()
    ensures !Utf8([0xC3])
  {
  }

  /** json_escape itself; None stands for a null input, and a buffer of size 0 is left alone. */
  method JsonEscape(input: Option<seq<Byte>>, out: array<Byte>)
    modifies out
    ensures out.Length > 0 ==>
              var shown := if input.None? then [] else EscapedAll(input.value[..Fit(input.value, 0, 0, out.Length)]);
              |shown| < out.Length && out[..|shown|] == shown && out[|shown|] == 0
  {
    hide Decode, EscapedAll, Fit;
    if input.None? || out.Length == 0 {
      if out.Length > 0 {
        out[0] := 0;
      }
      return;
    }
    var text, size := input.value, out.Length;
    var i, j := 0, 0;
    NeverBroken(text, size);
    assert EscapedAll(text[..0]) == [] by {
      assert text[..0] == [];
      HighBytesKept([]);
    }
    while i < |text| && j + 1 < size
      invariant i <= |text| && j < size
      invariant out[..j] == EscapedAll(text[..i])
      invariant Fit(text, 0, 0, size) == Fit(text, i, j, size)
    {
      var c := text[i];
      FitStep(text, i, j, size);
      ghost var before := out[..j];
      EscapedGrows(text, i);
      if c == QUOTE || c == BACKSLASH || c == LF || c == CR || c == TAB {
        if j + 2 >= size { break; }
        out[j], out[j + 1] := BACKSLASH, Escaped(c)[1];
        j := j + 2;
      } else if c < 0x20 {
      } else {
        out[j] := c;
        j := j + 1;
      }
      assert out[..j] == before + Escaped(c);
      i := i + 1;
    }
    FitStep(text, i, j, size);
    out[j] := 0;
  }

  lemma FitStep(s: seq<Byte>, i: nat, j: nat, size: nat)
    requires i <= |s|
    ensures Fit(s, i, j, size)
         == if i == |s| || j + 1 >= size || (|Escaped(s[i])| == 2 && j + 2 >= size) then i
            else Fit(s, i + 1, j + |Escaped(s[i])|, size)
  {
  }
}
