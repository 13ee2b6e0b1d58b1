/** shell_quote: a bounded single-quoting of a text for a shell command line. */
module ShellQuote {
  import opened Text

  function QuotedChar(c: char): string {
    if c == '\'' then "'\\''" else [c]
  }

  function QuotedBody(s: string): string {
    if s == "" then "" else QuotedBody(s[..|s| - 1]) + QuotedChar(s[|s| - 1])
  }

  /** How many characters the loop consumes from position k on, in a buffer of the given size. */
  function Fit(s: string, k: nat, size: nat): (r: nat)
    requires k <= |s|
    ensures k <= r <= |s|
    decreases |s| - k
  {
    if k < |s| && 1 + |QuotedBody(s[..k])| < size - 5 then Fit(s, k + 1, size) else k
  }

  function Word(s: string): string {
    "'" + QuotedBody(s) + "'"
  }

  /**
    What a shell reads from one word made of single-quoted stretches and backslash escapes (sections
    2.2.1 and 2.2.2 of the POSIX Shell Command Language). None when a quote is left open or anything
    stands outside the quotes.
   */
  function Unquote(s: string, inside: bool): Option<string> {
    if s == "" then (if inside then None else Some(""))
    else if inside then
      if s[0] == '\'' then Unquote(s[1..], false) else Prepend(s[0], Unquote(s[1..], true))
    else if s[0] == '\'' then Unquote(s[1..], true)
    else if s[0] == '\\' && |s| > 1 && s[1] != '\n' then Prepend(s[1], Unquote(s[2..], false))
    else None
  }

  function Prepend(c: char, rest: Option<string>): Option<string> {
    match rest case None => None case Some(t) => Some([c] + t)
  }

  function Append(front: string, rest: Option<string>): Option<string> {
    match rest case None => None case Some(t) => Some(front + t)
  }

  lemma AppendPrepend(front: string, c: char, rest: Option<string>)
    ensures Append(front, Prepend(c, rest)) == Append(front + [c], rest)
    ensures Append("", rest) == rest
  {
    match rest
    case None =>
    case Some(t) =>
      assert front + ([c] + t) == front + [c] + t;
      assert "" + t == t;
  }

  /** Inside quotes, a quoted body reads as the text it was made from. */
  lemma {:induction false} BodyReads(s: string, rest: string)
    ensures Unquote(QuotedBody(s) + rest, true) == Append(s, Unquote(rest, true))
    decreases |s|
  {
    if s == "" {
      assert QuotedBody(s) + rest == rest;
      AppendPrepend("", ' ', Unquote(rest, true));
    } else {
      var front, c := s[..|s| - 1], s[|s| - 1];
      assert QuotedBody(s) + rest == QuotedBody(front) + (QuotedChar(c) + rest);
      BodyReads(front, QuotedChar(c) + rest);
      CharReads(c, rest);
      AppendPrepend(front, c, Unquote(rest, true));
      assert s == front + [c];
    }
  }

  lemma CharReads(c: char, rest: string)
    ensures Unquote(QuotedChar(c) + rest, true) == Prepend(c, Unquote(rest, true))
  {
    var text := QuotedChar(c) + rest;
    if c == '\'' {
      EscapedQuoteReads(text, rest);
    } else {
      assert text[1..] == rest;
    }
  }

  lemma EscapedQuoteReads(text: string, rest: string)
    requires text == "'\\''" + rest
    ensures Unquote(text, true) == Prepend('\'', Unquote(rest, true))
  {
    var outside := text[1..];
    var reopened := outside[2..];
    assert outside[0] == '\\' && outside[1] == '\'' && reopened[0] == '\'';
    assert reopened[1..] == rest;
    assert Unquote(reopened, false) == Unquote(rest, true);
    assert Unquote(outside, false) == Prepend('\'', Unquote(reopened, false));
  }

  /** Every word is closed and reads back as exactly the text inside it. */
  lemma WordReads(s: string)
    ensures Unquote(Word(s), false) == Some(s)
  {
    var body := QuotedBody(s) + "'";
    assert Word(s)[1..] == body;
    BodyReads(s, "'");
    assert "'"[1..] == "";
    assert Unquote("'", true) == Some("");
    assert s + "" == s;
  }

  lemma BodyGrows(s: string, k: nat)
    requires k < |s|
    ensures QuotedBody(s[..k + 1]) == QuotedBody(s[..k]) + QuotedChar(s[k])
  {
    assert s[..k + 1][..k] == s[..k];
  }

  lemma {:induction false} BodyMonotone(s: string, j: nat, k: nat)
    requires j <= k <= |s|
    ensures |QuotedBody(s[..j])| <= |QuotedBody(s[..k])|
  {
    if j < k {
      BodyMonotone(s, j, k - 1);
      BodyGrows(s, k - 1);
    }
  }

  /** The word the loop leaves behind, with its closing quote and the NUL, stays inside the buffer. */
  lemma {:induction false} FitsBuffer(s: string, k: nat, size: nat)
    requires k <= |s| && size >= 5 && |Word(s[..k])| < size
    ensures |Word(s[..Fit(s, k, size)])| < size
    decreases |s| - k
  {
    if k < |s| && 1 + |QuotedBody(s[..k])| < size - 5 {
      BodyGrows(s, k);
      FitsBuffer(s, k + 1, size);
    }
  }

  /** The text is quoted whole exactly when the loop still has room before its last character. */
  lemma {:induction false} CompleteWhenRoom(s: string, k: nat, size: nat)
    requires k < |s|
    ensures Fit(s, k, size) == |s| <==> 1 + |QuotedBody(s[..|s| - 1])| < size - 5
    decreases |s| - k
  {
    BodyMonotone(s, k, |s| - 1);
    if k + 1 < |s| {
      CompleteWhenRoom(s, k + 1, size);
    }
  }

  /** The loop takes as much as it can. */
  lemma {:induction false} StopsOnlyWhenFull(s: string, k: nat, size: nat)
    requires k <= |s|
    ensures Fit(s, k, size) < |s| ==> 1 + |QuotedBody(s[..Fit(s, k, size)])| >= size - 5
    decreases |s| - k
  {
    hide QuotedBody;
    if Fit(s, k, size) > k {
      StopsOnlyWhenFull(s, k + 1, size);
    }
  }

  /** Whatever the input, the buffer ends up holding one closed word that reads as a prefix of it. */
  lemma {:induction false} NeverBroken(s: string, size: nat)
    requires size >= 5
    ensures |Word(s[..Fit(s, 0, size)])| < size
    ensures Unquote(Word(s[..Fit(s, 0, size)]), false) == Some(s[..Fit(s, 0, size)])
    ensures Fit(s, 0, size) == |s| <==> s == "" || 1 + |QuotedBody(s[..|s| - 1])| < size - 5
    ensures Fit(s, 0, size) < |s| ==> 1 + |QuotedBody(s[..Fit(s, 0, size)])| >= size - 5
  {
    assert s[..0] == "";
    StopsOnlyWhenFull(s, 0, size);
    FitsBuffer(s, 0, size);
    WordReads(s[..Fit(s, 0, size)]);
    if s != "" {
      CompleteWhenRoom(s, 0, size);
    }
  }

  /** shell_quote: fills the buffer from index o on and always closes the quote. */
  method ShellQuote(input: string, out: array<char>)
    requires out.Length >= 5
    modifies out
    ensures var word := Word(input[..Fit(input, 0, out.Length)]);
              |word| < out.Length && out[..|word|] == word && out[|word|] == '\0'
  {
    hide Fit, QuotedBody, Unquote;
    var size := out.Length;
    var o := 0;
    NeverBroken(input, size);
    out[o] := '\'';
    o := o + 1;
    var p := 0;
    assert out[..o] == "'" + QuotedBody(input[..0]) by {
      assert input[..0] == "";
      EmptyBody();
    }
    while p < |input| && o < size - 5
      invariant p <= |input| && o <= size - 2
      invariant out[..o] == "'" + QuotedBody(input[..p])
      invariant Fit(input, 0, size) == Fit(input, p, size)
    {
      BodyGrows(input, p);
      FitStep(input, p, size);
      o := PutQuoted(input[p], out, o);
      p := p + 1;
    }
    FitStops(input, p, size);
    out[o] := '\'';
    o := o + 1;
    out[o] := '\0';
    assert out[..o] == Word(input[..p]);
  }

  method PutQuoted(c: char, out: array<char>, o: nat) returns (next: nat)
    requires o + 4 <= out.Length
    modifies out
    ensures o < next <= o + 4 && out[..next] == old(out[..o]) + QuotedChar(c)
  {
    if c == '\'' {
      out[o], out[o + 1], out[o + 2], out[o + 3] := '\'', '\\', '\'', '\'';
      next := o + 4;
    } else {
      out[o] := c;
      next := o + 1;
    }
  }

  lemma EmptyBody()
    ensures QuotedBody("") == ""
  {
  }

  lemma FitStep(s: string, k: nat, size: nat)
    requires k < |s| && 1 + |QuotedBody(s[..k])| < size - 5
    ensures Fit(s, k, size) == Fit(s, k + 1, size)
  {
  }

  lemma FitStops(s: string, k: nat, size: nat)
    requires k <= |s| && (k == |s| || 1 + |QuotedBody(s[..k])| >= size - 5)
    ensures Fit(s, k, size) == k
  {
  }
}
