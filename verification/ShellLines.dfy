/**
  What a shell makes of one line of several commands: they are separated by semicolons outside quotes and run one
  after the other, each printing what it prints (sections 2.2 and 2.9.3 of the POSIX Shell Command Language).
 */
module ShellLines {
  import opened Text
  import opened ShellWords

  datatype Mode = Bare | Single | Double

  function Beyond(n: nat, r: Option<nat>): Option<nat> {
    match r case None => None case Some(k) => Some(n + k)
  }

  /**
    Where the first command of a text ends: at a semicolon outside quotes or at the end. None when a quote is left open,
    and for what this reading leaves out: background jobs, several lines, subshells, groups, substitutions, comments.
   */
  function CommandEnd(s: string, mode: Mode): (r: Option<nat>)
    ensures r.Some? ==> r.value <= |s| && (r.value < |s| ==> s[r.value] == ';')
  {
    if s == "" then (if mode == Bare then Some(0) else None)
    else
      match mode
      case Single => Beyond(1, CommandEnd(s[1..], if s[0] == '\'' then Bare else Single))
      case Double =>
        if s[0] == '"' then Beyond(1, CommandEnd(s[1..], Bare))
        else if s[0] == '\\' then (if |s| == 1 then None else Beyond(2, CommandEnd(s[2..], Double)))
        else if s[0] == '`' || "$(" <= s then None
        else Beyond(1, CommandEnd(s[1..], Double))
      case Bare =>
        if s[0] == ';' then Some(0)
        else if s[0] == '\'' then Beyond(1, CommandEnd(s[1..], Single))
        else if s[0] == '"' then Beyond(1, CommandEnd(s[1..], Double))
        else if s[0] == '\\' then (if |s| == 1 then None else Beyond(2, CommandEnd(s[2..], Bare)))
        else if ">&" <= s || "&&" <= s then Beyond(2, CommandEnd(s[2..], Bare))
        else if Unread(s) then None
        else Beyond(1, CommandEnd(s[1..], Bare))
  }

  predicate Unread(s: string)
    requires s != ""
  {
    || s[0] == '&' || s[0] == '\n' || s[0] == '`' || s[0] == '(' || s[0] == ')' || s[0] == '{' || s[0] == '}'
    || "<<" <= s || (Blank(s[0]) && |s| > 1 && s[1] == '#')
  }

  const RESERVED: seq<string> := ["if", "then", "elif", "else", "fi", "do", "done", "case", "esac", "while", "until", "for"]

  function FirstWord(s: string): string {
    if s == "" || Blank(s[0]) then "" else [s[0]] + FirstWord(s[1..])
  }

  function SkipBlanks(s: string): (r: string)
    ensures |r| <= |s| && (r != "" ==> !Blank(r[0]))
  {
    if s != "" && Blank(s[0]) then SkipBlanks(s[1..]) else s
  }

  predicate Simple(cmd: string) {
    cmd != "" && cmd[0] != '#' && FirstWord(cmd) !in RESERVED
  }

  /** The commands of a line, in order; the last may be followed by a semicolon. */
  function Pieces(s: string): Option<seq<string>>
    decreases |s|
  {
    var line := SkipBlanks(s);
    if line == "" then Some([])
    else
      match CommandEnd(line, Bare)
      case None => None
      case Some(p) =>
        if !Simple(line[..p]) then None
        else if p == |line| then Some([line])
        else Followed(line[..p], Pieces(line[p + 1..]))
  }

  function Followed(cmd: string, rest: Option<seq<string>>): Option<seq<string>> {
    match rest case None => None case Some(ps) => Some([cmd] + ps)
  }

  /** A text that may be followed by a semicolon and more commands. */
  predicate Whole(s: string) {
    Pieces(s).Some? && Pieces(s + ";") == Pieces(s)
  }

  lemma WholeReads(s: string)
    requires Whole(s)
    ensures Pieces(s).Some?
  {
  }

  lemma {:induction false} EndStays(s: string, more: string, mode: Mode)
    requires CommandEnd(s, mode).Some? && CommandEnd(s, mode).value < |s|
    ensures CommandEnd(s + more, mode) == CommandEnd(s, mode)
    decreases |s|
  {
    if s[0] != ';' || mode != Bare {
      assert (s + more)[1..] == s[1..] + more;
      if |s| > 1 {
        assert (s + more)[2..] == s[2..] + more;
      }
      EndStaysInside(s, more, mode);
    }
  }

  lemma {:induction false} EndStaysInside(s: string, more: string, mode: Mode)
    requires CommandEnd(s, mode).Some? && CommandEnd(s, mode).value < |s| && (s[0] != ';' || mode != Bare)
    requires (s + more)[1..] == s[1..] + more && (|s| > 1 ==> (s + more)[2..] == s[2..] + more)
    ensures CommandEnd(s + more, mode) == CommandEnd(s, mode)
    decreases |s|, 0
  {
    var t := s + more;
    assert |s| > 1;
    assert t[0] == s[0] && t[1] == s[1];
    match mode
    case Single => EndStays(s[1..], more, if s[0] == '\'' then Bare else Single);
    case Double =>
      if s[0] == '"' {
        EndStays(s[1..], more, Bare);
      } else if s[0] == '\\' {
        EndStays(s[2..], more, Double);
      } else {
        EndStays(s[1..], more, Double);
      }
    case Bare =>
      if s[0] == '\'' {
        EndStays(s[1..], more, Single);
      } else if s[0] == '"' {
        EndStays(s[1..], more, Double);
      } else if s[0] == '\\' || ">&" <= s || "&&" <= s {
        EndStays(s[2..], more, Bare);
      } else {
        EndStays(s[1..], more, Bare);
      }
  }

  lemma {:induction false} SkipBlanksFront(a: string, b: string)
    ensures SkipBlanks(a + b) == if SkipBlanks(a) == "" then SkipBlanks(b) else SkipBlanks(a) + b
  {
    if a == "" {
      assert a + b == b;
    } else {
      assert (a + b)[1..] == a[1..] + b;
      if Blank(a[0]) {
        SkipBlanksFront(a[1..], b);
      }
    }
  }

  /** The first command of a text that starts with none of the blanks. */
  lemma FirstPiece(s: string, p: nat)
    requires s != "" && !Blank(s[0]) && CommandEnd(s, Bare) == Some(p) && Simple(s[..p])
    ensures Pieces(s) == if p == |s| then Some([s]) else Followed(s[..p], Pieces(s[p + 1..]))
  {
    hide CommandEnd, Simple;
    assert SkipBlanks(s) == s;
  }

  lemma PiecesSkip(s: string)
    ensures Pieces(s) == Pieces(SkipBlanks(s))
  {
    assert SkipBlanks(SkipBlanks(s)) == SkipBlanks(s);
  }

  lemma PiecesBlank(s: string)
    ensures Pieces(" " + s) == Pieces(s)
  {
    assert (" " + s)[1..] == s && SkipBlanks(" " + s) == SkipBlanks(s);
    hide SkipBlanks, Pieces;
    PiecesSkip(s);
    PiecesSkip(" " + s);
  }

  function Joined(ps: seq<string>, rest: Option<seq<string>>): Option<seq<string>> {
    match rest case None => None case Some(qs) => Some(ps + qs)
  }

  lemma JoinFollowed(cmd: string, ps: seq<string>, rest: Option<seq<string>>)
    ensures Followed(cmd, Joined(ps, rest)) == Joined([cmd] + ps, rest)
    ensures Followed(cmd, rest) == Joined([cmd], rest)
  {
    match rest
    case None =>
    case Some(qs) => assert [cmd] + (ps + qs) == [cmd] + ps + qs;
  }

  /** Commands put behind a whole text come after its own. */
  lemma {:induction false} PiecesJoin(a: string, b: string)
    requires Whole(a)
    ensures Pieces(a + ";" + b) == Joined(Pieces(a).value, Pieces(b))
    decreases |a|
  {
    var c := SkipBlanks(a);
    PiecesSkip(a);
    PiecesSkip(a + ";");
    PiecesSkip(a + ";" + b);
    SkipBlanksFront(a, ";");
    SkipBlanksFront(a + ";", b);
    hide SkipBlanks;
    WholeNotBlank(a);
    assert Pieces(c + ";") == Pieces(c) && Pieces(c).Some?;
    hide Whole;
    JoinFrom(c, b);
  }

  lemma WholeNotBlank(a: string)
    requires Whole(a)
    ensures SkipBlanks(a) != ""
  {
    SkipBlanksFront(a, ";");
    PiecesSkip(a + ";");
    SemicolonAlone();
  }

  lemma SemicolonAlone()
    ensures Pieces(";") == None && SkipBlanks(";") == ";"
  {
    assert CommandEnd(";", Bare) == Some(0);
  }

  lemma {:induction false} JoinFrom(c: string, b: string)
    requires c != "" && !Blank(c[0]) && Pieces(c).Some? && Pieces(c + ";") == Pieces(c)
    ensures Pieces(c + ";" + b) == Joined(Pieces(c).value, Pieces(b))
    decreases |c|, 0
  {
    hide CommandEnd, Joined, Followed;
    var d := c + ";";
    var q := OwnEnd(c);
    hide Pieces;
    EndStays(d, b, Bare);
    assert (d + b)[..q] == c[..q] == d[..q];
    FirstPiece(d + b, q);
    FirstPiece(c, q);
    if q == |c| {
      assert (d + b)[q + 1..] == b && c[..q] == c;
      JoinFollowed(c, [], Pieces(b));
    } else {
      var rest := c[q + 1..];
      FirstPiece(d, q);
      assert d[q + 1..] == rest + ";" && (d + b)[q + 1..] == rest + ";" + b;
      SameRest(c[..q], Pieces(rest), Pieces(rest + ";"));
      PiecesJoin(rest, b);
      JoinFollowed(c[..q], Pieces(rest).value, Pieces(b));
      FollowedIs(c[..q], Pieces(rest).value);
    }
  }

  lemma FollowedIs(cmd: string, ps: seq<string>)
    ensures Followed(cmd, Some(ps)) == Some([cmd] + ps)
  {
  }

  lemma SameRest(cmd: string, a: Option<seq<string>>, b: Option<seq<string>>)
    requires Followed(cmd, a).Some? && Followed(cmd, b) == Followed(cmd, a)
    ensures a.Some? && b == a
  {
    assert ([cmd] + a.value)[1..] == a.value && ([cmd] + b.value)[1..] == b.value;
  }

  /** Its first command ends where it ends in the text itself. */
  lemma OwnEnd(c: string) returns (q: nat)
    requires c != "" && !Blank(c[0]) && Pieces(c).Some? && Pieces(c + ";") == Pieces(c)
    ensures q <= |c| && CommandEnd(c, Bare) == Some(q) && CommandEnd(c + ";", Bare) == Some(q) && Simple(c[..q])
  {
    var d := c + ";";
    assert SkipBlanks(c) == c && SkipBlanks(d) == d;
    q := CommandEnd(c, Bare).value;
    assert Pieces(c).value[0] == c[..q];
    if q < |c| {
      EndStays(c, ";", Bare);
    } else {
      var p := CommandEnd(d, Bare).value;
      assert Pieces(d).value[0] == d[..p];
      assert |d[..p]| == p && |c[..q]| == q;
    }
  }

  // ---- running them --------------------------------------------------------------------------

  /** echo of one plain word. */
  predicate Echoes(cmd: string) {
    "echo " <= cmd && PlainWord(cmd[5..]) && cmd[5] != '-'
  }

  /** What one command makes of the world and prints; `sh` stands for every command but a plain echo. */
  function Ran<W>(sh: (W, string) -> (W, string), w: W, cmd: string): (W, string) {
    if Echoes(cmd) then (w, cmd[5..] + "\n") else sh(w, cmd)
  }

  /** Commands run one after the other: the world they leave and all they print. */
  function RanAll<W>(sh: (W, string) -> (W, string), w: W, cmds: seq<string>): (W, string) {
    if cmds == [] then (w, "")
    else
      var (after, out) := Ran(sh, w, cmds[0]);
      var (end, rest) := RanAll(sh, after, cmds[1..]);
      (end, out + rest)
  }

  lemma {:induction false} RanJoin<W>(sh: (W, string) -> (W, string), w: W, a: seq<string>, b: seq<string>)
    ensures RanAll(sh, w, a + b)
         == (RanAll(sh, RanAll(sh, w, a).0, b).0, RanAll(sh, w, a).1 + RanAll(sh, RanAll(sh, w, a).0, b).1)
  {
    if a == [] {
      assert a + b == b;
      assert "" + RanAll(sh, w, b).1 == RanAll(sh, w, b).1;
    } else {
      hide Ran;
      assert (a + b)[1..] == a[1..] + b && (a + b)[0] == a[0];
      var (after, out) := Ran(sh, w, a[0]);
      RanJoin(sh, after, a[1..], b);
      var (end, rest) := RanAll(sh, after, a[1..]);
      assert out + (rest + RanAll(sh, end, b).1) == out + rest + RanAll(sh, end, b).1;
    }
  }

  /** The echo of a plain word is a whole command. */
  lemma {:induction false} EchoIsWhole(word: string)
    requires PlainWord(word) && word[0] != '-'
    ensures var cmd := "echo " + word; Echoes(cmd) && Whole(cmd) && Pieces(cmd) == Some([cmd])
  {
    var cmd := "echo " + word;
    assert cmd[5..] == word && "echo " <= cmd;
    assert Echoes(cmd) && Pieces("") == Some([]);
    EchoSimple(word);
    EchoEnd(word);
    assert cmd[..|cmd|] == cmd && (cmd + ";")[..|cmd|] == cmd && (cmd + ";")[|cmd| + 1..] == "";
    hide CommandEnd, Simple, Echoes, Pieces;
    FirstPiece(cmd, |cmd|);
    FirstPiece(cmd + ";", |cmd|);
    assert [cmd] + [] == [cmd];
  }

  lemma EchoSimple(word: string)
    ensures Simple("echo " + word)
  {
    var cmd := "echo " + word;
    assert cmd[0] == 'e' && cmd[1] == 'c' && cmd[2] == 'h' && cmd[3] == 'o' && cmd[4] == ' ';
    assert FirstWord(cmd[4..]) == "";
    assert FirstWord(cmd[3..]) == ['o'] + FirstWord(cmd[4..]);
    assert FirstWord(cmd[2..]) == ['h'] + FirstWord(cmd[3..]);
    assert FirstWord(cmd[1..]) == ['c'] + FirstWord(cmd[2..]);
    assert FirstWord(cmd) == "echo";
  }

  lemma EchoEnd(word: string)
    requires PlainWord(word)
    ensures CommandEnd("echo " + word, Bare) == Some(5 + |word|) && CommandEnd("echo " + word + ";", Bare) == Some(5 + |word|)
  {
    TextEnds();
    WordStart(word);
    assert word + "" == word && "echo " + word + ";" == "echo " + (word + ";");
    hide CommandEnd, Special, SpecialFirst;
    EndAfter(word, "");
    EndAfter(word, ";");
    EchoBefore(word);
    EchoBefore(word + ";");
  }

  lemma EchoBefore(text: string)
    requires text != "" && text[0] != '#'
    ensures CommandEnd("echo " + text, Bare) == Beyond(5, CommandEnd(text, Bare))
  {
    EchoLetters();
    hide CommandEnd, Special;
    BlankEnd(text);
    EndAfter("echo", " " + text);
    assert "echo" + (" " + text) == "echo " + text;
  }

  lemma EchoLetters()
    ensures forall k :: 0 <= k < |"echo"| ==> !Special("echo"[k])
  {
  }

  lemma TextEnds()
    ensures CommandEnd("", Bare) == Some(0) && CommandEnd(";", Bare) == Some(0)
  {
  }

  lemma WordStart(word: string)
    requires PlainWord(word)
    ensures word != "" && word[0] != '#' && forall k :: 0 <= k < |word| ==> !Special(word[k])
  {
  }

  lemma BlankEnd(text: string)
    requires text != "" && text[0] != '#'
    ensures CommandEnd(" " + text, Bare) == Beyond(1, CommandEnd(text, Bare))
  {
    assert (" " + text)[1..] == text;
    AfterBlank(" " + text);
  }

  lemma AfterBlank(s: string)
    requires |s| > 1 && s[0] == ' ' && s[1] != '#'
    ensures CommandEnd(s, Bare) == Beyond(1, CommandEnd(s[1..], Bare))
  {
  }

  lemma PlainEnd(c: char, text: string)
    requires !Special(c)
    ensures CommandEnd([c] + text, Bare) == Beyond(1, CommandEnd(text, Bare))
  {
    assert ([c] + text)[1..] == text && ([c] + text)[0] == c;
  }

  /** Plain characters before a text move its end. */
  lemma {:induction false} EndAfter(word: string, text: string)
    requires forall k :: 0 <= k < |word| ==> !Special(word[k])
    ensures CommandEnd(word + text, Bare) == Beyond(|word|, CommandEnd(text, Bare))
  {
    hide CommandEnd, Special;
    if word == "" {
      assert word + text == text;
    } else {
      assert word + text == [word[0]] + (word[1..] + text);
      PlainEnd(word[0], word[1..] + text);
      EndAfter(word[1..], text);
    }
  }

  /** What a line prints when it is run; None when this reading does not cover it. */
  function Prints<W>(sh: (W, string) -> (W, string), w: W, line: string): Option<string> {
    match Pieces(line) case None => None case Some(ps) => Some(RanAll(sh, w, ps).1)
  }

  /** An announced command: the echo prints its word and a newline, then comes what the command and the rest print. */
  lemma Announces<W>(sh: (W, string) -> (W, string), w: W, word: string, rest: string)
    requires PlainWord(word) && word[0] != '-'
    ensures Prints(sh, w, "echo " + word + ";" + rest)
         == match Prints(sh, w, rest) case None => None case Some(out) => Some(word + "\n" + out)
  {
    var cmd := "echo " + word;
    EchoIsWhole(word);
    PiecesJoin(cmd, rest);
    assert cmd[5..] == word;
    hide Pieces, Whole, Echoes;
    if Pieces(rest).Some? {
      RanJoin(sh, w, [cmd], Pieces(rest).value);
      assert RanAll(sh, w, [cmd]) == (w, word + "\n" + "");
    }
  }

  /** A whole text and more behind it: the world goes from one to the other. */
  lemma PrintsJoin<W>(sh: (W, string) -> (W, string), w: W, a: string, b: string)
    requires Whole(a)
    ensures Prints(sh, w, a + ";" + b)
         == match Prints(sh, RanAll(sh, w, Pieces(a).value).0, b)
            case None => None
            case Some(out) => Some(RanAll(sh, w, Pieces(a).value).1 + out)
  {
    PiecesJoin(a, b);
    if Pieces(b).Some? {
      RanJoin(sh, w, Pieces(a).value, Pieces(b).value);
    }
  }
}
