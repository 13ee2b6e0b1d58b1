/**
  What a shell reads from one line: the words and redirections of a simple command, after sections 2.2,
  2.3 and 2.7 of the POSIX Shell Command Language. Braces are left to expansion as well: the Android shell
  behind rish and adb expands them.
 */
module ShellWords {
  import opened Text

  /** A simple command; a redirection names its descriptor ("" for the standard one) and its file. */
  datatype Command = Command(words: seq<string>, redirects: seq<(string, string)>)

  predicate Blank(c: char) {
    c == ' ' || c == '\t'
  }

  /** Starts an operator: several commands, a pipe, a subshell, input from elsewhere. */
  predicate Operator(c: char) {
    c == '\n' || c == '|' || c == '&' || c == ';' || c == '<' || c == '>' || c == '(' || c == ')'
  }

  /** Starts an expansion, whose outcome depends on the shell's variables and files. */
  predicate Expansion(c: char) {
    c == '$' || c == '`' || c == '*' || c == '?' || c == '[' || c == '{' || c == '}'
  }

  predicate Quoting(c: char) {
    c == '\'' || c == '"' || c == '\\'
  }

  predicate Special(c: char) {
    Blank(c) || Operator(c) || Expansion(c) || Quoting(c)
  }

  /** Means something at the start of a word only: a comment, a home directory. */
  predicate SpecialFirst(c: char) {
    c == '#' || c == '~'
  }

  /** Text that a shell reads as one word, and as itself. */
  predicate PlainWord(s: string) {
    s != "" && !SpecialFirst(s[0]) && forall k :: 0 <= k < |s| ==> !Special(s[k])
  }

  predicate AllDigits(s: string) {
    s != "" && forall k :: 0 <= k < |s| ==> '0' <= s[k] <= '9'
  }

  /** How many characters come before the first c. */
  function Until(s: string, c: char): (r: nat)
    ensures r <= |s| && (r < |s| ==> s[r] == c) && c !in s[..r]
  {
    if s == "" || s[0] == c then 0
    else
      var n := Until(s[1..], c);
      assert s[..1 + n] == [s[0]] + s[1..][..n];
      1 + n
  }

  function SoFar(cur: Option<string>): string {
    match cur case None => "" case Some(w) => w
  }

  /** The word just read, as the target of a redirection or as a word of the command. */
  function Put(w: string, to: Option<string>, rest: Option<Command>): Option<Command> {
    match rest
    case None => None
    case Some(c) =>
      match to
      case None => Some(Command([w] + c.words, c.redirects))
      case Some(fd) => Some(Command(c.words, [(fd, w)] + c.redirects))
  }

  function Ended(cur: Option<string>, to: Option<string>): Option<Command> {
    match cur
    case Some(w) => Put(w, to, Some(Command([], [])))
    case None => if to.Some? then None else Some(Command([], []))
  }

  /**
    Reading from a point outside quotes: `cur` is the word under way, `bare` says that none of it was
    quoted, `to` is the descriptor whose file comes next. None when the text is no single simple command,
    is not closed, or depends on expansions.
   */
  function Read(s: string, cur: Option<string>, bare: bool, to: Option<string>): Option<Command>
    decreases |s|
  {
    if s == "" then Ended(cur, to)
    else
      var c, rest := s[0], s[1..];
      if Blank(c) then
        match cur
        case None => Read(rest, None, true, to)
        case Some(w) => Put(w, to, Read(rest, None, true, None))
      else if c == '\'' then
        var n := Until(rest, '\'');
        if n == |rest| then None else Read(rest[n + 1..], Some(SoFar(cur) + rest[..n]), false, to)
      else if c == '"' then
        var n := Until(rest, '"');
        if n == |rest| || !Literal(rest[..n]) then None else Read(rest[n + 1..], Some(SoFar(cur) + rest[..n]), false, to)
      else if c == '\\' then
        if rest == "" || rest[0] == '\n' then None else Read(rest[1..], Some(SoFar(cur) + [rest[0]]), false, to)
      else if c == '>' && to.None? then
        match cur
        case None => Read(rest, None, true, Some(""))
        case Some(w) =>
          if bare && AllDigits(w) then Read(rest, None, true, Some(w))
          else Put(w, None, Read(rest, None, true, Some("")))
      else if Operator(c) || Expansion(c) || (cur.None? && SpecialFirst(c)) then None
      else Read(rest, Some(SoFar(cur) + [c]), bare, to)
  }

  /** Nothing between double quotes is expanded or escaped. */
  predicate Literal(s: string) {
    forall k :: 0 <= k < |s| ==> s[k] != '$' && s[k] != '`' && s[k] != '\\'
  }

  function Line(s: string): Option<Command> {
    Read(s, None, true, None)
  }

  // ---- plain words read as themselves --------------------------------------------------------

  lemma {:induction false} PlainOnward(w: string, s: string, cur: string, bare: bool, to: Option<string>)
    requires forall k :: 0 <= k < |w| ==> !Special(w[k])
    ensures Read(w + s, Some(cur), bare, to) == Read(s, Some(cur + w), bare, to)
  {
    if w == "" {
      assert w + s == s && cur + w == cur;
    } else {
      assert (w + s)[1..] == w[1..] + s && cur + [w[0]] + w[1..] == cur + w;
      PlainOnward(w[1..], s, cur + [w[0]], bare, to);
    }
  }

  lemma PlainRead(w: string, s: string, to: Option<string>)
    requires PlainWord(w)
    ensures Read(w + s, None, true, to) == Read(s, Some(w), true, to)
  {
    assert (w + s)[1..] == w[1..] + s && [w[0]] + w[1..] == w && "" + [w[0]] == [w[0]];
    PlainOnward(w[1..], s, [w[0]], true, to);
  }

  lemma PlainThenBlank(w: string, s: string, to: Option<string>)
    requires PlainWord(w)
    ensures Read(w + (" " + s), None, true, to) == Put(w, to, Read(s, None, true, None))
  {
    hide PlainWord;
    PlainRead(w, " " + s, to);
    assert (" " + s)[1..] == s;
  }

  /** Words with a blank after each. */
  function Said(words: seq<string>): string {
    if words == [] then "" else words[0] + " " + Said(words[1..])
  }

  function PutAll(words: seq<string>, rest: Option<Command>): Option<Command> {
    match rest case None => None case Some(c) => Some(Command(words + c.words, c.redirects))
  }

  predicate AllPlain(words: seq<string>) {
    forall k :: 0 <= k < |words| ==> PlainWord(words[k])
  }

  lemma {:induction false} SaidRead(words: seq<string>, s: string)
    requires AllPlain(words)
    ensures Line(Said(words) + s) == PutAll(words, Line(s))
  {
    hide PlainWord;
    if words == [] {
      assert Said(words) + s == s;
      match Line(s)
      case None =>
      case Some(c) => assert [] + c.words == c.words;
    } else {
      assert Said(words) + s == words[0] + (" " + (Said(words[1..]) + s));
      assert PlainWord(words[0]);
      PlainThenBlank(words[0], Said(words[1..]) + s, None);
      SaidRead(words[1..], s);
      match Line(s)
      case None =>
      case Some(c) => assert [words[0]] + (words[1..] + c.words) == words + c.words;
    }
  }

  // ---- quoting characters are used up --------------------------------------------------------

  function Quotes(s: string): nat {
    if s == "" then 0 else (if Quoting(s[0]) then 1 else 0) + Quotes(s[1..])
  }

  lemma {:induction false} QuotesConcat(a: string, b: string)
    ensures Quotes(a + b) == Quotes(a) + Quotes(b)
  {
    if a == "" {
      assert a + b == b;
    } else {
      assert (a + b)[1..] == a[1..] + b;
      QuotesConcat(a[1..], b);
    }
  }

  lemma {:induction false} NoQuotes(s: string)
    ensures Quotes(s) == 0 <==> forall k :: 0 <= k < |s| ==> !Quoting(s[k])
  {
    if s != "" {
      NoQuotes(s[1..]);
      assert forall k :: 1 <= k < |s| ==> s[k] == s[1..][k - 1];
    }
  }

  function WordQuotes(words: seq<string>): nat {
    if words == [] then 0 else Quotes(words[0]) + WordQuotes(words[1..])
  }

  function RedirectQuotes(redirects: seq<(string, string)>): nat {
    if redirects == [] then 0 else Quotes(redirects[0].0) + Quotes(redirects[0].1) + RedirectQuotes(redirects[1..])
  }

  function CommandQuotes(c: Command): nat {
    WordQuotes(c.words) + RedirectQuotes(c.redirects)
  }

  lemma PutQuotes(w: string, to: Option<string>, rest: Option<Command>)
    requires rest.Some?
    ensures CommandQuotes(Put(w, to, rest).value) == Quotes(w) + Quotes(SoFar(to)) + CommandQuotes(rest.value)
  {
    var c := rest.value;
    match to
    case None => assert ([w] + c.words)[1..] == c.words;
    case Some(fd) => assert ([(fd, w)] + c.redirects)[1..] == c.redirects;
  }

  /** How many quoting characters the text offers from this point of the reading on. */
  function Offered(s: string, cur: Option<string>, to: Option<string>): nat {
    Quotes(s) + Quotes(SoFar(cur)) + Quotes(SoFar(to))
  }

  lemma QuotedPart(s: string, n: nat, cur: Option<string>, to: Option<string>)
    requires s != "" && Quoting(s[0]) && n < |s[1..]| && Quoting(s[1..][n])
    ensures Offered(s, cur, to) == 2 + Offered(s[1..][n + 1..], Some(SoFar(cur) + s[1..][..n]), to)
  {
    var rest := s[1..];
    assert rest == rest[..n] + ([rest[n]] + rest[n + 1..]);
    QuotesConcat(rest[..n], [rest[n]] + rest[n + 1..]);
    assert ([rest[n]] + rest[n + 1..])[1..] == rest[n + 1..];
    QuotesConcat(SoFar(cur), rest[..n]);
  }

  lemma EscapedPart(s: string, cur: Option<string>, to: Option<string>)
    requires |s| >= 2 && Quoting(s[0])
    ensures Offered(s, cur, to) == 1 + Offered(s[1..][1..], Some(SoFar(cur) + [s[1..][0]]), to)
  {
    var rest := s[1..];
    assert rest == [rest[0]] + rest[1..];
    QuotesConcat([rest[0]], rest[1..]);
    QuotesConcat(SoFar(cur), [rest[0]]);
    assert Quotes(s) == 1 + Quotes(rest);
  }

  lemma OrdinaryPart(s: string, cur: Option<string>, to: Option<string>)
    requires s != "" && !Quoting(s[0])
    ensures Offered(s, cur, to) == Offered(s[1..], Some(SoFar(cur) + [s[0]]), to)
    ensures Quotes(s) == Quotes(s[1..])
  {
    QuotesConcat(SoFar(cur), [s[0]]);
    assert [s[0]][1..] == "";
    assert Quotes([s[0]]) == 0;
  }

  lemma NoneOffered()
    ensures Quotes("") == 0
  {
  }

  /** A reading never gains quoting characters, and loses some if the text has any. */
  lemma {:induction false} QuotesUsedUp(s: string, cur: Option<string>, bare: bool, to: Option<string>)
    requires Read(s, cur, bare, to).Some?
    ensures CommandQuotes(Read(s, cur, bare, to).value) + (if Quotes(s) > 0 then 1 else 0) <= Offered(s, cur, to)
    decreases |s|
  {
    hide Quotes, CommandQuotes, AllDigits, Literal, Until, Put, Ended;
    NoneOffered();
    if s == "" {
      EndedQuotes(cur, to);
    } else {
      var c, rest := s[0], s[1..];
      if c == '\'' || c == '"' {
        var n := Until(rest, c);
        QuotedPart(s, n, cur, to);
        QuotesUsedUp(rest[n + 1..], Some(SoFar(cur) + rest[..n]), false, to);
      } else if c == '\\' {
        EscapedPart(s, cur, to);
        QuotesUsedUp(rest[1..], Some(SoFar(cur) + [rest[0]]), false, to);
      } else {
        OrdinaryPart(s, cur, to);
        if Blank(c) {
          QuotesAcrossBlank(s, cur, bare, to);
        } else if c == '>' {
          QuotesAcrossArrow(s, cur, bare, to);
        } else {
          QuotesUsedUp(rest, Some(SoFar(cur) + [c]), bare, to);
        }
      }
    }
  }

  lemma EndedQuotes(cur: Option<string>, to: Option<string>)
    requires Ended(cur, to).Some?
    ensures CommandQuotes(Ended(cur, to).value) == Quotes(SoFar(cur)) + Quotes(SoFar(to))
  {
    if cur.Some? {
      PutQuotes(cur.value, to, Some(Command([], [])));
    }
  }

  lemma QuotesAcrossBlank(s: string, cur: Option<string>, bare: bool, to: Option<string>)
    requires s != "" && Blank(s[0]) && Read(s, cur, bare, to).Some? && Quotes(s) == Quotes(s[1..])
    ensures CommandQuotes(Read(s, cur, bare, to).value) + (if Quotes(s) > 0 then 1 else 0) <= Offered(s, cur, to)
    decreases |s|, 0
  {
    hide Quotes, CommandQuotes;
    NoneOffered();
    match cur
    case None => QuotesUsedUp(s[1..], None, true, to);
    case Some(w) =>
      QuotesUsedUp(s[1..], None, true, None);
      PutQuotes(w, to, Read(s[1..], None, true, None));
  }

  lemma QuotesAcrossArrow(s: string, cur: Option<string>, bare: bool, to: Option<string>)
    requires s != "" && s[0] == '>' && Read(s, cur, bare, to).Some? && Quotes(s) == Quotes(s[1..])
    ensures CommandQuotes(Read(s, cur, bare, to).value) + (if Quotes(s) > 0 then 1 else 0) <= Offered(s, cur, to)
    decreases |s|, 0
  {
    hide Quotes, CommandQuotes, AllDigits;
    NoneOffered();
    match cur
    case None => QuotesUsedUp(s[1..], None, true, Some(""));
    case Some(w) =>
      if bare && AllDigits(w) {
        QuotesUsedUp(s[1..], None, true, Some(w));
      } else {
        QuotesUsedUp(s[1..], None, true, Some(""));
        PutQuotes(w, None, Read(s[1..], None, true, Some("")));
      }
  }

  // ---- without quoting, only plain words come out ---------------------------------------------

  predicate PlainSoFar(cur: Option<string>) {
    cur.Some? ==> PlainWord(cur.value)
  }

  lemma PlainGrows(w: Option<string>, c: char)
    requires PlainSoFar(w) && !Special(c) && (w.None? ==> !SpecialFirst(c))
    ensures PlainSoFar(Some(SoFar(w) + [c]))
  {
  }

  lemma {:induction false} PlainOut(s: string, cur: Option<string>, bare: bool, to: Option<string>)
    requires Read(s, cur, bare, to).Some? && PlainSoFar(cur)
    requires forall k :: 0 <= k < |s| ==> !Quoting(s[k])
    ensures AllPlain(Read(s, cur, bare, to).value.words)
    decreases |s|
  {
    hide PlainWord, PlainSoFar, AllDigits;
    if s == "" {
      PlainEnd(cur, to);
    } else {
      var c, rest := s[0], s[1..];
      assert PlainSoFar(None) by { PlainStart(); }
      if Blank(c) {
        match cur
        case None => PlainOut(rest, None, true, to);
        case Some(w) =>
          PlainOut(rest, None, true, None);
          PlainPut(w, to, Read(rest, None, true, None));
      } else if c == '>' {
        if cur.Some? && !(bare && AllDigits(cur.value)) {
          PlainOut(rest, None, true, Some(""));
          PlainPut(cur.value, None, Read(rest, None, true, Some("")));
        } else {
          PlainOut(rest, None, true, Some(SoFar(cur)));
        }
      } else {
        PlainGrows(cur, c);
        PlainOut(rest, Some(SoFar(cur) + [c]), bare, to);
      }
    }
  }

  lemma PlainStart()
    ensures PlainSoFar(None)
  {
  }

  lemma PlainEnd(cur: Option<string>, to: Option<string>)
    requires Ended(cur, to).Some? && PlainSoFar(cur)
    ensures AllPlain(Ended(cur, to).value.words)
  {
  }

  lemma PlainPut(w: string, to: Option<string>, rest: Option<Command>)
    requires rest.Some? && AllPlain(rest.value.words) && PlainSoFar(Some(w))
    ensures AllPlain(Put(w, to, rest).value.words)
  {
  }
}
