/** The command lines of enforcement as a shell reads them: a verb, one last word, and errors silenced. */
module CommandLines {
  import opened Text
  import opened ShellWords

  const SILENCED := [("2", "/dev/null")]
  const SILENCER := " 2>/dev/null"

  /** The reading of a line whose only redirection is the silencer. */
  function Silent(words: seq<string>): Option<Command> {
    Some(Command(words, SILENCED))
  }

  lemma OverBlank(s: string, cur: Option<string>, bare: bool)
    ensures Read(" " + s, cur, bare, None)
         == match cur case None => Read(s, None, true, None) case Some(w) => Put(w, None, Read(s, None, true, None))
  {
    assert (" " + s)[1..] == s;
  }

  lemma OverArrow(s: string, w: string)
    requires AllDigits(w)
    ensures Read(">" + s, Some(w), true, None) == Read(s, None, true, Some(w))
  {
    assert (">" + s)[1..] == s;
  }

  lemma Targeted(w: string, fd: string)
    requires PlainWord(w)
    ensures Read(w, None, true, Some(fd)) == Some(Command([], [(fd, w)]))
  {
    PlainRead(w, "", Some(fd));
    assert w + "" == w && [(fd, w)] + [] == [(fd, w)];
  }

  lemma OverTwo(s: string)
    ensures Read("2" + s, None, true, None) == Read(s, Some("2"), true, None)
  {
    PlainRead("2", s, None);
  }

  /** The silencer ends the word before it and redirects standard error. */
  lemma SilencerRead(cur: Option<string>, bare: bool)
    ensures Read(SILENCER, cur, bare, None) == match cur case None => Silent([]) case Some(w) => Silent([w])
  {
    hide Read, Put, AllDigits, PlainWord;
    assert AllDigits("2") && PlainWord("/dev/null") by { SilencerWords(); }
    assert SILENCER == " " + "2>/dev/null" && "2>/dev/null" == "2" + ">/dev/null" && ">/dev/null" == ">" + "/dev/null";
    OverBlank("2>/dev/null", cur, bare);
    OverTwo(">/dev/null");
    OverArrow("/dev/null", "2");
    Targeted("/dev/null", "2");
    if cur.Some? {
      assert Put(cur.value, None, Silent([])) == Silent([cur.value]) by { PutFirst(cur.value); }
    }
  }

  lemma PutFirst(w: string)
    ensures Put(w, None, Silent([])) == Silent([w])
  {
    assert [w] + [] == [w];
  }

  lemma SilencerWords()
    ensures AllDigits("2") && PlainWord("/dev/null")
  {
  }

  /** A verb and a plain last word, with or without the silencer. */
  lemma SpokenRead(verb: seq<string>, source: string)
    requires AllPlain(verb) && PlainWord(source)
    ensures Line(Said(verb) + source) == Some(Command(verb + [source], []))
    ensures Line(Said(verb) + source + SILENCER) == Silent(verb + [source])
  {
    hide PlainWord, Said, Read;
    SaidRead(verb, source);
    PlainRead(source, "", None);
    assert source + "" == source;
    assert Read("", Some(source), true, None) == Some(Command([source], [])) by { LastWord(source); }
    assert Said(verb) + source + SILENCER == Said(verb) + (source + SILENCER);
    SaidRead(verb, source + SILENCER);
    PlainRead(source, SILENCER, None);
    SilencerRead(Some(source), true);
  }

  lemma LastWord(w: string)
    ensures Read("", Some(w), true, None) == Some(Command([w], []))
  {
    assert [w] + [] == [w];
  }

  // ---- a command in single quotes ------------------------------------------------------------

  lemma {:induction false} UntilIn(cmd: string, tail: string)
    requires tail != "" && tail[0] == '\''
    ensures Until(cmd + tail, '\'') == Until(cmd, '\'')
  {
    if cmd == "" {
      assert cmd + tail == tail;
    } else if cmd[0] != '\'' {
      assert (cmd + tail)[1..] == cmd[1..] + tail;
      UntilIn(cmd[1..], tail);
    }
  }

  /** What is read of a command between single quotes: up to its own first quote, or all of it. */
  lemma {:induction false} QuotedRead(cmd: string)
    ensures var n := Until(cmd, '\'');
      Line("'" + (cmd + ("'" + SILENCER)))
      == if n == |cmd| then Silent([cmd])
         else Read(cmd[n + 1..] + ("'" + SILENCER), Some(cmd[..n]), false, None)
  {
    hide Read, Until;
    var n, tail := Until(cmd, '\''), "'" + SILENCER;
    UntilIn(cmd, tail);
    OpenQuote(cmd + tail);
    assert (cmd + tail)[..n] == cmd[..n];
    if n == |cmd| {
      assert (cmd + tail)[n + 1..] == SILENCER && cmd[..n] == cmd;
      SilencerRead(Some(cmd), false);
    } else {
      assert (cmd + tail)[n + 1..] == cmd[n + 1..] + tail;
    }
  }

  lemma {:induction false} OpenQuote(rest: string)
    requires Until(rest, '\'') < |rest|
    ensures var n := Until(rest, '\''); Line("'" + rest) == Read(rest[n + 1..], Some(rest[..n]), false, None)
  {
    assert ("'" + rest)[1..] == rest;
    assert "" + rest[..Until(rest, '\'')] == rest[..Until(rest, '\'')];
  }

  lemma {:induction false} PlainUnquoted(s: string)
    requires forall k :: 0 <= k < |s| ==> !Quoting(s[k])
    ensures Until(s, '\'') == |s|
  {
    if s != "" {
      PlainUnquoted(s[1..]);
    }
  }

  // ---- what is run ---------------------------------------------------------------------------

  /** The words of a line that does nothing but run them, with errors silenced. */
  function Spoken(line: string): Option<seq<string>> {
    match Line(line)
    case None => None
    case Some(c) => if c.redirects == SILENCED then Some(c.words) else None
  }

  /** The words of a text that another shell is handed. */
  function Inner(text: string): Option<seq<string>> {
    match Line(text)
    case None => None
    case Some(c) => if c.redirects == [] then Some(c.words) else None
  }

  /** The words finally run when the caller's shell passes its last word to another one. */
  function Through(caller: seq<string>, line: string): Option<seq<string>> {
    match Spoken(line)
    case None => None
    case Some(words) =>
      if |words| == |caller| + 1 && words[..|caller|] == caller then Inner(words[|caller|]) else None
  }

  /** The line that hands a command over in single quotes. */
  function Handed(caller: seq<string>, cmd: string): string {
    Said(caller) + ("'" + (cmd + ("'" + SILENCER)))
  }

  // ---- a source that is read as itself has nothing special in it ------------------------------

  lemma {:induction false} SaidQuotes(words: seq<string>)
    requires AllPlain(words)
    ensures Quotes(Said(words)) == 0
  {
    if words != [] {
      assert PlainWord(words[0]);
      NoQuotes(words[0]);
      NoQuotes(" ");
      assert words[0] + " " + Said(words[1..]) == words[0] + (" " + Said(words[1..]));
      QuotesConcat(words[0], " " + Said(words[1..]));
      QuotesConcat(" ", Said(words[1..]));
      SaidQuotes(words[1..]);
    }
  }

  lemma {:induction false} VerbQuotes(verb: seq<string>, source: string)
    requires AllPlain(verb)
    ensures WordQuotes(verb + [source]) == Quotes(source)
  {
    if verb == [] {
      assert verb + [source] == [source] && [source][1..] == [];
    } else {
      assert (verb + [source])[0] == verb[0] && (verb + [source])[1..] == verb[1..] + [source];
      assert PlainWord(verb[0]);
      NoQuotes(verb[0]);
      VerbQuotes(verb[1..], source);
    }
  }

  lemma FixedQuotes()
    ensures Quotes(SILENCER) == 0 && RedirectQuotes(SILENCED) == 0 && RedirectQuotes([]) == 0 && Quotes("") == 0
    ensures Quotes("'" + SILENCER) == 1
  {
    NoQuotes(SILENCER);
    assert ("'" + SILENCER)[1..] == SILENCER;
    SilencedQuotes();
  }

  lemma SilencedQuotes()
    ensures RedirectQuotes(SILENCED) == 0
  {
    NoQuotes("2");
    NoQuotes("/dev/null");
    hide Quotes;
    assert SILENCED[1..] == [];
    assert Quotes("2") == 0 && Quotes("/dev/null") == 0;
  }

  /** A text that reads as a verb and a source has no quoting in it, if it offers no more than the source's. */
  lemma ReadAsItself(text: string, verb: seq<string>, source: string, redirects: seq<(string, string)>)
    requires AllPlain(verb) && RedirectQuotes(redirects) == 0 && Quotes(text) <= Quotes(source)
    requires Line(text) == Some(Command(verb + [source], redirects))
    ensures PlainWord(source)
  {
    hide PlainWord, Read;
    VerbQuotes(verb, source);
    FixedQuotes();
    QuotesUsedUp(text, None, true, None);
    assert Quotes(text) == 0;
    NoQuotes(text);
    PlainOutLine(text);
    assert (verb + [source])[|verb|] == source;
  }

  lemma PlainOutLine(text: string)
    requires Line(text).Some? && forall k :: 0 <= k < |text| ==> !Quoting(text[k])
    ensures AllPlain(Line(text).value.words)
  {
    PlainStart();
    PlainOut(text, None, true, None);
  }

  lemma CommandQuotesOf(verb: seq<string>, source: string)
    requires AllPlain(verb)
    ensures Quotes(Said(verb) + source) == Quotes(source) == Quotes(Said(verb) + source + SILENCER)
  {
    SaidQuotes(verb);
    FixedQuotes();
    QuotesConcat(Said(verb), source);
    QuotesConcat(Said(verb) + source, SILENCER);
  }

  /** Run directly, a command is the intended one exactly when its source is a plain word. */
  lemma SpokenExactly(verb: seq<string>, read: seq<string>, source: string)
    requires AllPlain(verb) && AllPlain(read)
    ensures PlainWord(source) ==> Spoken(Said(verb) + source + SILENCER) == Some(verb + [source])
    ensures Spoken(Said(verb) + source + SILENCER) == Some(read + [source]) ==> PlainWord(source)
  {
    hide PlainWord, Read, Said, AllPlain;
    if PlainWord(source) {
      SpokenRead(verb, source);
    } else if Spoken(Said(verb) + source + SILENCER) == Some(read + [source]) {
      CommandQuotesOf(verb, source);
      FixedQuotes();
      ReadAsItself(Said(verb) + source + SILENCER, read, source, SILENCED);
    }
  }

  lemma InnerExactly(verb: seq<string>, read: seq<string>, source: string)
    requires AllPlain(verb) && AllPlain(read)
    ensures PlainWord(source) ==> Inner(Said(verb) + source) == Some(verb + [source])
    ensures Inner(Said(verb) + source) == Some(read + [source]) ==> PlainWord(source)
  {
    hide PlainWord, Read, Said, AllPlain;
    if PlainWord(source) {
      SpokenRead(verb, source);
    } else if Inner(Said(verb) + source) == Some(read + [source]) {
      CommandQuotesOf(verb, source);
      FixedQuotes();
      ReadAsItself(Said(verb) + source, read, source, []);
    }
  }

  /** With a quote of its own, a command hands over a text with fewer quoting characters than it has. */
  lemma HandsOverLess(cmd: string, inner: string)
    requires Until(cmd, '\'') < |cmd|
    requires Line("'" + (cmd + ("'" + SILENCER))) == Silent([inner])
    ensures Quotes(inner) < Quotes(cmd)
  {
    hide Read, Until, Quotes;
    var n, tail := Until(cmd, '\''), "'" + SILENCER;
    QuotedRead(cmd);
    QuoteSplits(cmd, n);
    FixedQuotes();
    QuotesConcat(cmd[n + 1..], tail);
    QuotesUsedUp(cmd[n + 1..] + tail, Some(cmd[..n]), false, None);
    OneWordQuotes(inner);
  }

  lemma QuoteSplits(cmd: string, n: nat)
    requires n < |cmd| && Quoting(cmd[n])
    ensures Quotes(cmd) == Quotes(cmd[..n]) + 1 + Quotes(cmd[n + 1..])
  {
    assert cmd == cmd[..n] + ([cmd[n]] + cmd[n + 1..]);
    QuotesConcat(cmd[..n], [cmd[n]] + cmd[n + 1..]);
    assert ([cmd[n]] + cmd[n + 1..])[1..] == cmd[n + 1..];
  }

  lemma OneWordQuotes(w: string)
    ensures CommandQuotes(Command([w], SILENCED)) == Quotes(w)
  {
    hide Quotes, WordQuotes, RedirectQuotes;
    SilencedQuotes();
    VerbQuotes([], w);
    assert [] + [w] == [w];
  }

  /** Handed to another shell, too, a command is the intended one exactly when its source is a plain word. */
  lemma {:induction false} HandedExactly(caller: seq<string>, verb: seq<string>, read: seq<string>, source: string)
    requires AllPlain(caller) && AllPlain(verb) && AllPlain(read)
    ensures var line := Handed(caller, Said(verb) + source);
      && (PlainWord(source) ==> Through(caller, line) == Some(verb + [source]))
      && (Through(caller, line) == Some(read + [source]) ==> PlainWord(source))
  {
    hide PlainWord, Read, Said, AllPlain, Until;
    var cmd := Said(verb) + source;
    var rest := "'" + (cmd + ("'" + SILENCER));
    SaidRead(caller, rest);
    QuotedRead(cmd);
    if Until(cmd, '\'') == |cmd| {
      assert caller + [cmd] == (caller + [cmd])[..|caller|] + [cmd];
      assert Spoken(Handed(caller, cmd)) == Some(caller + [cmd]);
      InnerExactly(verb, read, source);
    } else {
      assert !PlainWord(source) by { QuotedIsNotPlain(verb, source); }
      if Through(caller, Handed(caller, cmd)) == Some(read + [source]) {
        NeverItself(caller, verb, read, source);
      }
    }
  }

  lemma QuotedIsNotPlain(verb: seq<string>, source: string)
    requires AllPlain(verb) && Until(Said(verb) + source, '\'') < |Said(verb) + source|
    ensures !PlainWord(source)
  {
    var cmd := Said(verb) + source;
    if PlainWord(source) {
      CommandQuotesOf(verb, source);
      NoQuotes(source);
      NoQuotes(cmd);
      PlainUnquoted(cmd);
    }
  }

  lemma NeverItself(caller: seq<string>, verb: seq<string>, read: seq<string>, source: string)
    requires AllPlain(caller) && AllPlain(verb) && AllPlain(read)
    requires Until(Said(verb) + source, '\'') < |Said(verb) + source|
    ensures Through(caller, Handed(caller, Said(verb) + source)) != Some(read + [source])
  {
    hide PlainWord, Read, Said, AllPlain, Until;
    var cmd := Said(verb) + source;
    var rest := "'" + (cmd + ("'" + SILENCER));
    SaidRead(caller, rest);
    if Through(caller, Handed(caller, cmd)) == Some(read + [source]) {
      var c := Line(rest).value;
      var inner := (caller + c.words)[|caller|];
      assert c.words == [inner] && c.redirects == SILENCED;
      HandsOverLess(cmd, inner);
      CommandQuotesOf(verb, source);
      InnerLoses(inner, read, source);
    }
  }

  lemma InnerLoses(inner: string, read: seq<string>, source: string)
    requires AllPlain(read) && Inner(inner) == Some(read + [source])
    ensures Quotes(source) <= Quotes(inner)
  {
    hide Read;
    VerbQuotes(read, source);
    FixedQuotes();
    QuotesUsedUp(inner, None, true, None);
  }
}
