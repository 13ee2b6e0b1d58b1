/** tier.c: which sources are the fleet's own daemons, on the user's sovereignty list, or part of the system. */
module TierRules {
  import opened Text
  import opened Court

  const FLEET_DAEMONS: seq<string> := [
    "splinterd", "krangd", "turtlecomd", "rahzerd",
    "leatherheadd", "metalheadd", "granitord", "ratkingd",
    "shredderd", "fugitoidd", "bebopd", "burned", "rocksteadyd",
    "tigerclawd"]

  const LEGACY_DAEMONS: seq<string> := [
    "connectivityd", "networkd", "foot_clan_supreme",
    "foot_portwatchd", "foot_resurrectord", "foot_ipcshadowd",
    "footrunner", "cpud", "processd", "storaged", "thermald",
    "sysportd", "daemonhunterd", "miuiserperuser",
    "miuiserperuser-daemon", "miuid", "brain-ctl"]

  const JUDICIAL_DAEMONS: seq<string> := [
    "april_o_neil", "court_orchestrator", "court_core_engine",
    "judge_executor", "parole_engine", "scoring_engine",
    "scored", "gaveld", "internal_affairs", "consent_gate",
    "escalation_daemon", "visitors_pass_daemon",
    "turtlepower_daemon", "superhero_adapter", "superhero",
    "baxter_stockman", "court_dispatcher"]

  const OWN_DAEMONS: seq<string> := FLEET_DAEMONS + LEGACY_DAEMONS + JUDICIAL_DAEMONS

  const SYSTEM_PREFIXES: seq<string> := [
    "com.miui.", "com.xiaomi.", "com.hyperos.", "android.",
    "com.android.", "miui.", "com.lbe.", "com.qualcomm.",
    "com.qti.", "org.codeaurora."]

  const LINE_BUF: nat := 512
  const NAME_BUF: nat := 256

  const MOD_OWN_DAEMON: real := 0.40
  const MOD_SOVEREIGNTY: real := 0.15
  const MOD_SYSTEM: real := 0.60
  const MOD_UNKNOWN: real := 1.00

  // ---- own daemons and system packages -------------------------------------------------------

  /** The part after the last slash. */
  function Basename(source: string): string {
    if source == "" || source[|source| - 1] == '/' then ""
    else Basename(source[..|source| - 1]) + [source[|source| - 1]]
  }

  predicate OwnDaemon(source: string) {
    Basename(source) in OWN_DAEMONS
  }

  predicate SystemPackage(source: string) {
    exists k :: 0 <= k < |SYSTEM_PREFIXES| && SYSTEM_PREFIXES[k] <= source
  }

  /** The base name does not depend on the directory. */
  lemma {:induction false} BasenameIs(dir: string, base: string)
    requires dir != "" ==> dir[|dir| - 1] == '/'
    requires '/' !in base
    ensures Basename(dir + base) == base
    decreases |base|
  {
    if base == "" {
      assert dir + base == dir;
    } else {
      var front := base[..|base| - 1];
      assert (dir + base)[..|dir + base| - 1] == dir + front;
      BasenameIs(dir, front);
    }
  }

  /** A daemon is recognised wherever its binary lies. */
  lemma {:induction false} OwnWherever(dir: string, base: string)
    requires dir != "" ==> dir[|dir| - 1] == '/'
    requires '/' !in base
    ensures OwnDaemon(dir + base) <==> base in OWN_DAEMONS
  {
    BasenameIs(dir, base);
  }

  method IsOwnDaemon(source: string) returns (r: bool)
    ensures r == OwnDaemon(source)
  {
    r := InTable(OWN_DAEMONS, Basename(source));
  }

  /** The scan of a constant table. */
  method InTable(table: seq<string>, base: string) returns (r: bool)
    ensures r == (base in table)
  {
    for i := 0 to |table|
      invariant base !in table[..i]
    {
      if base == table[i] {
        return true;
      }
    }
    return false;
  }

  method IsSystem(source: string) returns (r: bool)
    ensures r == SystemPackage(source)
  {
    for i := 0 to |SYSTEM_PREFIXES|
      invariant forall k :: 0 <= k < i ==> !(SYSTEM_PREFIXES[k] <= source)
    {
      if SYSTEM_PREFIXES[i] <= source {
        return true;
      }
    }
    return false;
  }

  // ---- the sovereignty list ------------------------------------------------------------------

  /** How many characters one fgets call takes: up to and including a newline, at most what the buffer holds. */
  function ChunkLength(text: string, room: nat): (r: nat)
    ensures r <= |text| && r <= room && (text != "" && room > 0 ==> r > 0)
  {
    if text == "" || room == 0 then 0
    else if text[0] == '\n' then 1
    else 1 + ChunkLength(text[1..], room - 1)
  }

  /** How many characters the scan set takes: up to a bar or newline, at most what the name buffer holds. */
  function NameLength(line: string, room: nat): (r: nat)
    ensures r <= |line| && r <= room
  {
    if line == "" || room == 0 || line[0] == '|' || line[0] == '\n' then 0
    else 1 + NameLength(line[1..], room - 1)
  }

  predicate IsBlank(c: char) {
    c == ' ' || c == '\t'
  }

  function TrimBlanks(s: string): (r: string)
    ensures |r| <= |s|
  {
    if s != "" && IsBlank(s[|s| - 1]) then TrimBlanks(s[..|s| - 1]) else s
  }

  /** The package a line names, "" for none. */
  function Entry(line: string): string {
    if line == "" || line[0] == '#' || line[0] == '\n' then ""
    else TrimBlanks(line[..NameLength(line, NAME_BUF - 1)])
  }

  function EntryOf(line: string): seq<string> {
    if Entry(line) == "" then [] else [Entry(line)]
  }

  function Entries(text: string): seq<string>
    decreases |text|
  {
    if text == "" then []
    else
      var n := ChunkLength(text, LINE_BUF - 1);
      EntryOf(text[..n]) + Entries(text[n..])
  }

  /** A missing list names nobody. */
  predicate Sovereign(list: Option<string>, source: string) {
    list.Some? && source in Entries(list.value)
  }

  method IsSovereign(list: Option<string>, source: string) returns (r: bool)
    ensures r == Sovereign(list, source)
  {
    hide Entries, EntryOf;
    if list.None? {
      return false;
    }
    var text, pos := list.value, 0;
    assert text[0..] == text;
    while pos < |text|
      invariant pos <= |text|
      invariant source in Entries(text) <==> source in Entries(text[pos..])
    {
      var n := ChunkLength(text[pos..], LINE_BUF - 1);
      EntriesStep(text, pos, n);
      var named := LineNames(text[pos..][..n], source);
      if named {
        return true;
      }
      pos := pos + n;
    }
    NoEntries();
    return false;
  }

  lemma NoEntries()
    ensures Entries("") == []
  {
  }

  lemma EntriesStep(text: string, pos: nat, n: nat)
    requires pos < |text| && n == ChunkLength(text[pos..], LINE_BUF - 1)
    ensures 0 < n && pos + n <= |text|
    ensures Entries(text[pos..]) == EntryOf(text[pos..][..n]) + Entries(text[pos + n..])
  {
    assert text[pos..][n..] == text[pos + n..];
  }

  /** One turn of the reading loop. */
  method LineNames(line: string, source: string) returns (r: bool)
    requires line != ""
    ensures r <==> source in EntryOf(line)
  {
    if line[0] == '#' || line[0] == '\n' {
      return false;
    }
    var name := line[..NameLength(line, NAME_BUF - 1)];
    var length := TrimmedName(name);
    return length > 0 && name[..length] == source;
  }

  method TrimmedName(name: string) returns (length: nat)
    ensures length <= |name| && name[..length] == TrimBlanks(name)
  {
    length := |name|;
    assert name[..length] == name;
    while length > 0 && IsBlank(name[length - 1])
      invariant length <= |name|
      invariant TrimBlanks(name[..length]) == TrimBlanks(name)
    {
      assert name[..length][..length - 1] == name[..length - 1];
      length := length - 1;
    }
  }

  /** A line as its author means it. */
  datatype ListLine = Comment(text: string) | Blank | Listed(name: string, blanks: string, note: Option<string>)

  function Render(line: ListLine): string {
    match line
    case Comment(text) => "#" + text + "\n"
    case Blank => "\n"
    case Listed(name, blanks, None) => name + blanks + "\n"
    case Listed(name, blanks, Some(note)) => name + blanks + "|" + note + "\n"
  }

  predicate WellFormed(line: ListLine) {
    && |Render(line)| < LINE_BUF
    && match line
       case Comment(text) => '\n' !in text
       case Blank => true
       case Listed(name, blanks, note) =>
         && 0 < |name| < NAME_BUF && name[0] != '#' && '\n' !in name && '|' !in name && !IsBlank(name[|name| - 1])
         && (forall k :: 0 <= k < |blanks| ==> IsBlank(blanks[k]))
         && (note.Some? ==> '\n' !in note.value)
  }

  function RenderAll(lines: seq<ListLine>): string {
    if lines == [] then "" else Render(lines[0]) + RenderAll(lines[1..])
  }

  function Names(lines: seq<ListLine>): seq<string> {
    if lines == [] then []
    else (if lines[0].Listed? then [lines[0].name] else []) + Names(lines[1..])
  }

  lemma {:induction false} ChunkIsLine(line: string, rest: string, room: nat)
    requires '\n' !in line && |line| < room
    ensures ChunkLength(line + "\n" + rest, room) == |line| + 1
  {
    if line != "" {
      assert (line + "\n" + rest)[1..] == line[1..] + "\n" + rest;
      ChunkIsLine(line[1..], rest, room - 1);
    }
  }

  /** Text that is stopped by a bar, a newline or the room left. */
  lemma {:induction false} NameIs(name: string, rest: string, room: nat)
    requires '\n' !in name && '|' !in name
    requires rest != "" && (rest[0] == '|' || rest[0] == '\n')
    ensures NameLength(name + rest, room) == if |name| < room then |name| else room
  {
    if name != "" && room != 0 {
      assert (name + rest)[1..] == name[1..] + rest;
      NameIs(name[1..], rest, room - 1);
    }
  }

  lemma {:induction false} TrimBlanksIs(name: string, blanks: string)
    requires name != "" ==> !IsBlank(name[|name| - 1])
    requires forall k :: 0 <= k < |blanks| ==> IsBlank(blanks[k])
    ensures TrimBlanks(name + blanks) == name
    decreases |blanks|
  {
    if blanks == "" {
      assert name + blanks == name;
    } else {
      assert (name + blanks)[..|name + blanks| - 1] == name + blanks[..|blanks| - 1];
      TrimBlanksIs(name, blanks[..|blanks| - 1]);
    }
  }

  lemma NameRead(name: string, blanks: string, rest: string)
    requires WellFormed(Listed(name, blanks, None)) && rest != "" && (rest[0] == '|' || rest[0] == '\n')
    ensures Entry(name + blanks + rest) == name
  {
    hide NameLength, TrimBlanks;
    assert forall k :: 0 <= k < |blanks| ==> blanks[k] != '\n' && blanks[k] != '|';
    NameIs(name + blanks, rest, NAME_BUF - 1);
    var line := name + blanks + rest;
    var n := NameLength(line, NAME_BUF - 1);
    assert line[..n] == name + blanks[..n - |name|];
    TrimBlanksIs(name, blanks[..n - |name|]);
  }

  lemma LineRead(line: ListLine, rest: string)
    requires WellFormed(line)
    ensures Entries(Render(line) + rest) == Names([line]) + Entries(rest)
  {
    var text := Render(line);
    var body := text[..|text| - 1];
    assert text == body + "\n";
    assert '\n' !in body by { BodyIsOneLine(line); }
    assert text + rest == body + "\n" + rest;
    ChunkIsLine(body, rest, LINE_BUF - 1);
    assert (text + rest)[..|text|] == text && (text + rest)[|text|..] == rest;
    assert EntryOf(text) == Names([line]) by {
      if line.Listed? {
        if line.note.Some? {
          assert text == line.name + line.blanks + ("|" + line.note.value + "\n");
          NameRead(line.name, line.blanks, "|" + line.note.value + "\n");
        } else {
          NameRead(line.name, line.blanks, "\n");
        }
      }
    }
  }

  lemma BodyIsOneLine(line: ListLine)
    requires WellFormed(line)
    ensures '\n' !in Render(line)[..|Render(line)| - 1]
  {
    if line.Listed? {
      assert '\n' !in line.blanks;
    }
  }

  /** A list written by its rules reads back as the packages it names, whatever comments, blanks and notes surround them. */
  lemma {:induction false} ListReadsBack(lines: seq<ListLine>)
    requires forall k :: 0 <= k < |lines| ==> WellFormed(lines[k])
    ensures Entries(RenderAll(lines)) == Names(lines)
  {
    hide Entries, WellFormed, Render;
    NoEntries();
    if lines != [] {
      LineRead(lines[0], RenderAll(lines[1..]));
      ListReadsBack(lines[1..]);
      FirstAndRest(lines);
    }
  }

  lemma {:induction false} SovereignExactly(lines: seq<ListLine>, source: string)
    requires forall k :: 0 <= k < |lines| ==> WellFormed(lines[k])
    ensures Sovereign(Some(RenderAll(lines)), source) <==>
              exists k :: 0 <= k < |lines| && lines[k].Listed? && lines[k].name == source
  {
    ListReadsBack(lines);
    NamesHold(lines, source);
  }

  /** The newline of the last line may be missing. */
  lemma {:induction false} LastNewlineOptional(lines: seq<ListLine>, source: string)
    requires lines != [] && forall k :: 0 <= k < |lines| ==> WellFormed(lines[k])
    ensures var text := RenderAll(lines);
      |text| > 0 && (Sovereign(Some(text[..|text| - 1]), source) <==> Sovereign(Some(text), source))
  {
    ListReadsBack(lines);
    UnendedReadsBack(lines);
  }

  lemma {:induction false} UnendedReadsBack(lines: seq<ListLine>)
    requires lines != [] && forall k :: 0 <= k < |lines| ==> WellFormed(lines[k])
    ensures var text := RenderAll(lines); |text| > 0 && Entries(text[..|text| - 1]) == Names(lines)
  {
    hide Entries, WellFormed, Render, RenderAll, Names;
    FirstAndRest(lines);
    if |lines| == 1 {
      UnendedLine(lines[0]);
      assert [lines[0]] == lines;
    } else {
      UnendedReadsBack(lines[1..]);
      var rest := RenderAll(lines[1..]);
      LineRead(lines[0], rest[..|rest| - 1]);
    }
  }

  lemma {:induction false} FirstAndRest(lines: seq<ListLine>)
    requires lines != []
    ensures var text, first, rest := RenderAll(lines), Render(lines[0]), RenderAll(lines[1..]);
      && text == first + rest && |text| > 0
      && (if |lines| == 1 then text == first else |rest| > 0 && text[..|text| - 1] == first + rest[..|rest| - 1])
    ensures Names(lines) == Names([lines[0]]) + Names(lines[1..])
  {
    hide Render;
    RenderNonEmpty(lines[0]);
    assert [lines[0]][1..] == [];
    if |lines| > 1 {
      RenderNonEmpty(lines[1]);
    }
  }

  lemma RenderNonEmpty(line: ListLine)
    ensures |Render(line)| > 0
  {
  }

  lemma UnendedLine(line: ListLine)
    requires WellFormed(line)
    ensures |Render(line)| > 0 && Entries(Render(line)[..|Render(line)| - 1]) == Names([line])
  {
    var text := Render(line);
    var body := text[..|text| - 1];
    BodyIsOneLine(line);
    NoEntries();
    if body != "" {
      ChunkIsRest(body, LINE_BUF - 1);
      assert body[..|body|] == body && body[|body|..] == "";
      UnendedEntry(line, body);
    }
  }

  lemma {:induction false} ChunkIsRest(line: string, room: nat)
    requires '\n' !in line && |line| <= room
    ensures ChunkLength(line, room) == |line|
  {
    if line != "" {
      ChunkIsRest(line[1..], room - 1);
    }
  }

  lemma {:induction false} NameIsAll(name: string, room: nat)
    requires '\n' !in name && '|' !in name
    ensures NameLength(name, room) == if |name| < room then |name| else room
  {
    if name != "" && room != 0 {
      NameIsAll(name[1..], room - 1);
    }
  }

  lemma UnendedEntry(line: ListLine, body: string)
    requires WellFormed(line) && body != "" && |Render(line)| > 0 && body == Render(line)[..|Render(line)| - 1]
    ensures EntryOf(body) == Names([line])
  {
    match line
    case Listed(name, blanks, Some(note)) =>
      assert body == name + blanks + ("|" + note);
      NameRead(name, blanks, "|" + note);
    case Listed(name, blanks, None) =>
      assert body == name + blanks;
      UnendedName(name, blanks);
    case Comment(text) => assert body[0] == '#';
    case Blank =>
  }

  lemma UnendedName(name: string, blanks: string)
    requires WellFormed(Listed(name, blanks, None))
    ensures Entry(name + blanks) == name
  {
    hide NameLength, TrimBlanks;
    assert forall k :: 0 <= k < |blanks| ==> blanks[k] != '\n' && blanks[k] != '|';
    var line := name + blanks;
    NameIsAll(line, NAME_BUF - 1);
    var n := NameLength(line, NAME_BUF - 1);
    assert line[..n] == name + blanks[..n - |name|];
    TrimBlanksIs(name, blanks[..n - |name|]);
  }

  lemma {:induction false} NamesHold(lines: seq<ListLine>, source: string)
    ensures source in Names(lines) <==> exists k :: 0 <= k < |lines| && lines[k].Listed? && lines[k].name == source
  {
    if lines != [] {
      var tail := lines[1..];
      NamesHold(tail, source);
      if source in Names(tail) {
        var k :| 0 <= k < |tail| && tail[k].Listed? && tail[k].name == source;
        assert lines[k + 1] == tail[k];
      }
    }
  }

  lemma {:induction false} FullChunk(head: string, rest: string, room: nat)
    requires '\n' !in head && |head| == room
    ensures ChunkLength(head + rest, room) == room
  {
    if head != "" {
      assert (head + rest)[1..] == head[1..] + rest;
      FullChunk(head[1..], rest, room - 1);
    }
  }

  /** Why lines must fit the buffer: what follows the first 511 characters of a longer one is read as a line of its own. */
  lemma {:induction false} LongLineIsCut(head: string, rest: string)
    requires '\n' !in head && |head| == LINE_BUF - 1
    ensures Entries(head + rest) == EntryOf(head) + Entries(rest)
  {
    FullChunk(head, rest, LINE_BUF - 1);
    assert (head + rest)[..LINE_BUF - 1] == head && (head + rest)[LINE_BUF - 1..] == rest;
  }

  // ---- the tiers -----------------------------------------------------------------------------

  /** The three tests against one list. */
  function TiersOf(list: Option<string>): Tiers {
    Tiers(s => OwnDaemon(s), s => Sovereign(list, s), s => SystemPackage(s))
  }

  function TierModifier(t: Tiers, source: string): real {
    if source == "" then MOD_UNKNOWN
    else if t.own(source) then MOD_OWN_DAEMON
    else if t.sovereign(source) then MOD_SOVEREIGNTY
    else if t.system(source) then MOD_SYSTEM
    else MOD_UNKNOWN
  }

  predicate Protected(t: Tiers, source: string) {
    t.own(source) || t.sovereign(source) || t.system(source)
  }

  lemma {:induction false} EntriesNonEmpty(text: string)
    ensures "" !in Entries(text)
    decreases |text|
  {
    if text != "" {
      EntriesNonEmpty(text[ChunkLength(text, LINE_BUF - 1)..]);
    }
  }

  /** The scorer damps exactly the sources that pm disable-user spares. */
  lemma {:induction false} DampedIffProtected(list: Option<string>, source: string)
    ensures var t := TiersOf(list);
            0.0 < TierModifier(t, source) <= 1.0 && (TierModifier(t, source) < 1.0 <==> Protected(t, source))
  {
    if list.Some? {
      EntriesNonEmpty(list.value);
    }
    if source == "" {
      NobodyIsNameless();
    }
  }

  lemma {:induction false} NobodyIsNameless()
    ensures !OwnDaemon("") && !SystemPackage("")
  {
    assert "" !in FLEET_DAEMONS && "" !in LEGACY_DAEMONS && "" !in JUDICIAL_DAEMONS;
    assert "" !in SYSTEM_PREFIXES;
  }

  /** tier_modifier against a list. */
  method Modifier(list: Option<string>, source: string) returns (r: real)
    ensures r == TierModifier(TiersOf(list), source)
  {
    if source == "" {
      return MOD_UNKNOWN;
    }
    var own := IsOwnDaemon(source);
    if own {
      return MOD_OWN_DAEMON;
    }
    var sovereign := IsSovereign(list, source);
    if sovereign {
      return MOD_SOVEREIGNTY;
    }
    var system := IsSystem(source);
    if system {
      return MOD_SYSTEM;
    }
    return MOD_UNKNOWN;
  }
}
