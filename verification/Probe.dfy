/**
  shredderd's batched probes: chunks of "==TAG==" sections collected in one buffer, and the sections
  read back out of it, in any order and any number of times.
 */
module Probe {
  import opened Text

  const BUF_SIZE: nat := 131072
  const SCRATCH_SIZE: nat := 65536
  const CMD_BUDGET: nat := 1450
  const MARKER_SIZE: nat := 64

  /** One probe of a chunk: the tag it echoes and what its command prints. */
  datatype Probed = Probed(tag: string, output: string)

  function Heading(tag: string): string {
    "==" + tag + "=="
  }

  /** What the shell prints for the probes from i on. */
  function Report(probes: seq<Probed>, i: nat): string
    requires i <= |probes|
    decreases |probes| - i
  {
    if i == |probes| then "" else Printed(probes[i]) + Report(probes, i + 1)
  }

  function Printed(p: Probed): string {
    HeadingLine(p.tag) + p.output
  }

  function HeadingLine(tag: string): string {
    Heading(tag) + "\n"
  }

  /** What is searched for: the heading, as far as it fits its buffer. */
  function Marker(tag: string): string {
    Take(Heading(tag), MARKER_SIZE - 1)
  }

  /** The section read back for a tag: None for a null result. */
  function SectionOf(text: string, tag: string): Option<string> {
    match Find(text, Marker(tag))
    case None => None
    case Some(p) => Some(SectionBody(TrimLeft(text[p + |Marker(tag)|..])))
  }

  function SectionBody(body: string): string {
    if "==" <= body then ""
    else
      var length := match Find(body, "\n==") case Some(e) => e case None => |body|;
      TrimRight(body[..if length < SCRATCH_SIZE then length else SCRATCH_SIZE - 1])
  }

  /** Tags are single words, so they hold no '=' and no line end. */
  predicate Word(tag: string) {
    forall k :: 0 <= k < |tag| ==> tag[k] != '=' && !IsEol(tag[k])
  }

  /** The whole heading is searched for. */
  predicate Short(tag: string) {
    |Heading(tag)| < MARKER_SIZE
  }

  /** No line starts with "==". */
  ghost predicate PlainLines(s: string) {
    forall k: nat :: OccursAt(s, "==", k) ==> k > 0 && !IsEol(s[k - 1])
  }

  /** The probes whose sections can be told apart. */
  ghost predicate Readable(probes: seq<Probed>) {
    && (forall i, j :: 0 <= i < j < |probes| ==> probes[i].tag != probes[j].tag)
    && (forall i :: 0 <= i < |probes| ==> Word(probes[i].tag) && Short(probes[i].tag))
    && (forall i :: 0 <= i < |probes| ==> Terminated(probes[i].output))
    && (forall i :: 0 <= i < |probes| ==> PlainLines(probes[i].output))
    && (forall i, j :: 0 <= i < j < |probes| ==> Absent(probes[i].output, Heading(probes[j].tag)))
  }

  lemma HeadingShape(tag: string)
    requires Word(tag)
    ensures OneLine(Heading(tag)) && |Heading(tag)| == |tag| + 4
    ensures Heading(tag)[0] == '=' && Heading(tag)[1] == '='
    ensures Heading(tag)[2 + |tag|] == '='
    ensures forall k :: 0 <= k < |tag| ==> Heading(tag)[2 + k] == tag[k] != '='
  {
  }

  /** A word's heading appears in no other word's heading. */
  lemma HeadingsApart(u: string, t: string, p: nat)
    requires Word(u) && Word(t) && u != t
    ensures !OccursAt(Heading(u), Heading(t), p)
  {
    HeadingShape(u);
    HeadingShape(t);
    if OccursAt(Heading(u), Heading(t), p) {
      if p == 0 {
        HeadingsFitOnlyIfEqual(u, t);
      } else {
        OccurrenceCovers(Heading(u), Heading(t), p, p);
        OccurrenceCovers(Heading(u), Heading(t), p, p + 1);
        InsideWord(u, p);
      }
    }
  }

  lemma InsideWord(u: string, p: nat)
    requires Word(u) && 0 < p < |u| + 1
    ensures Heading(u)[p] != '=' || Heading(u)[p + 1] != '='
  {
    HeadingShape(u);
    if p == 1 {
      assert Heading(u)[2 + 0] == u[0];
    } else {
      assert Heading(u)[2 + (p - 2)] == u[p - 2];
    }
  }

  lemma HeadingsFitOnlyIfEqual(u: string, t: string)
    requires Word(u) && Word(t) && OccursAt(Heading(u), Heading(t), 0)
    ensures u == t
  {
    HeadingShape(u);
    HeadingShape(t);
    OccurrenceCovers(Heading(u), Heading(t), 0, 2 + |t|);
    assert |t| == |u|;
    forall k | 0 <= k < |t| ensures u[k] == t[k] {
      OccurrenceCovers(Heading(u), Heading(t), 0, 2 + k);
    }
  }

  lemma LineSilent(line: string, needle: string)
    requires needle != "" && OneLine(needle) && Absent(line, needle)
    ensures Absent(line + "\n", needle)
  {
    forall p: nat ensures !OccursAt(line + "\n", needle, p) {
      if OccursAt(line + "\n", needle, p) {
        NotOverLineEnd(line, needle, p);
      }
    }
  }

  lemma NotOverLineEnd(line: string, needle: string, p: nat)
    requires OneLine(needle) && OccursAt(line + "\n", needle, p)
    ensures OccursAt(line, needle, p) || needle == ""
  {
    if needle != "" {
      if p + |needle| == |line| + 1 {
        OccurrenceCovers(line + "\n", needle, p, |line|);
      }
      assert (line + "\n")[p..p + |needle|] == line[p..p + |needle|];
    }
  }

  /** An earlier probe's section holds nothing that looks like this tag's heading. */
  lemma OtherSectionSilent(probes: seq<Probed>, i: nat, j: nat)
    requires Readable(probes) && i < j < |probes|
    ensures Terminated(Printed(probes[i])) && Absent(Printed(probes[i]), Heading(probes[j].tag))
    ensures OneLine(Heading(probes[j].tag))
  {
    hide OccursAt;
    var u, t := probes[i].tag, probes[j].tag;
    HeadingShape(t);
    assert Absent(Heading(u), Heading(t)) by {
      forall p: nat ensures !OccursAt(Heading(u), Heading(t), p) {
        HeadingsApart(u, t, p);
      }
    }
    LineSilent(Heading(u), Heading(t));
    AbsentInLines(HeadingLine(u), probes[i].output, Heading(t));
  }

  /** A tag's heading is first found at the start of its own section. */
  lemma {:induction false} FindSection(probes: seq<Probed>, i: nat, j: nat)
    requires Readable(probes) && i <= j < |probes|
    ensures |Report(probes, j)| <= |Report(probes, i)|
    ensures Find(Report(probes, i), Heading(probes[j].tag)) == Some(|Report(probes, i)| - |Report(probes, j)|)
    ensures Report(probes, i)[|Report(probes, i)| - |Report(probes, j)|..] == Report(probes, j)
    decreases j - i
  {
    hide Printed, Find, Heading, Readable, OccursAt;
    if i == j {
      HeadingFirst(probes, j);
      FindPrefix(Heading(probes[j].tag), Report(probes, j));
    } else {
      FindSection(probes, i + 1, j);
      FindLater(probes, i, j, Report(probes, j));
    }
  }

  lemma FindLater(probes: seq<Probed>, i: nat, j: nat, own: string)
    requires Readable(probes) && i < j < |probes|
    requires var rest := Report(probes, i + 1);
             |own| <= |rest| && Find(rest, Heading(probes[j].tag)) == Some(|rest| - |own|) && rest[|rest| - |own|..] == own
    ensures var text := Report(probes, i);
            |own| <= |text| && Find(text, Heading(probes[j].tag)) == Some(|text| - |own|) && text[|text| - |own|..] == own
  {
    hide Printed, Find, Heading, Readable, OccursAt;
    var rest, shown := Report(probes, i + 1), Printed(probes[i]);
    assert Report(probes, i) == shown + rest;
    hide Report;
    OtherSectionSilent(probes, i, j);
    FindBeyondLine(shown, rest, Heading(probes[j].tag));
    assert (shown + rest)[|shown|..] == rest;
    DropMore(shown + rest, |shown|, |rest| - |own|);
  }

  lemma HeadingFirst(probes: seq<Probed>, j: nat)
    requires j < |probes|
    ensures Heading(probes[j].tag) <= Report(probes, j)
    ensures Report(probes, j)[|Heading(probes[j].tag)|..] == ("\n" + probes[j].output) + Report(probes, j + 1)
  {
  }

  lemma DropMore(a: string, d: nat, p: nat)
    requires d + p <= |a|
    ensures a[d..][p..] == a[d + p..]
  {
  }

  /** The end of a section is found at the newline before the next heading, and nowhere earlier. */
  lemma FindBoundary(kept: string, rest: string)
    requires Terminated(kept) && kept != ""
    requires rest == "" || "==" <= rest
    requires forall k: nat :: 0 < k && OccursAt(kept, "==", k) ==> !IsEol(kept[k - 1])
    ensures Find(kept + rest, "\n==") == if rest == "" then None else Some(|kept| - 1)
  {
    forall p: nat | p < |kept| - 1 || rest == "" ensures !OccursAt(kept + rest, "\n==", p) {
      if OccursAt(kept + rest, "\n==", p) {
        BoundaryInside(kept, rest, p);
      }
    }
    if rest == "" {
      FindFirst(kept + rest, "\n==");
    } else {
      assert (kept + rest)[|kept| - 1..|kept| + 2] == "\n==";
      FindIs(kept + rest, "\n==", |kept| - 1);
    }
  }

  lemma BoundaryInside(kept: string, rest: string, p: nat)
    requires Terminated(kept) && kept != ""
    requires OccursAt(kept + rest, "\n==", p)
    requires p < |kept| - 1 || rest == ""
    ensures OccursAt(kept, "==", p + 1) && kept[p] == '\n'
  {
    OccurrenceCovers(kept + rest, "\n==", p, p);
    OccurrenceCovers(kept + rest, "\n==", p, p + 1);
    OccurrenceCovers(kept + rest, "\n==", p, p + 2);
    assert (kept + rest)[p + 1] == kept[p + 1];
    assert kept[p + 1..p + 3] == "==";
  }

  /** Every section comes back as its command's output, trimmed, up to the scratch buffer's size. */
  lemma {:induction false} SectionRecovered(probes: seq<Probed>, j: nat)
    requires Readable(probes) && j < |probes|
    ensures SectionOf(Report(probes, 0), probes[j].tag)
         == Some(TrimRight(Take(TrimLeft(probes[j].output), SCRATCH_SIZE - 1)))
  {
    hide Heading, Find, SectionBody, TrimLeft, TrimRight, Report, Printed;
    var tag, output := probes[j].tag, probes[j].output;
    assert Marker(tag) == Heading(tag);
    var text, rest := Report(probes, 0), Report(probes, j + 1);
    FindSection(probes, 0, j);
    HeadingFirst(probes, j);
    var p := |text| - |Report(probes, j)|;
    DropMore(text, p, |Heading(tag)|);
    assert text[p + |Heading(tag)|..] == ("\n" + output) + rest;
    NextHeading(probes, j);
    TrimLeftBefore("\n" + output, rest);
    TrimLeftNewline(output);
    BodyRecovered(output, rest);
  }

  /** A section is read back whatever its command prints exactly when its tag has fewer than 60 characters. */
  lemma {:induction false} TagFitsExactly(tag: string)
    requires Word(tag)
    ensures (forall output :: Terminated(output) && PlainLines(output) ==> AloneReadBack(tag, output)) <==> |tag| < 60
  {
    hide AloneReadBack, PlainLines;
    if |tag| < 60 {
      forall output | Terminated(output) && PlainLines(output) ensures AloneReadBack(tag, output) {
        ShortTag(tag, output);
      }
    } else {
      OneSign();
      LongTag(tag);
    }
  }

  /** A probe alone in a report comes back as its command's output. */
  ghost predicate AloneReadBack(tag: string, output: string) {
    SectionOf(Report([Probed(tag, output)], 0), tag) == Some(TrimRight(Take(TrimLeft(output), SCRATCH_SIZE - 1)))
  }

  lemma ShortTag(tag: string, output: string)
    requires Word(tag) && |tag| < 60 && Terminated(output) && PlainLines(output)
    ensures AloneReadBack(tag, output)
  {
    hide PlainLines, SectionOf, Report, TrimLeft, TrimRight;
    assert Readable([Probed(tag, output)]);
    SectionRecovered([Probed(tag, output)], 0);
  }

  const SIGN := "=x\n"

  lemma OneSign()
    ensures Terminated(SIGN) && PlainLines(SIGN) && TrimLeft(SIGN) == SIGN
    ensures TrimRight(Take(SIGN, SCRATCH_SIZE - 1)) == "=x"
  {
    assert Take(SIGN, SCRATCH_SIZE - 1) == SIGN && SIGN[..2] == "=x";
    assert SIGN[|SIGN| - 1] == '\n' && SIGN[1] == 'x';
    TrimRightUnique(SIGN, 2);
    forall k: nat ensures !OccursAt(SIGN, "==", k) {
      if OccursAt(SIGN, "==", k) {
        OccurrenceCovers(SIGN, "==", k, k + 1);
      }
    }
  }

  /** The marker of a longer tag ends inside the heading, and what is left of that is taken for output. */
  lemma LongTag(tag: string)
    requires Word(tag) && |tag| >= 60
    ensures !AloneReadBack(tag, SIGN)
  {
    hide Find, TrimRight;
    HeadingShape(tag);
    OneSign();
    var text := Report([Probed(tag, SIGN)], 0);
    var over := Heading(tag)[MARKER_SIZE - 1..];
    var left := over + "\n" + SIGN;
    assert text == Heading(tag) + "\n" + SIGN by { ReportOfOne(Probed(tag, SIGN)); }
    assert Heading(tag) == Marker(tag) + over by { assert Marker(tag) == Heading(tag)[..MARKER_SIZE - 1]; }
    assert text == Marker(tag) + (over + "\n" + SIGN);
    FindPrefix(Marker(tag), text);
    assert text[MARKER_SIZE - 1..] == left;
    assert left[0] == Heading(tag)[MARKER_SIZE - 1];
    LeftMisread(left);
  }

  lemma ReportOfOne(p: Probed)
    ensures Report([p], 0) == Printed(p)
  {
    assert Report([p], 1) == "";
  }

  lemma LeftMisread(left: string)
    requires |left| > 4 && !IsEol(left[0]) && (left[0] == '=' ==> left[1] == '=' || left[1] == '\n')
    ensures TrimLeft(left) == left && SectionBody(left) != "=x"
  {
    hide Find, TrimRight;
    if !("==" <= left) {
      var length := match Find(left, "\n==") case Some(e) => e case None => |left|;
      TrimRightKeeps(left[..if length < SCRATCH_SIZE then length else SCRATCH_SIZE - 1]);
    }
  }

  lemma NextHeading(probes: seq<Probed>, j: nat)
    requires Readable(probes) && j < |probes|
    ensures var rest := Report(probes, j + 1); rest == "" || ("==" <= rest && !IsEol(rest[0]))
  {
    if j + 1 < |probes| {
      HeadingFirst(probes, j + 1);
      HeadingShape(probes[j + 1].tag);
    }
  }

  lemma BodyRecovered(output: string, rest: string)
    requires Terminated(output) && PlainLines(output)
    requires rest == "" || "==" <= rest
    ensures SectionBody(TrimLeft(output) + rest) == TrimRight(Take(TrimLeft(output), SCRATCH_SIZE - 1))
  {
    hide TrimLeft, TrimRight, Find, OccursAt;
    var kept := TrimLeft(output);
    if kept == "" {
      assert kept + rest == rest;
      TrimRightKeeps("");
      if rest == "" {
        FindFirst("", "\n==");
      }
    } else {
      KeptIsPlain(output);
      FindBoundary(kept, rest);
      KeptNoHeading(output, rest);
      var length := if rest == "" then |kept| else |kept| - 1;
      var cut := if length < SCRATCH_SIZE then length else SCRATCH_SIZE - 1;
      assert (kept + rest)[..cut] == kept[..cut];
      assert SectionBody(kept + rest) == TrimRight(kept[..cut]);
      CutRecovered(kept, length, cut);
    }
  }

  lemma CutRecovered(kept: string, length: nat, cut: nat)
    requires kept != "" && Terminated(kept) && (length == |kept| || length == |kept| - 1)
    requires cut == if length < SCRATCH_SIZE then length else SCRATCH_SIZE - 1
    ensures TrimRight(kept[..cut]) == TrimRight(Take(kept, SCRATCH_SIZE - 1))
  {
    hide TrimRight;
    if cut == |kept| {
      assert kept[..cut] == kept;
    } else if cut == |kept| - 1 {
      TrimRightNewline(kept);
    }
  }

  lemma TrimRightNewline(s: string)
    requires s != "" && Terminated(s)
    ensures TrimRight(s) == TrimRight(s[..|s| - 1])
  {
  }

  lemma KeptIsPlain(output: string)
    requires Terminated(output) && PlainLines(output)
    ensures Terminated(TrimLeft(output))
    ensures forall k: nat :: 0 < k && OccursAt(TrimLeft(output), "==", k) ==> !IsEol(TrimLeft(output)[k - 1])
  {
    hide TrimLeft;
    TrimLeftLines(output);
    TrimLeftKeeps(output);
    var kept := TrimLeft(output);
    var d := |output| - |kept|;
    forall k: nat | 0 < k && OccursAt(kept, "==", k) ensures !IsEol(kept[k - 1]) {
      assert kept == output[d..|output|];
      OccursInWhole(output, d, |output|, "==", k);
    }
  }

  lemma KeptNoHeading(output: string, rest: string)
    requires Terminated(output) && PlainLines(output) && TrimLeft(output) != ""
    ensures !("==" <= TrimLeft(output) + rest)
  {
    hide TrimLeft, OccursAt;
    TrimLeftLines(output);
    TrimLeftKeeps(output);
    var kept := TrimLeft(output);
    var d := |output| - |kept|;
    if "==" <= kept + rest {
      assert kept[0] == (kept + rest)[0] && kept[|kept| - 1] == '\n';
      assert |kept| >= 2 && kept[1] == (kept + rest)[1];
      TwoAt(output, d);
    }
  }

  lemma TwoAt(s: string, d: nat)
    requires d + 2 <= |s| && s[d] == '=' && s[d + 1] == '='
    ensures OccursAt(s, "==", d)
  {
    assert s[d..d + 2] == "==";
  }

  /** Chunks collected one after another read like one report. */
  lemma {:induction false} ReportAppend(a: seq<Probed>, b: seq<Probed>, i: nat)
    requires i <= |a|
    ensures Report(a + b, i) == Report(a, i) + Report(b, 0)
    decreases |a| - i
  {
    hide Printed;
    if i == |a| {
      ReportShift(a, b, i);
    } else {
      ReportAppend(a, b, i + 1);
    }
  }

  lemma {:induction false} ReportShift(a: seq<Probed>, b: seq<Probed>, i: nat)
    requires |a| <= i <= |a| + |b|
    ensures Report(a + b, i) == Report(b, i - |a|)
    decreases |a| + |b| - i
  {
    hide Printed;
    if i < |a| + |b| {
      ReportShift(a, b, i + 1);
    }
  }

  /** What the probe buffer holds after the answers have been appended one after the other, as far as there is room. */
  function Poured(texts: seq<string>): string {
    if texts == [] then "" else Take(Poured(texts[..|texts| - 1]) + texts[|texts| - 1], BUF_SIZE - 1)
  }

  /** All the probes of a list of chunks. */
  function All(chunks: seq<seq<Probed>>): seq<Probed> {
    if chunks == [] then [] else All(chunks[..|chunks| - 1]) + chunks[|chunks| - 1]
  }

  /** What the shell prints for each chunk. */
  function Texts(chunks: seq<seq<Probed>>): (r: seq<string>)
    ensures |r| == |chunks|
  {
    seq(|chunks|, i requires 0 <= i < |chunks| => Report(chunks[i], 0))
  }

  lemma TakeAgain(a: string, b: string, n: nat)
    ensures Take(Take(a, n) + b, n) == Take(a + b, n)
  {
  }

  /** The buffer holds the beginning of one long report, all of it if there is room. */
  lemma {:induction false} PouredIsReport(chunks: seq<seq<Probed>>)
    ensures Poured(Texts(chunks)) == Take(Report(All(chunks), 0), BUF_SIZE - 1)
    decreases |chunks|
  {
    hide Report;
    if chunks == [] {
      assert Report(All(chunks), 0) == "" by { NoProbes(); }
    } else {
      var front, last := chunks[..|chunks| - 1], chunks[|chunks| - 1];
      PouredIsReport(front);
      assert Texts(chunks)[..|chunks| - 1] == Texts(front);
      ReportAppend(All(front), last, 0);
      TakeAgain(Report(All(front), 0), Report(last, 0), BUF_SIZE - 1);
    }
  }

  lemma NoProbes()
    ensures Report([], 0) == ""
  {
  }

  /** Probes spread over any number of chunks that fit the buffer are each read back, whichever chunk they were in. */
  lemma {:induction false} ChunksReadBack(chunks: seq<seq<Probed>>, j: nat)
    requires Readable(All(chunks)) && |Report(All(chunks), 0)| < BUF_SIZE && j < |All(chunks)|
    ensures SectionOf(Poured(Texts(chunks)), All(chunks)[j].tag)
         == Some(TrimRight(Take(TrimLeft(All(chunks)[j].output), SCRATCH_SIZE - 1)))
  {
    hide Readable, Report, SectionOf, Poured, Texts, All, TrimLeft, TrimRight;
    PouredIsReport(chunks);
    SectionRecovered(All(chunks), j);
  }

  lemma PouredMore(texts: seq<string>, text: string)
    ensures Poured(texts + [text]) == Take(Poured(texts) + text, BUF_SIZE - 1)
    ensures Poured([]) == ""
  {
    assert (texts + [text])[..|texts|] == texts;
  }

  /** A chunk that is not refused and that the shell answers. */
  predicate Answered(shell: string -> Option<string>, cmd: string) {
    |cmd| <= CMD_BUDGET && shell(cmd).Some?
  }

  /** Where a tag's section lies in the text, before its trailing line ends are dropped. */
  method Locate(text: string, tag: string) returns (r: Option<(nat, nat)>)
    ensures r.None? <==> SectionOf(text, tag).None?
    ensures r.Some? ==> r.value.0 + r.value.1 <= |text| && r.value.1 < SCRATCH_SIZE
    ensures r.Some? ==> SectionOf(text, tag) == Some(TrimRight(text[r.value.0..r.value.0 + r.value.1]))
  {
    hide Marker, FindFrom, Find, TrimLeft, TrimRight;
    var marker := Marker(tag);
    var found := Find(text, marker);
    if found.None? {
      return None;
    }
    var start := SkipLineEnds(text, found.value + |marker|);
    if "==" <= text[start..] {
      TrimRightKeeps("");
      assert text[start..start + 0] == "";
      return Some((start, 0));
    }
    var end := Find(text[start..], "\n==");
    var length := if end.Some? then end.value else |text| - start;
    if length >= SCRATCH_SIZE {
      length := SCRATCH_SIZE - 1;
    }
    assert text[start..start + length] == text[start..][..length];
    return Some((start, length));
  }

  /** The probe buffer and the scratch buffer sections are copied into, both NUL-terminated. */
  class ProbeLayer {
    var loaded: bool
    const buf: array<char>
    var used: nat  // strlen(buf)
    const scratch: array<char>

    ghost predicate Valid()
      reads this, buf
    {
      buf.Length == BUF_SIZE && scratch.Length == SCRATCH_SIZE && buf != scratch
      && used < BUF_SIZE && buf[used] == '\0'
    }

    function Collected(): string
      reads this, buf
      requires used <= buf.Length
    {
      buf[..used]
    }

    constructor ()
      ensures Valid() && !loaded && Collected() == "" && fresh(buf) && fresh(scratch)
    {
      loaded, used := false, 0;
      buf := new char[BUF_SIZE](_ => '\0');
      scratch := new char[SCRATCH_SIZE](_ => '\0');
    }

    /** Runs one chunk's command line and keeps as much of its answer as the buffer has room for. */
    method AppendChunk(shell: string -> Option<string>, cmd: string) returns (rc: int)
      requires Valid()
      modifies `used, buf
      ensures Valid() && (rc == 0 || rc == -1)
      ensures rc == 0 <==> Answered(shell, cmd)
      ensures rc == -1 ==> Collected() == old(Collected())
      ensures rc == 0 ==> Collected() == Take(old(Collected()) + shell(cmd).value, BUF_SIZE - 1)
    {
      if |cmd| > CMD_BUDGET {
        return -1;
      }
      var answer := shell(cmd);
      if answer.None? {
        return -1;
      }
      var raw := answer.value;
      var space := BUF_SIZE - used - 1;
      var n := if |raw| > space then space else |raw|;
      ghost var before := Collected();
      for i := 0 to n
        modifies buf
        invariant buf[..used] == before
        invariant buf[used..used + i] == raw[..i]
      {
        buf[used + i] := raw[i];
      }
      used := used + n;
      assert buf[..used] == before + raw[..n];
      buf[used] := '\0';
      assert before + raw[..n] == Take(before + raw, BUF_SIZE - 1);
      return 0;
    }

    /** The four chunks in turn; the first that fails leaves the probes unloaded. */
    method LoadProbeData(shell: string -> Option<string>, fast: string, modules: string, kernel: string, heavy: string)
      requires Valid()
      modifies this, buf
      ensures Valid()
      ensures loaded <==> Answered(shell, fast) && Answered(shell, modules) && Answered(shell, kernel) && Answered(shell, heavy)
      ensures loaded ==>
        Collected() == Poured([shell(fast).value, shell(modules).value, shell(kernel).value, shell(heavy).value])
    {
      hide Poured, Take;
      ghost var texts: seq<string> := [];
      loaded, used := false, 0;
      buf[0] := '\0';
      PouredMore(texts, "");
      assert Collected() == Poured(texts);
      var rc := AppendChunk(shell, fast);
      if rc != 0 {
        return;
      }
      PouredMore(texts, shell(fast).value);
      texts := texts + [shell(fast).value];
      assert Collected() == Poured(texts);
      rc := AppendChunk(shell, modules);
      if rc != 0 {
        return;
      }
      PouredMore(texts, shell(modules).value);
      texts := texts + [shell(modules).value];
      assert Collected() == Poured(texts);
      rc := AppendChunk(shell, kernel);
      if rc != 0 {
        return;
      }
      PouredMore(texts, shell(kernel).value);
      texts := texts + [shell(kernel).value];
      assert Collected() == Poured(texts);
      rc := AppendChunk(shell, heavy);
      if rc != 0 {
        return;
      }
      PouredMore(texts, shell(heavy).value);
      texts := texts + [shell(heavy).value];
      assert Collected() == Poured(texts);
      assert texts == [shell(fast).value, shell(modules).value, shell(kernel).value, shell(heavy).value];
      loaded := true;
    }

    /** The section of a tag, left at the start of the scratch buffer; the probe buffer is only read. */
    method ReadSection(tag: string) returns (r: Option<nat>)
      requires Valid()
      modifies scratch
      ensures Valid() && Collected() == old(Collected())
      ensures r.Some? ==> r.value < scratch.Length && scratch[r.value] == '\0'
      ensures (if r.Some? then Some(scratch[..r.value]) else None)
           == if loaded then SectionOf(Collected(), tag) else None
    {
      hide SectionOf, TrimRight;
      if !loaded {
        return None;
      }
      var text := buf[..used];
      var bounds := Locate(text, tag);
      if bounds.None? {
        return None;
      }
      var (start, length) := bounds.value;
      Load(text[start..start + length]);
      var kept := TrimmedLength(scratch[..length], length);
      assert scratch[..length][..length] == scratch[..length];
      scratch[kept] := '\0';
      assert scratch[..kept] == scratch[..length][..kept];
      return Some(kept);
    }

    method Load(piece: string)
      requires Valid() && |piece| < SCRATCH_SIZE
      modifies scratch
      ensures Valid() && Collected() == old(Collected())
      ensures scratch[..|piece|] == piece && scratch[|piece|] == '\0'
    {
      for i := 0 to |piece|
        modifies scratch
        invariant scratch[..i] == piece[..i]
      {
        scratch[i] := piece[i];
      }
      scratch[|piece|] := '\0';
    }

    /** Copies a tag's section into the caller's buffer: its leading bufsize - 1 characters, then NULs. */
    method Copy(tag: string, out: array<char>)
      requires Valid() && out.Length > 0 && out != buf && out != scratch
      modifies scratch, out
      ensures Valid() && Collected() == old(Collected())
      ensures var shown := if loaded && SectionOf(Collected(), tag).Some?
                           then Take(SectionOf(Collected(), tag).value, out.Length - 1) else "";
              |shown| < out.Length && out[..|shown|] == shown && out[|shown|] == '\0'
    {
      hide SectionOf;
      var section := ReadSection(tag);
      if section.None? {
        out[0] := '\0';
        return;
      }
      ghost var whole := scratch[..section.value];
      var n := if section.value < out.Length - 1 then section.value else out.Length - 1;
      for i := 0 to out.Length - 1
        modifies out
        invariant buf[..used] == old(Collected()) && buf[used] == '\0'
        invariant scratch[..section.value] == whole
        invariant forall k :: 0 <= k < i ==> out[k] == if k < n then whole[k] else '\0'
      {
        out[i] := if i < n then scratch[i] else '\0';
      }
      out[out.Length - 1] := '\0';
      assert out[..n] == Take(whole, out.Length - 1);
    }
  }
}
