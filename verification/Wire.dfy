/**
  The APRIL wire: splinter_emit prints one line per event, splinterd reads it back up to the newline
  and cuts it into source, type and payload.
 */
module Wire {
  import opened Text

  const EMIT_BUF: nat := 2048
  const RECV_BUF: nat := 1284
  const MAX_NAME: nat := 32      // SPLINTER_MAX_SOURCE and SPLINTER_MAX_TYPE
  const MAX_PAYLOAD: nat := 1024
  const PREFIX := "APRIL"

  datatype Event = Event(source: string, kind: string, payload: string)

  /** Line ends become spaces. */
  function Clean(s: string): (r: string)
    ensures |r| == |s|
  {
    seq(|s|, i requires 0 <= i < |s| => if IsEol(s[i]) then ' ' else s[i])
  }

  function Line(source: string, kind: string, payload: string): string {
    PREFIX + ("|" + (source + ("|" + (kind + ("|" + (Clean(Take(payload, EMIT_BUF - 1)) + "\n"))))))
  }

  /** What goes over the socket: nothing when the line does not fit the sender's buffer. */
  function Sent(source: string, kind: string, payload: string): Option<string> {
    if |Line(source, kind, payload)| < EMIT_BUF then Some(Line(source, kind, payload)) else None
  }

  /** What the receiver keeps of a byte stream: up to the newline, or a full buffer. */
  function FirstLine(stream: string, room: nat): string {
    if room == 0 || stream == "" || stream[0] == '\n' then "" else [stream[0]] + FirstLine(stream[1..], room - 1)
  }

  /** strspn over a one-character set, then strcspn. */
  function SkipBars(s: string): (r: string)
    ensures |r| <= |s|
  {
    if s != "" && s[0] == '|' then SkipBars(s[1..]) else s
  }

  function UntilBar(s: string): (r: string)
    ensures |r| <= |s|
  {
    if s == "" || s[0] == '|' then "" else [s[0]] + UntilBar(s[1..])
  }

  /** One strtok_r call on '|': the token and the saved rest, or None at the end of the text. */
  function Token(s: string): Option<(string, string)> {
    var t := SkipBars(s);
    if t == "" then None
    else
      var tok := UntilBar(t);
      Some((tok, if |tok| < |t| then t[|tok| + 1..] else ""))
  }

  function Name(s: string): Option<(string, string)> {
    match Token(s)
    case None => None
    case Some((tok, rest)) => if 0 < |tok| < MAX_NAME then Some((tok, rest)) else None
  }

  function Parse(line: string): Option<Event> {
    match Token(TrimRight(Take(line, RECV_BUF - 1)))
    case None => None
    case Some((prefix, rest)) => if prefix == PREFIX then ParseFields(rest) else None
  }

  function ParseFields(s: string): Option<Event> {
    match Name(s)
    case None => None
    case Some((source, afterSource)) =>
      match Name(afterSource)
      case None => None
      case Some((kind, rest)) =>
        if rest == "" then None else Some(Event(source, kind, Take(rest, MAX_PAYLOAD - 1)))
  }

  /** What splinterd records for a byte stream it accepted. */
  function Received(stream: string): Option<Event> {
    var line := FirstLine(stream, RECV_BUF - 1);
    if line == "" then None else Parse(line)
  }

  /** The names the wire can carry. */
  predicate WireName(s: string) {
    0 < |s| < MAX_NAME && forall k :: 0 <= k < |s| ==> s[k] != '|' && s[k] != '\n'
  }

  lemma {:induction false} UntilBarStops(a: string, b: string)
    requires forall k :: 0 <= k < |a| ==> a[k] != '|'
    ensures UntilBar(a + "|" + b) == a
  {
    if a != "" {
      assert (a + "|" + b)[1..] == a[1..] + "|" + b;
      UntilBarStops(a[1..], b);
    }
  }

  lemma TokenFront(a: string, b: string)
    requires a != "" && forall k :: 0 <= k < |a| ==> a[k] != '|'
    ensures Token(a + ("|" + b)) == Some((a, b))
  {
    UntilBarStops(a, b);
    assert a + ("|" + b) == a + "|" + b;
    assert (a + "|" + b)[|a| + 1..] == b;
  }

  lemma {:induction false} UntilBarKeeps(s: string)
    ensures UntilBar(s) == s[..|UntilBar(s)|]
    ensures forall k :: 0 <= k < |UntilBar(s)| ==> UntilBar(s)[k] != '|'
    ensures s != "" && s[0] != '|' ==> UntilBar(s) != ""
  {
    if s != "" && s[0] != '|' {
      UntilBarKeeps(s[1..]);
    }
  }

  lemma {:induction false} SkipBarsKeeps(s: string)
    ensures SkipBars(s) == s[|s| - |SkipBars(s)|..]
    ensures SkipBars(s) != "" ==> SkipBars(s)[0] != '|'
  {
    if s != "" && s[0] == '|' {
      SkipBarsKeeps(s[1..]);
    }
  }

  predicate NoNewline(s: string) {
    forall k :: 0 <= k < |s| ==> s[k] != '\n'
  }

  /** Tokens are non-empty, hold no bar, and are cut from the text. */
  lemma TokenShape(s: string)
    requires NoNewline(s)
    ensures match Token(s)
            case None => true
            case Some((tok, rest)) => tok != "" && NoNewline(tok) && NoNewline(rest)
                                      && forall k :: 0 <= k < |tok| ==> tok[k] != '|'
  {
    SkipBarsKeeps(s);
    UntilBarKeeps(SkipBars(s));
  }

  /** Whatever is parsed from one line has well-formed names and a payload. */
  lemma {:induction false} ParsedShape(line: string)
    requires NoNewline(line)
    ensures match Parse(line)
            case None => true
            case Some(e) => WireName(e.source) && WireName(e.kind) && 0 < |e.payload| < MAX_PAYLOAD
  {
    hide Token, TrimRight;
    var kept := TrimRight(Take(line, RECV_BUF - 1));
    TrimRightKeeps(Take(line, RECV_BUF - 1));
    TokenShape(kept);
    if Token(kept).Some? {
      var afterPrefix := Token(kept).value.1;
      TokenShape(afterPrefix);
      if Token(afterPrefix).Some? {
        TokenShape(Token(afterPrefix).value.1);
      }
    }
  }

  lemma {:induction false} FirstLineNoNewline(stream: string, room: nat)
    ensures NoNewline(FirstLine(stream, room)) && |FirstLine(stream, room)| <= room
  {
    if room != 0 && stream != "" && stream[0] != '\n' {
      FirstLineNoNewline(stream[1..], room - 1);
    }
  }

  /** What is read is what comes before the first newline, as far as there is room. */
  lemma {:induction false} FirstLineExactly(stream: string, room: nat)
    ensures var line := FirstLine(stream, room);
      && line <= stream && NoNewline(line) && |line| <= room
      && (|line| == room || line == stream || stream[|line|] == '\n')
  {
    if room != 0 && stream != "" && stream[0] != '\n' {
      FirstLineExactly(stream[1..], room - 1);
    }
  }

  lemma {:induction false} FirstLineTakes(line: string, rest: string, room: nat)
    requires NoNewline(line)
    ensures FirstLine(line + "\n" + rest, room) == Take(line, room)
  {
    if line != "" && room != 0 {
      assert (line + "\n" + rest)[1..] == line[1..] + "\n" + rest;
      FirstLineTakes(line[1..], rest, room - 1);
    }
  }

  lemma CleanTake(s: string, n: nat, m: nat)
    requires n <= m
    ensures Take(Clean(Take(s, m)), n) == Take(Clean(s), n)
  {
  }

  lemma CleanShape(s: string)
    ensures NoNewline(Clean(s)) && (s != "" ==> !IsEol(Clean(s)[|s| - 1]))
    ensures forall k :: 0 <= k < |s| ==> !IsEol(Clean(s)[k])
  {
  }

  /** Cutting the line in the receiver's buffer only ever shortens the payload. */
  lemma CutInPayload(header: string, payload: string, n: nat)
    requires |header| <= n
    ensures Take(header + payload, n) == header + Take(payload, n - |header|)
  {
  }

  lemma FieldsParsed(source: string, kind: string, shown: string)
    requires WireName(source) && WireName(kind) && shown != ""
    ensures ParseFields(source + ("|" + (kind + ("|" + shown)))) == Some(Event(source, kind, Take(shown, MAX_PAYLOAD - 1)))
  {
    TokenFront(source, kind + ("|" + shown));
    TokenFront(kind, shown);
  }

  /** The text before the payload. */
  function Header(source: string, kind: string): string {
    PREFIX + "|" + source + "|" + kind + "|"
  }

  lemma LineSplits(source: string, kind: string, payload: string)
    ensures Line(source, kind, payload)
         == Header(source, kind) + Clean(Take(payload, EMIT_BUF - 1)) + "\n" + ""
  {
  }

  lemma ParseLine(source: string, kind: string, shown: string)
    requires WireName(source) && WireName(kind) && shown != "" && !IsEol(shown[|shown| - 1])
    requires |Header(source, kind) + shown| < RECV_BUF
    ensures Parse(Header(source, kind) + shown) == Some(Event(source, kind, Take(shown, MAX_PAYLOAD - 1)))
  {
    hide Token, ParseFields;
    var line := Header(source, kind) + shown;
    assert line[..|line|] == line;
    TrimRightUnique(line, |line|);
    assert line == PREFIX + ("|" + (source + ("|" + (kind + ("|" + shown)))));
    TokenFront(PREFIX, source + ("|" + (kind + ("|" + shown))));
    FieldsParsed(source, kind, shown);
  }

  lemma HeaderShape(source: string, kind: string)
    requires WireName(source) && WireName(kind)
    ensures |Header(source, kind)| <= 70 && NoNewline(Header(source, kind))
  {
  }

  /** An event that is sent comes back with its names and the first 1023 characters of its payload. */
  lemma RoundTrip(source: string, kind: string, payload: string)
    requires WireName(source) && WireName(kind) && payload != ""
    ensures Received(Line(source, kind, payload))
         == Some(Event(source, kind, Take(Clean(payload), MAX_PAYLOAD - 1)))
  {
    hide Parse, FirstLine, Clean, Header, Line;
    var header := Header(source, kind);
    var safe := Clean(Take(payload, EMIT_BUF - 1));
    HeaderShape(source, kind);
    CleanShape(Take(payload, EMIT_BUF - 1));
    LineSplits(source, kind, payload);
    FirstLineTakes(header + safe, "", RECV_BUF - 1);
    CutInPayload(header, safe, RECV_BUF - 1);
    var shown := Take(safe, RECV_BUF - 1 - |header|);
    assert !IsEol(shown[|shown| - 1]);
    ParseLine(source, kind, shown);
    assert Take(shown, MAX_PAYLOAD - 1) == Take(safe, MAX_PAYLOAD - 1);
    CleanTake(payload, MAX_PAYLOAD - 1, EMIT_BUF - 1);
  }

  /** Exactly which events survive the wire. */
  lemma {:induction false} RoundTripExactly(source: string, kind: string, payload: string)
    ensures Received(Line(source, kind, payload)) == Some(Event(source, kind, Take(Clean(payload), MAX_PAYLOAD - 1)))
       <==> WireName(source) && WireName(kind) && payload != ""
  {
    hide Parse, FirstLine, Clean, Line;
    FirstLineNoNewline(Line(source, kind, payload), RECV_BUF - 1);
    ParsedShape(FirstLine(Line(source, kind, payload), RECV_BUF - 1));
    if WireName(source) && WireName(kind) && payload != "" {
      RoundTrip(source, kind, payload);
    }
  }

  /** What splinterd records of an event that is emitted. */
  function Delivered(source: string, kind: string, payload: string): Option<Event> {
    match Sent(source, kind, payload) case None => None case Some(line) => Received(line)
  }

  /** An event arrives with its names and its payload exactly when the names are wire names and it fits the sender's buffer. */
  lemma {:induction false} DeliveredExactly(source: string, kind: string, payload: string)
    ensures Delivered(source, kind, payload) == Some(Event(source, kind, Take(Clean(payload), MAX_PAYLOAD - 1)))
       <==> WireName(source) && WireName(kind) && payload != "" && |source| + |kind| + |payload| < 2039
    ensures |source| + |kind| + |payload| >= 2039 && payload != "" && |source| + |kind| > 0 ==>
              Delivered(source, kind, payload) == None
  {
    hide Received, Clean, WireName;
    LineLength(source, kind, payload);
    RoundTripExactly(source, kind, payload);
    NamesNotEmpty(source, kind);
    hide Line;
  }

  lemma LineLength(source: string, kind: string, payload: string)
    ensures |Line(source, kind, payload)| == |source| + |kind| + |Take(payload, EMIT_BUF - 1)| + 9
  {
  }

  lemma NamesNotEmpty(source: string, kind: string)
    ensures WireName(source) && WireName(kind) ==> |source| > 0 && |kind| > 0
  {
  }

  // ---- what a line must look like ------------------------------------------------------------

  predicate Bars(s: string) {
    forall k :: 0 <= k < |s| ==> s[k] == '|'
  }

  /** A name of the right length without a bar. */
  predicate Named(s: string) {
    0 < |s| < MAX_NAME && '|' !in s
  }

  /** The prefix, the names and the payload with a bar after each, and any number of bars before the first three. */
  predicate Spells(text: string, e: Event, a: string, b: string, c: string, rest: string) {
    && Bars(a) && Bars(b) && Bars(c) && Named(e.source) && Named(e.kind) && rest != ""
    && e.payload == Take(rest, MAX_PAYLOAD - 1)
    && text == a + (PREFIX + ("|" + (b + (e.source + ("|" + (c + (e.kind + ("|" + rest))))))))
  }

  lemma {:induction false} SkipsBars(b: string, s: string)
    requires Bars(b) && s != "" && s[0] != '|'
    ensures SkipBars(b + s) == s
  {
    if b == "" {
      assert b + s == s;
    } else {
      assert (b + s)[1..] == b[1..] + s;
      SkipsBars(b[1..], s);
    }
  }

  lemma TokenBehind(b: string, tok: string, rest: string)
    requires Bars(b) && tok != "" && '|' !in tok
    ensures Token(b + (tok + ("|" + rest))) == Some((tok, rest))
  {
    SkipsBars(b, tok + ("|" + rest));
    assert forall k :: 0 <= k < |tok| ==> tok[k] in tok;
    TokenFront(tok, rest);
  }

  /** A token with text left behind it was cut off at a bar. */
  lemma TokenSpelled(s: string) returns (b: string)
    requires Token(s).Some?
    ensures var (tok, rest) := Token(s).value;
            Bars(b) && tok != "" && '|' !in tok && (rest != "" ==> s == b + (tok + ("|" + rest)))
  {
    var t := SkipBars(s);
    SkipBarsKeeps(s);
    SkippedBars(s);
    b := s[..|s| - |t|];
    assert s == b + t;
    hide SkipBars, UntilBar, Bars;
    UntilBarText(t);
  }

  /** What is left behind a token came after a bar. */
  lemma UntilBarText(t: string)
    requires t != "" && t[0] != '|'
    ensures var tok := UntilBar(t);
            tok != "" && '|' !in tok && (|tok| < |t| ==> t == tok + ("|" + t[|tok| + 1..]))
  {
    UntilBarKeeps(t);
    UntilBarWhole(t);
    hide UntilBar;
  }

  lemma {:induction false} SkippedBars(s: string)
    ensures Bars(s[..|s| - |SkipBars(s)|])
  {
    if s != "" && s[0] == '|' {
      SkippedBars(s[1..]);
      assert s[..|s| - |SkipBars(s)|] == ['|'] + s[1..][..|s[1..]| - |SkipBars(s[1..])|];
    }
  }

  lemma {:induction false} UntilBarWhole(t: string)
    ensures |UntilBar(t)| < |t| ==> t[|UntilBar(t)|] == '|'
  {
    if t != "" && t[0] != '|' {
      UntilBarWhole(t[1..]);
    }
  }

  /** Exactly which lines are accepted, and as what: any other prefix, a missing field or a long name is refused. */
  lemma {:induction false} ParsedExactly(line: string, e: Event)
    ensures var text := TrimRight(Take(line, RECV_BUF - 1));
      Parse(line) == Some(e) <==> exists a, b, c, rest :: Spells(text, e, a, b, c, rest)
  {
    var text := TrimRight(Take(line, RECV_BUF - 1));
    ParseMeans(line, e);
    hide Parse, Spells, Token, ParseFields, TrimRight;
    if Parse(line) == Some(e) {
      var a, b, c, rest := SpelledBy(text, e);
    }
    if exists a, b, c, rest :: Spells(text, e, a, b, c, rest) {
      var a, b, c, rest :| Spells(text, e, a, b, c, rest);
      SpelledParses(text, e, a, b, c, rest);
    }
  }

  lemma ParseMeans(line: string, e: Event)
    ensures var text := TrimRight(Take(line, RECV_BUF - 1));
      Parse(line) == Some(e) <==> Token(text).Some? && Token(text).value.0 == PREFIX && ParseFields(Token(text).value.1) == Some(e)
  {
  }

  lemma SpelledParses(text: string, e: Event, a: string, b: string, c: string, rest: string)
    requires Spells(text, e, a, b, c, rest)
    ensures Token(text).Some? && Token(text).value.0 == PREFIX && ParseFields(Token(text).value.1) == Some(e)
  {
    hide Token, Bars;
    TokenBehind(a, PREFIX, b + (e.source + ("|" + (c + (e.kind + ("|" + rest))))));
    TokenBehind(b, e.source, c + (e.kind + ("|" + rest)));
    TokenBehind(c, e.kind, rest);
  }

  lemma SpelledBy(text: string, e: Event) returns (a: string, b: string, c: string, rest: string)
    requires Token(text).Some? && Token(text).value.0 == PREFIX && ParseFields(Token(text).value.1) == Some(e)
    ensures Spells(text, e, a, b, c, rest)
  {
    NoToken();
    hide Token, Bars;
    var fields := Token(text).value.1;
    var after := Token(fields).value.1;
    a := TokenSpelled(text);
    b := TokenSpelled(fields);
    c := TokenSpelled(after);
    rest := Token(after).value.1;
  }

  lemma NoToken()
    ensures Token("") == None
  {
  }

  /** splinter_emit: the text handed to write(), None when the line does not fit. */
  method SplinterEmit(source: string, kind: string, payload: string) returns (sent: Option<string>)
    ensures sent == Sent(source, kind, payload)
  {
    var safe := new char[EMIT_BUF](_ => '\0');
    var kept := Take(payload, EMIT_BUF - 1);
    for i := 0 to |kept|
      invariant safe[..i] == kept[..i]
    {
      safe[i] := kept[i];
    }
    for p := 0 to |kept|
      invariant forall k :: 0 <= k < p ==> safe[k] == Clean(kept)[k]
      invariant forall k :: p <= k < |kept| ==> safe[k] == kept[k]
    {
      if IsEol(safe[p]) {
        safe[p] := ' ';
      }
    }
    assert safe[..|kept|] == Clean(kept);
    var line := PREFIX + ("|" + (source + ("|" + (kind + ("|" + (safe[..|kept|] + "\n"))))));
    return if |line| < EMIT_BUF then Some(line) else None;
  }

  /** The reader loop of handle_connection: one character at a time, up to the newline or a full buffer. */
  method ReadLine(stream: string) returns (line: string)
    ensures line == FirstLine(stream, RECV_BUF - 1)
  {
    hide FirstLine;
    var buf := new char[RECV_BUF](_ => '\0');
    var idx := 0;
    assert stream[0..] == stream;
    while idx < RECV_BUF - 1 && idx < |stream| && stream[idx] != '\n'
      invariant idx <= |stream| && idx <= RECV_BUF - 1
      invariant buf[..idx] == stream[..idx]
      invariant FirstLine(stream, RECV_BUF - 1) == stream[..idx] + FirstLine(stream[idx..], RECV_BUF - 1 - idx)
    {
      FirstLineStep(stream, idx, RECV_BUF - 1 - idx);
      buf[idx] := stream[idx];
      idx := idx + 1;
    }
    FirstLineEnds(stream[idx..], RECV_BUF - 1 - idx);
    return buf[..idx];
  }

  /** strtok_r on '|' as it walks the buffer. */
  method NextToken(s: string, at: nat) returns (tok: string, next: nat)
    requires at <= |s|
    ensures at <= next <= |s|
    ensures match Token(s[at..])
            case None => tok == ""
            case Some((t, rest)) => tok == t != "" && s[next..] == rest
  {
    hide SkipBars, UntilBar;
    var start := SpanBars(s, at);
    var end := SpanToBar(s, start);
    tok := s[start..end];
    next := if end < |s| then end + 1 else end;
    SkipBarsKeeps(s[at..]);
    UntilBarKeeps(s[start..]);
    assert start < |s| ==> s[start..][0] == s[start];
    assert end < |s| ==> s[start..][|tok| + 1..] == s[next..];
  }

  method SpanBars(s: string, at: nat) returns (start: nat)
    requires at <= |s|
    ensures at <= start <= |s| && s[start..] == SkipBars(s[at..])
  {
    start := at;
    while start < |s| && s[start] == '|'
      invariant at <= start <= |s| && SkipBars(s[start..]) == SkipBars(s[at..])
    {
      assert s[start..][1..] == s[start + 1..];
      start := start + 1;
    }
  }

  method SpanToBar(s: string, start: nat) returns (end: nat)
    requires start <= |s|
    ensures start <= end <= |s| && s[start..end] == UntilBar(s[start..])
  {
    hide UntilBar;
    end := start;
    while end < |s| && s[end] != '|'
      invariant start <= end <= |s|
      invariant UntilBar(s[start..]) == s[start..end] + UntilBar(s[end..])
    {
      UntilBarStep(s, start, end);
      end := end + 1;
    }
    UntilBarEnds(s[end..]);
  }

  lemma UntilBarEnds(t: string)
    requires t == "" || t[0] == '|'
    ensures UntilBar(t) == ""
  {
  }

  lemma UntilBarStep(s: string, start: nat, end: nat)
    requires start <= end < |s| && s[end] != '|'
    ensures s[start..end] + UntilBar(s[end..]) == s[start..end + 1] + UntilBar(s[end + 1..])
  {
    assert s[end..][1..] == s[end + 1..];
    assert s[start..end + 1] == s[start..end] + [s[end]];
  }

  lemma FirstLineStep(s: string, idx: nat, room: nat)
    requires idx < |s| && s[idx] != '\n' && room > 0
    ensures s[..idx] + FirstLine(s[idx..], room) == s[..idx + 1] + FirstLine(s[idx + 1..], room - 1)
  {
    assert s[idx..][1..] == s[idx + 1..];
    assert s[..idx + 1] == s[..idx] + [s[idx]];
  }

  lemma FirstLineEnds(s: string, room: nat)
    requires room == 0 || s == "" || s[0] == '\n'
    ensures FirstLine(s, room) == ""
  {
  }

  method ParseEvent(line: string) returns (e: Option<Event>)
    ensures e == Parse(line)
  {
    hide Token, TrimRight;
    var buf := Take(line, RECV_BUF - 1);
    var length := TrimmedLength(buf, |buf|);
    assert buf[..|buf|] == buf;
    buf := buf[..length];
    assert buf[0..] == buf;
    var prefix, at := NextToken(buf, 0);
    if prefix != PREFIX {
      return None;
    }
    var source;
    source, at := NextToken(buf, at);
    if source == "" || |source| >= MAX_NAME {
      return None;
    }
    var kind;
    kind, at := NextToken(buf, at);
    if kind == "" || |kind| >= MAX_NAME {
      return None;
    }
    if at == |buf| {
      return None;
    }
    return Some(Event(source, kind, Take(buf[at..], MAX_PAYLOAD - 1)));
  }

  method HandleConnection(stream: string) returns (e: Option<Event>)
    ensures e == Received(stream)
  {
    var line := ReadLine(stream);
    if line == "" {
      return None;
    }
    e := ParseEvent(line);
  }
}
