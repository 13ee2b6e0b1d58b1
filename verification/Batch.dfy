/**
  bexec_batch: several commands sent in one shell round trip, each announced by an echoed marker,
  and their outputs cut back out of the single text that comes back.
 */
module Batch {
  import opened Text

  const MAX_BATCH: nat := 12
  const CMD_BUDGET: nat := 1450
  const COMBINED_SIZE: nat := 4096

  /** The part of an item the caller hands in, and the slot the batch fills (None is a null pointer). */
  datatype Item = Item(cmd: string, result: Option<string>)

  function Digits(n: nat): string {
    if n < 10 then [('0' as int + n) as char] else Digits(n / 10) + Digits(n % 10)
  }

  function Marker(i: nat): string {
    "__BX_" + Digits(i) + "__"
  }

  function Announced(i: nat, cmd: string): string {
    (if i > 0 then "; echo " else "echo ") + Marker(i) + "; " + cmd
  }

  /** The command line that runs the first k commands. */
  function Combined(cmds: seq<string>, k: nat): string
    requires k <= |cmds|
  {
    if k == 0 then "" else Combined(cmds, k - 1) + Announced(k - 1, cmds[k - 1])
  }

  /** The end of the echoed line, then the command's own output. */
  function Shown(output: string): string {
    "\n" + output
  }

  /** What a shell prints for that line from command i on: each marker on its own line, then the output. */
  function Frame(mk: nat -> string, outputs: seq<string>, i: nat): string
    requires i <= |outputs|
    decreases |outputs| - i
  {
    if i == |outputs| then "" else mk(i) + (Shown(outputs[i]) + Frame(mk, outputs, i + 1))
  }

  /** The cutting loop from item i on; `text` is what the cursor points at. */
  function Unbatch(mk: nat -> string, text: string, i: nat, n: nat): (r: seq<Option<string>>)
    requires i <= n
    ensures |r| == n - i
    decreases n - i
  {
    if i == n then []
    else match Find(text, mk(i))
      case None => [None] + Unbatch(mk, text, i + 1, n)
      case Some(p) =>
        var body := TrimLeft(text[p + |mk(i)|..]);
        var (result, rest) := Section(mk, body, i, n);
        [Some(result)] + Unbatch(mk, rest, i + 1, n)
  }

  /** One section and the text the cursor moves to: the next marker, or just past the trimmed section. */
  function Section(mk: nat -> string, body: string, i: nat, n: nat): (string, string) {
    match if i + 1 < n then Find(body, mk(i + 1)) else None
    case Some(e) => (TrimRight(body[..e]), body[e..])
    case None => (TrimRight(body), body[|TrimRight(body)|..])
  }

  /** All the cutting relies on: visible one-line markers that never get shorter. */
  ghost predicate MarkerFamily(mk: nat -> string) {
    && (forall i: nat :: OneLine(mk(i)) && mk(i) != "")
    && (forall i: nat, k: nat :: i <= k ==> |mk(i)| <= |mk(k)|)
  }

  /** The outputs that can be framed: line-terminated, and silent about the marker that follows them. */
  ghost predicate Framable(mk: nat -> string, outputs: seq<string>) {
    forall i :: 0 <= i < |outputs| - 1 ==> Terminated(outputs[i]) && Absent(outputs[i], mk(i + 1))
  }

  /** Where marker j ends, in a frame that starts at command i. */
  function MarkerEnd(mk: nat -> string, outputs: seq<string>, i: nat, j: nat): (r: nat)
    requires i <= j < |outputs|
    ensures r <= |Frame(mk, outputs, i)|
  {
    FrameShrinks(mk, outputs, i, j);
    |Frame(mk, outputs, i)| - |Frame(mk, outputs, j)| + |mk(j)|
  }

  /** What item j must hold when the text breaks off after m characters. */
  function Expected(mk: nat -> string, outputs: seq<string>, i: nat, m: nat, j: nat): Option<string>
    requires i <= j < |outputs| && m <= |Frame(mk, outputs, i)|
  {
    if m < MarkerEnd(mk, outputs, i, j) then None
    else if j + 1 < |outputs| && MarkerEnd(mk, outputs, i, j + 1) <= m then Some(Trim(outputs[j]))
    else Some(Trim(Frame(mk, outputs, i)[MarkerEnd(mk, outputs, i, j)..m]))
  }

  lemma {:induction false} FrameShrinks(mk: nat -> string, outputs: seq<string>, i: nat, j: nat)
    requires i <= j <= |outputs|
    ensures |Frame(mk, outputs, j)| <= |Frame(mk, outputs, i)|
    decreases |outputs| - i
  {
    if i < j {
      FrameShrinks(mk, outputs, i + 1, j);
    }
  }

  lemma {:induction false} MarkersAreFamily()
    ensures MarkerFamily(Marker)
  {
    forall i: nat ensures OneLine(Marker(i)) && Marker(i) != "" {
      DigitsShape(i);
    }
    forall i: nat, k: nat | i <= k ensures |Marker(i)| <= |Marker(k)| {
      DigitsGrow(i, k);
    }
  }

  /** The number a text of digits stands for. */
  function Value(s: string): int {
    if s == "" then 0 else 10 * Value(s[..|s| - 1]) + (s[|s| - 1] as int - '0' as int)
  }

  lemma {:induction false} DigitsStandFor(n: nat)
    ensures Value(Digits(n)) == n && Digits(n) != ""
    ensures forall k :: 0 <= k < |Digits(n)| ==> '0' <= Digits(n)[k] <= '9'
  {
    if n >= 10 {
      DigitsStandFor(n / 10);
      DigitsStandFor(n % 10);
      assert Digits(n % 10) == [('0' as int + n % 10) as char];
      assert Digits(n)[..|Digits(n)| - 1] == Digits(n / 10);
    } else {
      assert Digits(n)[..0] == "";
    }
  }

  /** A marker occurs nowhere in another one, not even in a longer one. */
  lemma {:induction false} MarkersApart(i: nat, k: nat)
    requires i != k
    ensures Marker(i) != Marker(k) && Absent(Marker(k), Marker(i))
  {
    DigitsStandFor(i);
    DigitsStandFor(k);
    forall p: nat ensures !OccursAt(Marker(k), Marker(i), p) {
      if OccursAt(Marker(k), Marker(i), p) {
        OccurrenceIsWhole(i, k, p);
      }
    }
    assert OccursAt(Marker(k), Marker(k), 0);
  }

  lemma OccurrenceIsWhole(i: nat, k: nat, p: nat)
    requires OccursAt(Marker(k), Marker(i), p)
    ensures i == k
  {
    DigitsStandFor(i);
    DigitsStandFor(k);
    var hay, needle, a, b := Marker(k), Marker(i), Digits(i), Digits(k);
    hide Digits, Value, Marker;
    assert hay == "__BX_" + b + "__" && needle == "__BX_" + a + "__" by { MarkerIs(i); MarkerIs(k); }
    OccurrenceCovers(hay, needle, p, p + 2);
    assert hay[p + 2] == 'B';
    assert p == 0;
    SameDigits(a, b);
  }

  lemma MarkerIs(i: nat)
    ensures Marker(i) == "__BX_" + Digits(i) + "__"
  {
  }

  lemma SameDigits(a: string, b: string)
    requires OccursAt("__BX_" + b + "__", "__BX_" + a + "__", 0)
    requires forall k :: 0 <= k < |a| ==> '0' <= a[k] <= '9'
    requires forall k :: 0 <= k < |b| ==> '0' <= b[k] <= '9'
    ensures a == b
  {
    var hay, needle := "__BX_" + b + "__", "__BX_" + a + "__";
    assert |a| < |b| ==> hay[|a| + 5] == b[|a|];
    OccurrenceCovers(hay, needle, 0, |a| + 5);
    assert hay[|a| + 5] == '_' && |a| == |b|;
    forall k | 0 <= k < |a| ensures a[k] == b[k] {
      OccurrenceCovers(hay, needle, 0, k + 5);
      assert hay[k + 5] == b[k] && needle[k + 5] == a[k];
    }
  }

  /** Two markers may share their underscores, so distinct markers alone would not keep sections apart. */
  lemma {:induction false} MarkersMayOverlap()
    ensures OccursAt("__BX_0__BX_1__", Marker(0), 0) && OccursAt("__BX_0__BX_1__", Marker(1), 6)
  {
    assert Digits(0) == "0" && Digits(1) == "1";
  }

  lemma {:induction false} DigitsShape(n: nat)
    ensures OneLine(Digits(n))
  {
    if n >= 10 {
      DigitsShape(n / 10);
      DigitsShape(n % 10);
    }
  }

  lemma {:induction false} DigitsGrow(i: nat, k: nat)
    requires i <= k
    ensures |Digits(i)| <= |Digits(k)|
    decreases k
  {
    if i >= 10 {
      DigitsGrow(i / 10, k / 10);
    }
  }

  /** Text without any of the remaining markers gives nothing to the remaining items. */
  lemma {:induction false} SilentMisses(mk: nat -> string, text: string, i: nat, n: nat, j: nat)
    requires i <= j < n
    requires forall k: nat :: i <= k < n ==> Absent(text, mk(k))
    ensures Unbatch(mk, text, i, n)[j - i] == None
    decreases j - i
  {
    hide FindFrom, OccursAt, Section, TrimLeft;
    FindFirst(text, mk(i));
    if i < j {
      SilentMisses(mk, text, i + 1, n, j);
    }
  }

  lemma BlankHasNoMarker(mk: nat -> string, text: string, k: nat)
    requires MarkerFamily(mk)
    requires forall j :: 0 <= j < |text| ==> IsEol(text[j])
    ensures Absent(text, mk(k))
  {
    forall p: nat ensures !OccursAt(text, mk(k), p) {
      if OccursAt(text, mk(k), p) {
        OccurrenceCovers(text, mk(k), p, p);
      }
    }
  }

  lemma ShownIsLines(output: string)
    requires Terminated(output)
    ensures Terminated(Shown(output))
  {
  }

  lemma ShownTrimmed(output: string)
    ensures Trim(Shown(output)) == Trim(output)
  {
    TrimLeftNewline(output);
  }

  lemma ShownSilent(output: string, needle: string)
    requires OneLine(needle) && needle != ""
    requires Absent(output, needle)
    ensures Absent(Shown(output), needle)
  {
    forall p: nat ensures !OccursAt("\n", needle, p) {
      if OccursAt("\n", needle, p) {
        OccurrenceCovers("\n", needle, p, p);
      }
    }
    AbsentInLines("\n", output, needle);
  }

  /** The next marker is found exactly where the frame put it. */
  lemma FindNext(kept: string, rest: string, mk: string)
    requires OneLine(mk) && mk <= rest
    requires Terminated(kept) && Absent(kept, mk)
    ensures Find(kept + rest, mk) == Some(|kept|)
  {
    hide Find;
    FindPrefix(mk, rest);
    FindBeyondLine(kept, rest, mk);
  }

  lemma VisibleStart(mk: string, rest: string)
    requires mk != "" && OneLine(mk) && mk <= rest
    ensures !IsEol(rest[0])
  {
    assert rest[0] == mk[0];
  }

  lemma CompleteSection(mk: nat -> string, shown: string, rest: string, i: nat, n: nat)
    requires MarkerFamily(mk)
    requires i + 1 < n
    requires Terminated(shown) && Absent(shown, mk(i + 1)) && mk(i + 1) <= rest
    ensures Section(mk, TrimLeft(shown + rest), i, n) == (Trim(shown), rest)
  {
    hide TrimLeft, TrimRight, Find;
    var next := mk(i + 1);
    var kept := TrimLeft(shown);
    assert TrimLeft(shown + rest) == kept + rest by {
      VisibleStart(next, rest);
      TrimLeftBefore(shown, rest);
    }
    assert Find(kept + rest, next) == Some(|kept|) by {
      TrimLeftSilent(shown, next);
      TrimLeftLines(shown);
      FindNext(kept, rest, next);
    }
    assert (kept + rest)[..|kept|] == kept;
    assert (kept + rest)[|kept|..] == rest;
  }

  /** The section of the item the text breaks off in: no next marker, so all that is left, trimmed. */
  lemma BrokenSection(mk: nat -> string, body: string, i: nat, n: nat)
    requires i + 1 < n ==> Absent(body, mk(i + 1))
    ensures Section(mk, body, i, n).0 == TrimRight(body)
    ensures forall j :: 0 <= j < |Section(mk, body, i, n).1| ==> IsEol(Section(mk, body, i, n).1[j])
  {
    TrimRightKeeps(body);
    if i + 1 < n {
      FindFirst(body, mk(i + 1));
    }
  }

  /** Before its next marker is complete, no occurrence of that marker has come in. */
  lemma NotYetComplete(shown: string, next: string, mk: string, m: nat)
    requires OneLine(mk) && Terminated(shown) && Absent(shown, mk)
    requires m <= |shown| + |next| && m < |shown| + |mk|
    ensures Absent((shown + next)[..m], mk)
  {
    if m <= |shown| {
      assert (shown + next)[..m] == shown[0..m];
      AbsentInPart(shown, 0, m, mk);
    } else {
      TakeBeyond(shown, next, m);
      AbsentInLines(shown, next[..m - |shown|], mk);
    }
  }

  lemma TakeBeyond(a: string, b: string, m: nat)
    requires |a| <= m <= |a| + |b|
    ensures (a + b)[..m] == a + b[..m - |a|]
  {
  }

  lemma SliceOfTail(a: string, d: nat, p: nat, m: nat)
    requires d <= p <= m <= |a|
    ensures a[p..m] == a[d..][p - d..m - d]
  {
  }

  /** Moving the frame's start to the next command shifts every position by the same amount. */
  lemma ExpectedShift(mk: nat -> string, outputs: seq<string>, i: nat, m: nat, j: nat)
    requires i < j < |outputs|
    requires |Frame(mk, outputs, i)| - |Frame(mk, outputs, i + 1)| <= m <= |Frame(mk, outputs, i)|
    ensures Expected(mk, outputs, i, m, j)
         == Expected(mk, outputs, i + 1, m - (|Frame(mk, outputs, i)| - |Frame(mk, outputs, i + 1)|), j)
  {
    hide Frame, Trim;
    var d := |Frame(mk, outputs, i)| - |Frame(mk, outputs, i + 1)|;
    FrameSuffix(mk, outputs, i, i + 1);
    FrameShrinks(mk, outputs, i + 1, j);
    var p := MarkerEnd(mk, outputs, i, j);
    assert MarkerEnd(mk, outputs, i + 1, j) == p - d;
    if p <= m {
      SliceOfTail(Frame(mk, outputs, i), d, p, m);
    }
  }

  /** Cut anywhere, the text still gives every item exactly what had come in for it. */
  lemma {:induction false} UnbatchCut(mk: nat -> string, outputs: seq<string>, i: nat, m: nat, j: nat)
    requires MarkerFamily(mk)
    requires Framable(mk, outputs)
    requires i <= j < |outputs| && m <= |Frame(mk, outputs, i)|
    ensures Unbatch(mk, Frame(mk, outputs, i)[..m], i, |outputs|)[j - i] == Expected(mk, outputs, i, m, j)
    decreases |outputs| - i
  {
    hide Unbatch, Expected;
    if m < |mk(i)| {
      CutInFirstMarker(mk, outputs, i, m, j);
    } else if i + 1 < |outputs| && MarkerEnd(mk, outputs, i, i + 1) <= m {
      if i < j {
        var m' := m - (|Frame(mk, outputs, i)| - |Frame(mk, outputs, i + 1)|);
        UnbatchCut(mk, outputs, i + 1, m', j);
        CutBeyondItem(mk, outputs, i, m, j);
        ExpectedShift(mk, outputs, i, m, j);
      } else {
        CutBeyondItem(mk, outputs, i, m, i);
        ExpectedHere(mk, outputs, i, m);
      }
    } else {
      CutInsideItem(mk, outputs, i, m, j);
    }
  }

  lemma ExpectedHere(mk: nat -> string, outputs: seq<string>, i: nat, m: nat)
    requires i + 1 < |outputs| && MarkerEnd(mk, outputs, i, i + 1) <= m <= |Frame(mk, outputs, i)|
    ensures Expected(mk, outputs, i, m, i) == Some(Trim(outputs[i]))
  {
    FrameStart(mk, outputs, i + 1);
  }

  lemma LaterItem<T>(whole: seq<T>, rest: seq<T>, first: T, k: nat)
    requires whole == [first] + rest && 0 < k < |whole|
    ensures whole[k] == rest[k - 1]
  {
  }

  /** One turn of the loop on a text that starts with its marker. */
  lemma UnbatchStep(mk: nat -> string, tail: string, i: nat, n: nat)
    requires i < n
    ensures Unbatch(mk, mk(i) + tail, i, n)
         == [Some(Section(mk, TrimLeft(tail), i, n).0)] + Unbatch(mk, Section(mk, TrimLeft(tail), i, n).1, i + 1, n)
  {
    FindPrefix(mk(i), mk(i) + tail);
    assert (mk(i) + tail)[|mk(i)|..] == tail;
  }

  lemma CutInFirstMarker(mk: nat -> string, outputs: seq<string>, i: nat, m: nat, j: nat)
    requires MarkerFamily(mk)
    requires i <= j < |outputs| && m < |mk(i)| && m <= |Frame(mk, outputs, i)|
    ensures Unbatch(mk, Frame(mk, outputs, i)[..m], i, |outputs|)[j - i] == None == Expected(mk, outputs, i, m, j)
  {
    var text := Frame(mk, outputs, i)[..m];
    forall k: nat | i <= k < |outputs| ensures Absent(text, mk(k)) {
      AbsentIfShort(text, mk(k));
    }
    SilentMisses(mk, text, i, |outputs|, j);
    FrameShrinks(mk, outputs, i, j);
  }

  lemma {:induction false} CutBeyondItem(mk: nat -> string, outputs: seq<string>, i: nat, m: nat, j: nat)
    requires MarkerFamily(mk)
    requires Framable(mk, outputs)
    requires i + 1 < |outputs| && MarkerEnd(mk, outputs, i, i + 1) <= m <= |Frame(mk, outputs, i)|
    requires i <= j < |outputs|
    ensures Unbatch(mk, Frame(mk, outputs, i)[..m], i, |outputs|)[j - i]
         == if j == i then Some(Trim(outputs[i]))
            else Unbatch(mk, Frame(mk, outputs, i + 1)[..m - (|Frame(mk, outputs, i)| - |Frame(mk, outputs, i + 1)|)],
                         i + 1, |outputs|)[j - (i + 1)]
  {
    hide Unbatch, Section, Trim;
    var rest := Frame(mk, outputs, i + 1)[..m - (|Frame(mk, outputs, i)| - |Frame(mk, outputs, i + 1)|)];
    var shown := Shown(outputs[i]);
    assert Section(mk, TrimLeft(shown + rest), i, |outputs|) == (Trim(outputs[i]), rest) by {
      ShownIsLines(outputs[i]);
      ShownTrimmed(outputs[i]);
      ShownSilent(outputs[i], mk(i + 1));
      FrameStart(mk, outputs, i + 1);
      CompleteSection(mk, shown, rest, i, |outputs|);
    }
    assert Frame(mk, outputs, i)[..m] == mk(i) + (shown + rest) by {
      CutSplits(mk, outputs, i, m);
    }
    UnbatchStep(mk, shown + rest, i, |outputs|);
    if i < j {
      LaterItem(Unbatch(mk, mk(i) + (shown + rest), i, |outputs|), Unbatch(mk, rest, i + 1, |outputs|),
                Some(Trim(outputs[i])), j - i);
    }
  }

  lemma FrameStart(mk: nat -> string, outputs: seq<string>, i: nat)
    requires i < |outputs|
    ensures mk(i) <= Frame(mk, outputs, i)
  {
  }

  lemma CutSplits(mk: nat -> string, outputs: seq<string>, i: nat, m: nat)
    requires i < |outputs| && |mk(i)| <= m <= |Frame(mk, outputs, i)|
    ensures Frame(mk, outputs, i)[..m]
         == mk(i) + (Shown(outputs[i]) + Frame(mk, outputs, i + 1))[..m - |mk(i)|]
    ensures |mk(i)| + |Shown(outputs[i])| <= m ==>
              Frame(mk, outputs, i)[..m] == mk(i) + (Shown(outputs[i])
                + Frame(mk, outputs, i + 1)[..m - |mk(i)| - |Shown(outputs[i])|])
  {
    TakeBeyond(mk(i), Shown(outputs[i]) + Frame(mk, outputs, i + 1), m);
    if |mk(i)| + |Shown(outputs[i])| <= m {
      TakeBeyond(Shown(outputs[i]), Frame(mk, outputs, i + 1), m - |mk(i)|);
    }
  }

  lemma CutInsideItem(mk: nat -> string, outputs: seq<string>, i: nat, m: nat, j: nat)
    requires MarkerFamily(mk)
    requires Framable(mk, outputs)
    requires i <= j < |outputs| && |mk(i)| <= m <= |Frame(mk, outputs, i)|
    requires i + 1 < |outputs| ==> m < MarkerEnd(mk, outputs, i, i + 1)
    ensures Unbatch(mk, Frame(mk, outputs, i)[..m], i, |outputs|)[j - i] == Expected(mk, outputs, i, m, j)
  {
    hide Unbatch, Section;
    var n := |outputs|;
    var tail := (Shown(outputs[i]) + Frame(mk, outputs, i + 1))[..m - |mk(i)|];
    var body := TrimLeft(tail);
    assert Frame(mk, outputs, i)[..m] == mk(i) + tail by {
      CutSplits(mk, outputs, i, m);
    }
    UnbatchStep(mk, tail, i, n);
    if i + 1 < n {
      NextMissing(mk, outputs, i, m);
    }
    BrokenSection(mk, body, i, n);
    var rest := Section(mk, body, i, n).1;
    if i < j {
      BlankMisses(mk, rest, i + 1, n, j);
      LaterItem(Unbatch(mk, mk(i) + tail, i, n), Unbatch(mk, rest, i + 1, n),
                Some(Section(mk, body, i, n).0), j - i);
      LaterMarkerEnd(mk, outputs, i, j);
    } else {
      assert Frame(mk, outputs, i)[|mk(i)|..m] == tail;
    }
  }

  lemma BlankMisses(mk: nat -> string, text: string, i: nat, n: nat, j: nat)
    requires MarkerFamily(mk)
    requires i <= j < n && forall p :: 0 <= p < |text| ==> IsEol(text[p])
    ensures Unbatch(mk, text, i, n)[j - i] == None
  {
    forall k: nat ensures Absent(text, mk(k)) {
      BlankHasNoMarker(mk, text, k);
    }
    SilentMisses(mk, text, i, n, j);
  }

  lemma NextMissing(mk: nat -> string, outputs: seq<string>, i: nat, m: nat)
    requires MarkerFamily(mk)
    requires Framable(mk, outputs)
    requires i + 1 < |outputs| && |mk(i)| <= m <= |Frame(mk, outputs, i)| && m < MarkerEnd(mk, outputs, i, i + 1)
    ensures Absent(TrimLeft((Shown(outputs[i]) + Frame(mk, outputs, i + 1))[..m - |mk(i)|]), mk(i + 1))
  {
    hide TrimLeft, Shown, OccursAt;
    ShownIsLines(outputs[i]);
    ShownSilent(outputs[i], mk(i + 1));
    NotYetComplete(Shown(outputs[i]), Frame(mk, outputs, i + 1), mk(i + 1), m - |mk(i)|);
    TrimLeftSilent((Shown(outputs[i]) + Frame(mk, outputs, i + 1))[..m - |mk(i)|], mk(i + 1));
  }

  /** Marker ends come in command order. */
  lemma LaterMarkerEnd(mk: nat -> string, outputs: seq<string>, i: nat, j: nat)
    requires MarkerFamily(mk)
    requires i < j < |outputs|
    ensures MarkerEnd(mk, outputs, i, i + 1) <= MarkerEnd(mk, outputs, i, j)
  {
    FrameShrinks(mk, outputs, i + 1, j);
  }

  /** The whole text gives every output back, trimmed of the line ends around it. */
  lemma UnbatchAll(mk: nat -> string, outputs: seq<string>)
    requires MarkerFamily(mk)
    requires Framable(mk, outputs)
    ensures forall j :: 0 <= j < |outputs| ==>
              Unbatch(mk, Frame(mk, outputs, 0), 0, |outputs|)[j] == Some(Trim(outputs[j]))
  {
    var m := |Frame(mk, outputs, 0)|;
    assert Frame(mk, outputs, 0)[..m] == Frame(mk, outputs, 0);
    forall j | 0 <= j < |outputs| ensures Unbatch(mk, Frame(mk, outputs, 0), 0, |outputs|)[j] == Some(Trim(outputs[j])) {
      UnbatchCut(mk, outputs, 0, m, j);
      WholeItem(mk, outputs, j);
    }
  }

  /** With the markers the program uses. */
  lemma {:induction false} BatchReadsBack(outputs: seq<string>)
    requires Framable(Marker, outputs)
    ensures forall j :: 0 <= j < |outputs| ==>
              Unbatch(Marker, Frame(Marker, outputs, 0), 0, |outputs|)[j] == Some(Trim(outputs[j]))
  {
    hide Marker, Framable, Unbatch, Frame;
    MarkersAreFamily();
    UnbatchAll(Marker, outputs);
  }

  lemma WholeItem(mk: nat -> string, outputs: seq<string>, j: nat)
    requires j < |outputs|
    ensures Expected(mk, outputs, 0, |Frame(mk, outputs, 0)|, j) == Some(Trim(outputs[j]))
  {
    var m := |Frame(mk, outputs, 0)|;
    if j + 1 == |outputs| {
      FrameSuffix(mk, outputs, 0, j);
      var last := Shown(outputs[j]);
      assert Frame(mk, outputs, j) == mk(j) + last;
      SliceOfTail(Frame(mk, outputs, 0), m - |Frame(mk, outputs, j)|, MarkerEnd(mk, outputs, 0, j), m);
      assert Frame(mk, outputs, j)[|mk(j)|..|Frame(mk, outputs, j)|] == last;
      TrimLeftNewline(outputs[j]);
    }
  }

  lemma {:induction false} FrameSuffix(mk: nat -> string, outputs: seq<string>, i: nat, j: nat)
    requires i <= j <= |outputs|
    ensures |Frame(mk, outputs, j)| <= |Frame(mk, outputs, i)|
    ensures Frame(mk, outputs, i)[|Frame(mk, outputs, i)| - |Frame(mk, outputs, j)|..] == Frame(mk, outputs, j)
    decreases |outputs| - i
  {
    hide Frame;
    if i < j {
      FrameSuffix(mk, outputs, i + 1, j);
      FrameTail(mk, outputs, i);
      var whole := Frame(mk, outputs, i);
      DropOfTail(whole, |whole| - |Frame(mk, outputs, i + 1)|, |whole| - |Frame(mk, outputs, j)|);
    }
  }

  lemma FrameTail(mk: nat -> string, outputs: seq<string>, i: nat)
    requires i < |outputs|
    ensures |Frame(mk, outputs, i + 1)| <= |Frame(mk, outputs, i)|
    ensures Frame(mk, outputs, i)[|Frame(mk, outputs, i)| - |Frame(mk, outputs, i + 1)|..] == Frame(mk, outputs, i + 1)
  {
    var whole := (mk(i) + Shown(outputs[i])) + Frame(mk, outputs, i + 1);
    assert Frame(mk, outputs, i) == whole;
  }

  lemma DropOfTail(a: string, d: nat, p: nat)
    requires d <= p <= |a|
    ensures a[p..] == a[d..][p - d..]
  {
  }

  function Commands(items: seq<Item>): (r: seq<string>)
    ensures |r| == |items| && forall k :: 0 <= k < |items| ==> r[k] == items[k].cmd
  {
    seq(|items|, k requires 0 <= k < |items| => items[k].cmd)
  }

  lemma {:induction false} CombinedGrows(cmds: seq<string>, k: nat, n: nat)
    requires k <= n <= |cmds|
    ensures |Combined(cmds, k)| <= |Combined(cmds, n)|
  {
    if k < n {
      CombinedGrows(cmds, k, n - 1);
    }
  }

  /** A batch the code refuses before running anything. */
  predicate Refused(items: seq<Item>, count: int)
    requires count <= |items|
  {
    !(0 < count <= MAX_BATCH) || |Combined(Commands(items), count)| > CMD_BUDGET
  }

  /**
    The batch call. `shell` stands for the privileged round trip: None when it cannot be made.
    A refused batch leaves every result as it was; a failed round trip clears the batch's results.
   */
  method BexecBatch(shell: string -> Option<string>, items: array<Item>, count: int) returns (rc: int)
    requires count <= items.Length
    modifies items
    ensures rc == 0 || rc == -1
    ensures Commands(items[..]) == old(Commands(items[..]))
    ensures forall k :: 0 <= k < items.Length && count <= k ==> items[k] == old(items[k])
    ensures old(Refused(items[..], count)) ==> rc == -1 && items[..] == old(items[..])
    ensures !old(Refused(items[..], count)) ==>
              match shell(Combined(old(Commands(items[..])), count))
              case None => rc == -1 && forall k :: 0 <= k < count ==> items[k].result == None
              case Some(raw) =>
                rc == 0 && forall k :: 0 <= k < count ==> items[k].result == Unbatch(Marker, raw, 0, count)[k]
  {
    if count <= 0 || count > MAX_BATCH {
      return -1;
    }
    var line := Combine(items, count);
    if line.None? || |line.value| > CMD_BUDGET {
      return -1;
    }
    var answer := shell(line.value);
    if answer.None? {
      for i := 0 to count
        invariant forall k :: 0 <= k < i ==> items[k] == old(items[k]).(result := None)
        invariant forall k :: i <= k < items.Length ==> items[k] == old(items[k])
      {
        items[i] := items[i].(result := None);
      }
      return -1;
    }
    CutResults(items, count, answer.value);
    return 0;
  }

  /** The command line, or None when it overflows the local buffer. */
  method Combine(items: array<Item>, count: nat) returns (line: Option<string>)
    requires count <= items.Length
    ensures line.Some? ==> line.value == Combined(Commands(items[..]), count)
    ensures line.None? ==> |Combined(Commands(items[..]), count)| >= COMBINED_SIZE
  {
    var combined := "";
    for i := 0 to count
      invariant combined == Combined(Commands(items[..]), i)
    {
      var piece := Announced(i, items[i].cmd);
      if |combined| + |piece| >= COMBINED_SIZE {
        CombinedGrows(Commands(items[..]), i + 1, count);
        return None;
      }
      combined := combined + piece;
    }
    return Some(combined);
  }

  method CutResults(items: array<Item>, count: nat, raw: string)
    requires count <= items.Length
    modifies items
    ensures forall k :: 0 <= k < count ==>
              items[k] == old(items[k]).(result := Unbatch(Marker, raw, 0, count)[k])
    ensures forall k :: count <= k < items.Length ==> items[k] == old(items[k])
  {
    hide Unbatch, Section, Marker, Find, TrimLeft, TrimRight;
    var cursor := 0;
    ghost var cut: seq<Option<string>> := [];
    assert raw[cursor..] == raw;
    for i := 0 to count
      invariant cursor <= |raw| && |cut| == i
      invariant Unbatch(Marker, raw, 0, count) == cut + Unbatch(Marker, raw[cursor..], i, count)
      invariant forall k :: 0 <= k < i ==> items[k] == old(items[k]).(result := cut[k])
      invariant forall k :: i <= k < items.Length ==> items[k] == old(items[k])
    {
      var result;
      result, cursor := CutOne(raw, cursor, i, count);
      Shift(Unbatch(Marker, raw, 0, count), cut, result, Unbatch(Marker, raw[cursor..], i + 1, count));
      cut := cut + [result];
      items[i] := items[i].(result := result);
    }
  }

  lemma Shift(whole: seq<Option<string>>, cut: seq<Option<string>>, r: Option<string>, rest: seq<Option<string>>)
    requires whole == cut + ([r] + rest)
    ensures whole == (cut + [r]) + rest
  {
  }

  /** One turn of the cutting loop. */
  method CutOne(raw: string, cursor: nat, i: nat, n: nat) returns (result: Option<string>, next: nat)
    requires cursor <= |raw| && i < n
    ensures next <= |raw|
    ensures Unbatch(Marker, raw[cursor..], i, n) == [result] + Unbatch(Marker, raw[next..], i + 1, n)
  {
    hide Marker, FindFrom, Find, TrimLeft, TrimRight;
    var found := Find(raw[cursor..], Marker(i));
    if found.None? {
      return None, cursor;
    }
    var start := cursor + found.value + |Marker(i)|;
    assert raw[cursor..][found.value + |Marker(i)|..] == raw[start..];
    start := SkipLineEnds(raw, start);
    ghost var body := raw[start..];
    var end := if i + 1 < n then Find(raw[start..], Marker(i + 1)) else None;
    var length := if end.Some? then end.value else |raw| - start;
    assert body[..|raw| - start] == body;
    var kept := TrimmedLength(raw[start..], length);
    result := Some(raw[start..start + kept]);
    next := start + (if end.Some? then end.value else kept);
    assert raw[start..start + kept] == body[..kept];
    assert raw[next..] == body[next - start..];
  }
}
