/**
  From the line bexec_batch sends to the results it hands out: what a shell prints for that line is the frame of what
  the commands print on their own.
 */
module BatchLine {
  import opened Text
  import opened ShellWords
  import opened ShellLines
  import opened Batch

  /** The commands from i on, each after the echo of its marker. */
  function LineFrom(cmds: seq<string>, i: nat): string
    requires i < |cmds|
    decreases |cmds| - i
  {
    "echo " + Marker(i) + ";" + (" " + After(cmds, i))
  }

  function After(cmds: seq<string>, i: nat): string
    requires i < |cmds|
    decreases |cmds| - i, 0
  {
    if i + 1 == |cmds| then cmds[i] else cmds[i] + ";" + (" " + LineFrom(cmds, i + 1))
  }

  lemma {:induction false} CombinedFrom(cmds: seq<string>, n: nat, i: nat)
    requires i < n <= |cmds|
    ensures Combined(cmds, n) == Combined(cmds, i) + ((if i > 0 then "; " else "") + LineFrom(cmds[..n], i))
    decreases n - i
  {
    hide Marker, Announced;
    var part, sep, echo := cmds[..n], if i > 0 then "; " else "", "echo " + Marker(i) + ";";
    AnnouncedIs(i, cmds[i]);
    assert Combined(cmds, i + 1) == Combined(cmds, i) + (sep + (echo + (" " + cmds[i])));
    if i + 1 < n {
      CombinedFrom(cmds, n, i + 1);
      hide Combined, LineFrom;
      Regrouped(Combined(cmds, i), sep, echo, cmds[i], LineFrom(part, i + 1));
      LineIs(part, i);
    }
  }

  lemma LineIs(cmds: seq<string>, i: nat)
    requires i + 1 < |cmds|
    ensures LineFrom(cmds, i) == "echo " + Marker(i) + ";" + (" " + (cmds[i] + ";" + (" " + LineFrom(cmds, i + 1))))
  {
  }

  lemma Regrouped(front: string, sep: string, echo: string, cmd: string, rest: string)
    ensures front + (sep + (echo + (" " + cmd))) + ("; " + rest)
         == front + (sep + (echo + (" " + (cmd + ";" + (" " + rest)))))
  {
    assert "; " + rest == ";" + (" " + rest);
  }

  lemma AnnouncedIs(i: nat, cmd: string)
    ensures Announced(i, cmd) == (if i > 0 then "; " else "") + ("echo " + Marker(i) + ";" + (" " + cmd))
  {
    hide Marker;
    assert "; echo " == "; " + "echo ";
    assert "; " + cmd == ";" + (" " + cmd);
  }

  lemma MarkerIsWord(i: nat)
    ensures PlainWord(Marker(i)) && Marker(i)[0] != '-'
  {
    DigitsStandFor(i);
    hide Digits, Value;
  }

  ghost predicate AllWhole(cmds: seq<string>) {
    forall i :: 0 <= i < |cmds| ==> Whole(cmds[i])
  }

  /** The world before command i: all the commands before it have been run. */
  ghost function WorldAt<W>(sh: (W, string) -> (W, string), w: W, cmds: seq<string>, i: nat): W
    requires AllWhole(cmds) && i <= |cmds|
  {
    if i == 0 then w else RanAll(sh, WorldAt(sh, w, cmds, i - 1), Pieces(cmds[i - 1]).value).0
  }

  /** What the commands print when they are run one after the other, without any marker. */
  ghost function Outputs<W>(sh: (W, string) -> (W, string), w: W, cmds: seq<string>): (r: seq<string>)
    requires AllWhole(cmds)
    ensures |r| == |cmds|
  {
    seq(|cmds|, i requires 0 <= i < |cmds| => RanAll(sh, WorldAt(sh, w, cmds, i), Pieces(cmds[i]).value).1)
  }

  lemma FrameIs(outputs: seq<string>, i: nat)
    requires i < |outputs|
    ensures Frame(Marker, outputs, i) == Marker(i) + "\n" + (outputs[i] + Frame(Marker, outputs, i + 1))
    ensures Frame(Marker, outputs, |outputs|) == "" && outputs[i] + "" == outputs[i]
  {
  }

  lemma {:induction false} LinePrints<W>(sh: (W, string) -> (W, string), w: W, cmds: seq<string>, i: nat)
    requires AllWhole(cmds) && i < |cmds|
    ensures Prints(sh, WorldAt(sh, w, cmds, i), LineFrom(cmds, i)) == Some(Frame(Marker, Outputs(sh, w, cmds), i))
    decreases |cmds| - i
  {
    hide Marker, Pieces, RanAll, Whole;
    WholeReads(cmds[i]);
    var here := WorldAt(sh, w, cmds, i);
    MarkerIsWord(i);
    Announces(sh, here, Marker(i), " " + After(cmds, i));
    PiecesBlank(After(cmds, i));
    if i + 1 < |cmds| {
      LinePrints(sh, w, cmds, i + 1);
      PrintsJoin(sh, here, cmds[i], " " + LineFrom(cmds, i + 1));
      PiecesBlank(LineFrom(cmds, i + 1));
    }
    FrameIs(Outputs(sh, w, cmds), i);
  }

  /**
    Run by a shell, the line that is sent prints the frame of what its commands print on their own, so each result
    is its command's output; and if the text breaks off, what had come of it.
   */
  lemma {:induction false} BatchAnswers<W>(sh: (W, string) -> (W, string), w: W, cmds: seq<string>, n: nat, m: nat, j: nat)
    requires j < n <= |cmds| && AllWhole(cmds[..n]) && Framable(Marker, Outputs(sh, w, cmds[..n]))
    ensures Prints(sh, w, Combined(cmds, n)) == Some(Frame(Marker, Outputs(sh, w, cmds[..n]), 0))
    ensures var text := Prints(sh, w, Combined(cmds, n)).value;
      && Unbatch(Marker, text, 0, n)[j] == Some(Trim(Outputs(sh, w, cmds[..n])[j]))
      && (m <= |text| ==> Unbatch(Marker, text[..m], 0, n)[j] == Expected(Marker, Outputs(sh, w, cmds[..n]), 0, m, j))
  {
    hide Marker, Framable, Unbatch, Frame, Outputs, Expected, AllWhole, Prints, LineFrom;
    var part := cmds[..n];
    CombinedFrom(cmds, n, 0);
    assert Combined(cmds, 0) == "" && Combined(cmds, n) == LineFrom(part, 0);
    LinePrints(sh, w, part, 0);
    BatchReadsBack(Outputs(sh, w, part));
    MarkersAreFamily();
    if m <= |Frame(Marker, Outputs(sh, w, part), 0)| {
      UnbatchCut(Marker, Outputs(sh, w, part), 0, m, j);
    }
  }

  lemma NothingBetween(s: string)
    ensures Pieces(";" + s) == None
  {
    assert CommandEnd(";" + s, Bare) == Some(0);
  }

  /** A command that already ends in a semicolon makes the shell refuse the line of a whole batch. */
  lemma {:induction false} SemicolonSpoilsBatch(a: string, b: string)
    requires Whole(a)
    ensures Pieces(Combined([a + ";", b], 2)) == None
  {
    hide Marker, Pieces, Whole, Combined;
    var cmds := [a + ";", b];
    CombinedFrom(cmds, 2, 0);
    assert cmds[..2] == cmds && Combined(cmds, 0) == "" by { NoCommands(cmds); }
    assert "" + ("" + LineFrom(cmds, 0)) == LineFrom(cmds, 0);
    assert Combined(cmds, 2) == LineFrom(cmds, 0);
    MarkerIsWord(0);
    EchoIsWhole(Marker(0));
    LineIs(cmds, 0);
    hide LineFrom;
    PiecesJoin("echo " + Marker(0), " " + (a + ";" + ";" + (" " + LineFrom(cmds, 1))));
    PiecesBlank(a + ";" + ";" + (" " + LineFrom(cmds, 1)));
    var rest := ";" + (" " + LineFrom(cmds, 1));
    assert a + ";" + ";" + (" " + LineFrom(cmds, 1)) == a + ";" + rest;
    PiecesJoin(a, rest);
    NothingBetween(" " + LineFrom(cmds, 1));
  }

  lemma NoCommands(cmds: seq<string>)
    ensures Combined(cmds, 0) == ""
  {
  }
}
