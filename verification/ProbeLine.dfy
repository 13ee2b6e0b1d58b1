/**
  From the lines shredderd sends to the sections it reads: what a shell prints for a chunk is the report of what its
  probes print on their own.
 */
module ProbeLine {
  import opened Text
  import opened ShellWords
  import opened ShellLines
  import opened Probe

  /** One probe of a chunk: the tag it is announced with and its command. */
  datatype Asked = Asked(tag: string, cmd: string)

  /** The command line of a chunk, from probe i on. */
  function ChunkLine(chunk: seq<Asked>, i: nat): string
    requires i <= |chunk|
    decreases |chunk| - i
  {
    if i == |chunk| then ""
    else "echo " + Heading(chunk[i].tag) + ";" + (" " + (chunk[i].cmd + ";" + ChunkLine(chunk, i + 1)))
  }

  /** Tags that the shell and the section reader both take for one word, and whole commands. */
  ghost predicate Askable(chunk: seq<Asked>) {
    forall i :: 0 <= i < |chunk| ==> (forall k :: 0 <= k < |chunk[i].tag| ==> !Special(chunk[i].tag[k])) && Whole(chunk[i].cmd)
  }

  ghost function WorldAt<W>(sh: (W, string) -> (W, string), w: W, chunk: seq<Asked>, i: nat): W
    requires Askable(chunk) && i <= |chunk|
  {
    if i == 0 then w else RanAll(sh, WorldAt(sh, w, chunk, i - 1), Pieces(chunk[i - 1].cmd).value).0
  }

  /** What the probes print when their commands are run one after the other, without any echo. */
  ghost function Probes<W>(sh: (W, string) -> (W, string), w: W, chunk: seq<Asked>): (r: seq<Probed>)
    requires Askable(chunk)
    ensures |r| == |chunk|
  {
    seq(|chunk|, i requires 0 <= i < |chunk| =>
      Probed(chunk[i].tag, RanAll(sh, WorldAt(sh, w, chunk, i), Pieces(chunk[i].cmd).value).1))
  }

  lemma HeadingIsWord(tag: string)
    requires forall k :: 0 <= k < |tag| ==> !Special(tag[k])
    ensures PlainWord(Heading(tag)) && Heading(tag)[0] != '-'
  {
    assert !Special('=');
    hide Special;
  }

  lemma ReportIs(probes: seq<Probed>, i: nat)
    requires i < |probes|
    ensures Report(probes, i) == Heading(probes[i].tag) + "\n" + (probes[i].output + Report(probes, i + 1))
  {
  }

  lemma NoneAsked<W>(sh: (W, string) -> (W, string), w: W)
    ensures Prints(sh, w, "") == Some("")
  {
  }

  /** Run by a shell, a chunk prints the report of its probes. */
  lemma {:induction false} ChunkPrints<W>(sh: (W, string) -> (W, string), w: W, chunk: seq<Asked>, i: nat)
    requires Askable(chunk) && i <= |chunk|
    ensures Prints(sh, WorldAt(sh, w, chunk, i), ChunkLine(chunk, i)) == Some(Report(Probes(sh, w, chunk), i))
    decreases |chunk| - i
  {
    hide Heading, Pieces, RanAll, Whole, Printed, Special;
    var here := WorldAt(sh, w, chunk, i);
    if i == |chunk| {
      NoneAsked(sh, here);
    } else {
      var cmd := chunk[i].cmd;
      WholeReads(cmd);
      HeadingIsWord(chunk[i].tag);
      Announces(sh, here, Heading(chunk[i].tag), " " + (cmd + ";" + ChunkLine(chunk, i + 1)));
      PiecesBlank(cmd + ";" + ChunkLine(chunk, i + 1));
      PrintsJoin(sh, here, cmd, ChunkLine(chunk, i + 1));
      ChunkPrints(sh, w, chunk, i + 1);
      ReportIs(Probes(sh, w, chunk), i);
    }
  }

  ghost predicate AllAskable(chunks: seq<seq<Asked>>) {
    forall c :: 0 <= c < |chunks| ==> Askable(chunks[c])
  }

  /** What each chunk's probes print, in the world its line is run in. */
  ghost function AllProbes<W>(sh: (W, string) -> (W, string), ws: seq<W>, chunks: seq<seq<Asked>>): (r: seq<seq<Probed>>)
    requires |ws| == |chunks| && AllAskable(chunks)
    ensures |r| == |chunks|
  {
    seq(|chunks|, c requires 0 <= c < |chunks| => Probes(sh, ws[c], chunks[c]))
  }

  /** The chunks' answers, collected in the buffer, give every probe its command's output back. */
  lemma {:induction false} ProbesComeBack<W>(sh: (W, string) -> (W, string), ws: seq<W>, chunks: seq<seq<Asked>>,
                                             texts: seq<string>, j: nat)
    requires |texts| == |ws| == |chunks| && AllAskable(chunks)
    requires forall c :: 0 <= c < |chunks| ==> Prints(sh, ws[c], ChunkLine(chunks[c], 0)) == Some(texts[c])
    requires var probes := All(AllProbes(sh, ws, chunks)); Readable(probes) && |Report(probes, 0)| < BUF_SIZE && j < |probes|
    ensures var p := All(AllProbes(sh, ws, chunks))[j];
            SectionOf(Poured(texts), p.tag) == Some(TrimRight(Take(TrimLeft(p.output), SCRATCH_SIZE - 1)))
  {
    hide Prints, Report, Readable, SectionOf, Poured, All, Probes, ChunkLine;
    var answered := AllProbes(sh, ws, chunks);
    forall c | 0 <= c < |chunks| ensures Texts(answered)[c] == texts[c] {
      ChunkPrints(sh, ws[c], chunks[c], 0);
    }
    assert Texts(answered) == texts;
    ChunksReadBack(answered, j);
  }
}
