/** What the shells behind enforce.c make of its lines, command by command and over whole runs. */
module Effects {
  import opened Text
  import opened Labels
  import opened Pending
  import opened Court
  import opened CourtSound
  import opened CourtAnswers
  import opened CourtTheorems
  import opened TierRules
  import opened Scoring
  import opened ShellWords
  import opened CommandLines
  import opened Enforcement

  const KILL: seq<string> := ["am", "kill"]
  const STOP: seq<string> := ["am", "force-stop"]
  const DISABLE: seq<string> := ["pm", "disable-user", "--user", "0"]

  /** The words before the source, for each command of a verdict. */
  function Verbs(t: Tiers, source: string, verdict: Label): seq<seq<string>> {
    match verdict
    case Warned => [KILL]
    case Quarantined => [STOP]
    case HouseArrest => [STOP]
    case Jailed => if Protected(t, source) then [STOP] else [STOP, DISABLE]
    case _ => []
  }

  predicate IsVerb(verb: seq<string>) {
    verb == KILL || verb == STOP || verb == DISABLE
  }

  /** The words that hand a command to the backend's shell. */
  function Caller(backend: Backend): seq<string> {
    match backend
    case Rish => [RISH_PATH, "-c"]
    case Adb => ["adb", "shell"]
    case Direct => []
  }

  /** The one command that is finally run for what run_cmd is given; None if it is not just one. */
  function Ran(backend: Backend, cmd: string): Option<seq<string>> {
    if backend == Direct then Spoken(Wrapped(backend, cmd)) else Through(Caller(backend), Wrapped(backend, cmd))
  }

  /** One of the intended commands, with the source as its last word. */
  ghost predicate Intended(words: Option<seq<string>>, source: string) {
    exists verb: seq<string> :: IsVerb(verb) && words == Some(verb + [source])
  }

  predicate Disables(words: Option<seq<string>>) {
    words.Some? && words.value != [] && words.value[0] == "pm"
  }

  // ---- one command ---------------------------------------------------------------------------

  lemma VerbsArePlain(verb: seq<string>)
    requires IsVerb(verb)
    ensures AllPlain(verb)
  {
    hide PlainWord;
    AmIsPlain();
    PmIsPlain();
    OptionsArePlain();
  }

  lemma AmIsPlain()
    ensures PlainWord("am") && PlainWord("kill") && PlainWord("force-stop")
  {
  }

  lemma PmIsPlain()
    ensures PlainWord("pm") && PlainWord("disable-user")
  {
  }

  lemma OptionsArePlain()
    ensures PlainWord("--user") && PlainWord("0")
  {
  }

  lemma CallersArePlain(backend: Backend)
    ensures AllPlain(Caller(backend))
  {
    assert PlainWord(RISH_PATH) by { RishIsPlain(); }
  }

  lemma {:induction false} RishIsPlain()
    ensures PlainWord(RISH_PATH)
  {
    hide PlainWord;
    FirstPart();
    SecondPart();
    ThirdPart();
    PlainTogether("/data/data/com.ter", "mux/files/home/Miu");
    PlainTogether("/data/data/com.ter" + "mux/files/home/Miu", "iserPeruser/rish");
    assert RISH_PATH == "/data/data/com.ter" + "mux/files/home/Miu" + "iserPeruser/rish";
  }

  lemma PlainTogether(a: string, b: string)
    requires PlainWord(a) && PlainWord(b)
    ensures PlainWord(a + b)
  {
  }

  lemma FirstPart()
    ensures PlainWord("/data/data/com.ter")
  {
  }

  lemma SecondPart()
    ensures PlainWord("mux/files/home/Miu")
  {
  }

  lemma ThirdPart()
    ensures PlainWord("iserPeruser/rish")
  {
  }

  lemma OneSaid(a: string)
    ensures Said([a]) == a + " "
  {
    assert [a][1..] == [];
    assert a + " " + "" == a + " ";
  }

  lemma TwoSaid(a: string, b: string)
    ensures Said([a, b]) == a + (" " + b + " ")
  {
    assert [a, b][1..] == [b];
    OneSaid(b);
  }

  lemma ThreeSaid(a: string, b: string, c: string)
    ensures Said([a, b, c]) == a + " " + b + " " + c + " "
  {
    assert [a, b, c][1..] == [b, c];
    TwoSaid(b, c);
  }

  lemma FourSaid(a: string, b: string, c: string, d: string)
    ensures Said([a, b, c, d]) == a + " " + b + " " + c + " " + d + " "
  {
    assert [a, b, c, d][1..] == [b, c, d];
    ThreeSaid(b, c, d);
  }

  lemma {:induction false} VerbsSaid()
    ensures Said(KILL) == "am kill " && Said(STOP) == "am force-stop " && Said(DISABLE) == "pm disable-user --user 0 "
  {
    hide Said;
    TwoSaid("am", "kill");
    TwoSaid("am", "force-stop");
    FourSaid("pm", "disable-user", "--user", "0");
  }

  lemma CommandSays(t: Tiers, source: string, verdict: Label, k: nat)
    requires |source| < SOURCE_BUF && k < |Commands(t, source, verdict)|
    ensures |Verbs(t, source, verdict)| == |Commands(t, source, verdict)|
    ensures IsVerb(Verbs(t, source, verdict)[k])
    ensures Commands(t, source, verdict)[k] == Said(Verbs(t, source, verdict)[k]) + source
  {
    VerbsSaid();
    hide Said;
  }

  lemma LineIs(backend: Backend, cmd: string)
    requires |cmd| < CMD_BUF
    ensures Wrapped(backend, cmd) == if backend == Direct then cmd + SILENCER else Handed(Caller(backend), cmd)
  {
    LineFits(backend, cmd);
    hide Wrapped, Said;
    match backend
    case Rish => HandedByTwo(RISH_PATH, "-c", cmd);
    case Adb =>
      HandedByTwo("adb", "shell", cmd);
      AdbLine(cmd);
    case Direct =>
  }

  lemma AdbLine(cmd: string)
    ensures "adb shell '" + cmd + "' 2>/dev/null" == "adb" + " " + "shell" + " '" + cmd + "' 2>/dev/null"
  {
    assert "adb shell '" == "adb" + " " + "shell" + " '";
  }

  lemma HandedByTwo(a: string, b: string, cmd: string)
    ensures Handed([a, b], cmd) == a + " " + b + " '" + cmd + "' 2>/dev/null"
  {
    TwoSaid(a, b);
    hide Said;
    assert a + (" " + b + " ") + ("'" + (cmd + ("'" + SILENCER))) == a + " " + b + " '" + cmd + ("'" + SILENCER);
  }

  /** What a command of a verdict comes to is as intended exactly when the source is a plain word. */
  lemma {:induction false} RunsAsMeant(t: Tiers, backend: Backend, source: string, verdict: Label, k: nat)
    requires |source| < SOURCE_BUF && k < |Commands(t, source, verdict)| == |Verbs(t, source, verdict)|
    ensures var words := Ran(backend, Commands(t, source, verdict)[k]);
      && (Intended(words, source) <==> PlainWord(source))
      && (PlainWord(source) ==> words == Some(Verbs(t, source, verdict)[k] + [source]))
  {
    hide Commands, Verbs, Said, PlainWord, IsVerb, Wrapped, Spoken, Through;
    CommandSays(t, source, verdict, k);
    var cmd, verb := Commands(t, source, verdict)[k], Verbs(t, source, verdict)[k];
    CommandIsShort(t, source, verdict, k);
    LineIs(backend, cmd);
    VerbsArePlain(verb);
    CallersArePlain(backend);
    forall read: seq<string> | IsVerb(read)
      ensures PlainWord(source) ==> Ran(backend, cmd) == Some(verb + [source])
      ensures Ran(backend, cmd) == Some(read + [source]) ==> PlainWord(source)
    {
      VerbsArePlain(read);
      SpokenExactly(verb, read, source);
      HandedExactly(Caller(backend), verb, read, source);
    }
    assert IsVerb(KILL) by { KillIsVerb(); }
  }

  lemma KillIsVerb()
    ensures IsVerb(KILL)
  {
  }

  lemma CommandIsShort(t: Tiers, source: string, verdict: Label, k: nat)
    requires k < |Commands(t, source, verdict)|
    ensures |Commands(t, source, verdict)[k]| < CMD_BUF
  {
  }

  /** For a plain source, the shell disables the package exactly for JAILED and a source in no protected tier. */
  lemma {:induction false} DisablesExactly(t: Tiers, backend: Backend, source: string, verdict: Label)
    requires |source| < SOURCE_BUF && PlainWord(source)
    ensures (exists k :: 0 <= k < |Commands(t, source, verdict)| && Disables(Ran(backend, Commands(t, source, verdict)[k])))
            <==> verdict == Jailed && !Protected(t, source)
  {
    hide PlainWord, Ran, Kill, ForceStop, Disable;
    var cmds := Commands(t, source, verdict);
    forall k | 0 <= k < |cmds| ensures Disables(Ran(backend, cmds[k])) <==> k == 1 {
      CommandSays(t, source, verdict, k);
      RunsAsMeant(t, backend, source, verdict, k);
    }
    if verdict == Jailed && !Protected(t, source) {
      assert Disables(Ran(backend, cmds[1]));
    }
  }

  // ---- sources that are read as something else ------------------------------------------------

  predicate EndsPlain(names: seq<string>) {
    forall i :: 0 <= i < |names| ==> names[i] != "" && names[i][|names[i]| - 1] != ' '
  }

  lemma NamesEndPlain()
    ensures EndsPlain(OWN_DAEMONS)
  {
    FleetEndsPlain();
    LegacyEndsPlain();
    JudicialEndsPlain();
  }

  lemma FleetEndsPlain()
    ensures EndsPlain(FLEET_DAEMONS)
  {
  }

  lemma LegacyEndsPlain()
    ensures EndsPlain(LEGACY_DAEMONS)
  {
  }

  lemma JudicialEndsPlain()
    ensures EndsPlain(JUDICIAL_DAEMONS)
  {
  }

  /** A trailing blank: the tier test does not know the name, the shell reads the daemon's. */
  lemma {:induction false} BlankNamesADaemon()
    ensures OwnDaemon("gaveld") && !OwnDaemon("gaveld ")
    ensures Ran(Direct, Kill("gaveld ")) == Some(KILL + ["gaveld"])
  {
    BasenameIs("", "gaveld");
    BasenameIs("", "gaveld ");
    assert "" + "gaveld" == "gaveld" && "" + "gaveld " == "gaveld ";
    assert JUDICIAL_DAEMONS[7] == "gaveld";
    assert OWN_DAEMONS[|FLEET_DAEMONS| + |LEGACY_DAEMONS| + 7] == "gaveld";
    NamesEndPlain();
    assert "gaveld "[6] == ' ';
    BlankRead();
  }

  lemma BlankSaid()
    ensures Kill("gaveld ") == Said(["am", "kill", "gaveld"])
  {
    hide Said;
    ThreeSaid("am", "kill", "gaveld");
  }

  lemma BlankWords()
    ensures AllPlain(["am", "kill", "gaveld"])
  {
    AmIsPlain();
    assert PlainWord("gaveld");
  }

  lemma {:induction false} BlankRead()
    ensures Ran(Direct, Kill("gaveld ")) == Some(KILL + ["gaveld"])
  {
    hide Read, Wrapped;
    VerbsSaid();
    LineIs(Direct, Kill("gaveld "));
    var words := KILL + ["gaveld"];
    assert words == ["am", "kill", "gaveld"];
    assert Kill("gaveld ") == Said(words) by { BlankSaid(); }
    assert AllPlain(words) by { BlankWords(); }
    hide AllPlain, Said;
    SaidRead(words, SILENCER);
    SilencerRead(None, true);
    assert words + [] == words;
  }

  /** A semicolon: the command about the source is two commands, each read by itself. */
  lemma {:induction false} SemicolonMakesTwo(backend: Backend, first: string, verb: seq<string>, second: string)
    requires PlainWord(first) && AllPlain(verb) && PlainWord(second)
    requires |first + ";" + (Said(verb) + second)| < SOURCE_BUF
    ensures var source := first + ";" + (Said(verb) + second);
      && Kill(source) == Said(KILL) + first + ";" + (Said(verb) + second)
      && Line(Said(KILL) + first) == Some(Command(KILL + [first], []))
      && Line(Said(verb) + second) == Some(Command(verb + [second], []))
      && !Intended(Ran(backend, Kill(source)), source)
  {
    hide Said, PlainWord, Ran, Intended, Line;
    var rest := Said(verb) + second;
    VerbsSaid();
    VerbsArePlain(KILL);
    SpokenRead(KILL, first);
    SpokenRead(verb, second);
    assert "am kill " + (first + ";" + rest) == "am kill " + first + ";" + rest;
    SemicolonNotIntended(backend, first, rest);
  }

  lemma SemicolonNotIntended(backend: Backend, first: string, rest: string)
    requires |first + ";" + rest| < SOURCE_BUF
    ensures !Intended(Ran(backend, Kill(first + ";" + rest)), first + ";" + rest)
  {
    hide Ran, Intended, Kill;
    var source, t := first + ";" + rest, TiersOf(None);
    assert Special(source[|first|]);
    assert Commands(t, source, Warned)[0] == Kill(source);
    CommandSays(t, source, Warned, 0);
    RunsAsMeant(t, backend, source, Warned, 0);
  }

  /** The score one unknown signal of weight 45 gives a new source is WARNED, which is enforced without asking. */
  lemma WarnedAtOnce(sig: string, now: int)
    requires sig != "INTEGRITY_VIOLATION"
    ensures Scored(NEW_THREAT, Addition(45.0, [sig], NEW_THREAT, MOD_UNKNOWN), now).state == Warned
  {
    hide Product;
    FiveFactors(45.0, 1.0, 1.0, 1.0, 1.0);
    assert Covariance([sig]) == 1.0;
  }

  const SECOND := "pm disable-user --user 0 " + "com.bank"
  const TWO_IN_ONE := "x" + ";" + SECOND

  /** So a source in no tier, WARNED by one signal of weight 45 and never asked about, can disable another's package. */
  lemma {:induction false} OneSourceTwoCommands(backend: Backend)
    ensures !Protected(TiersOf(None), TWO_IN_ONE) && Commands(TiersOf(None), TWO_IN_ONE, Warned) == [Kill(TWO_IN_ONE)]
    ensures Scored(NEW_THREAT, Addition(45.0, ["ODD_SIGNAL"], NEW_THREAT, TierModifier(TiersOf(None), TWO_IN_ONE)), 0).state == Warned
    ensures Kill(TWO_IN_ONE) == "am kill " + "x" + ";" + SECOND
    ensures Line("am kill " + "x") == Some(Command(KILL + ["x"], []))
    ensures Line(SECOND) == Some(Command(DISABLE + ["com.bank"], []))
    ensures !Intended(Ran(backend, Kill(TWO_IN_ONE)), TWO_IN_ONE)
  {
    hide Said, Ran, Intended, PlainWord, Kill, Protected, Line, TierModifier, Addition, Scored;
    VerbsSaid();
    VerbsArePlain(DISABLE);
    PlainNames();
    SemicolonMakesTwo(backend, "x", DISABLE, "com.bank");
    TwoInOneUnprotected();
    DampedIffProtected(None, TWO_IN_ONE);
    WarnedAtOnce("ODD_SIGNAL", 0);
  }

  lemma PlainNames()
    ensures PlainWord("x") && PlainWord("com.bank")
  {
  }

  lemma TwoInOneUnprotected()
    ensures !Protected(TiersOf(None), TWO_IN_ONE)
  {
    hide OwnDaemon, SystemPackage;
    TwoInOneUnknown();
    TwoInOneNoPackage();
  }

  lemma TwoInOneUnknown()
    ensures !OwnDaemon(TWO_IN_ONE)
  {
    assert '/' !in SECOND;
    NoSemicolons();
    hide Basename;
    BasenameIs("", TWO_IN_ONE);
    assert "" + TWO_IN_ONE == TWO_IN_ONE && TWO_IN_ONE[1] == ';';
  }

  lemma TwoInOneNoPackage()
    ensures !SystemPackage(TWO_IN_ONE)
  {
    assert TWO_IN_ONE[0] == 'x';
    assert forall k :: 0 <= k < |SYSTEM_PREFIXES| ==> SYSTEM_PREFIXES[k] != "" && SYSTEM_PREFIXES[k][0] != 'x';
  }

  lemma NoSemicolons()
    ensures forall i :: 0 <= i < |OWN_DAEMONS| ==> |OWN_DAEMONS[i]| > 1 && OWN_DAEMONS[i][1] != ';'
  {
    assert forall i :: 0 <= i < |FLEET_DAEMONS| ==> |FLEET_DAEMONS[i]| > 1 && FLEET_DAEMONS[i][1] != ';';
    assert forall i :: 0 <= i < |LEGACY_DAEMONS| ==> |LEGACY_DAEMONS[i]| > 1 && LEGACY_DAEMONS[i][1] != ';';
    assert forall i :: 0 <= i < |JUDICIAL_DAEMONS| ==> |JUDICIAL_DAEMONS[i]| > 1 && JUDICIAL_DAEMONS[i][1] != ';';
  }

  /** Everything a run has handed to the command runner. */
  function Issued(t: Tiers, done: seq<Court.Enforcement>): seq<(string, string)> {
    if done == [] then []
    else
      var e := done[|done| - 1];
      Issued(t, done[..|done| - 1]) + Tagged(e.source, Commands(t, e.source, e.verdict))
  }

  /** Commands with the source they are about. */
  function Tagged(source: string, cmds: seq<string>): seq<(string, string)> {
    seq(|cmds|, k requires 0 <= k < |cmds| => (source, cmds[k]))
  }

  /** The lines the daemon issues are these commands and no others, each wrapped for its backend. */
  lemma {:induction false} LinesAreIssued(t: Tiers, backend: Backend, done: seq<Court.Enforcement>, k: nat)
    ensures |AllLines(t, backend, done)| == |Issued(t, done)|
    ensures k < |Issued(t, done)| ==> AllLines(t, backend, done)[k] == Wrapped(backend, Issued(t, done)[k].1)
    decreases |done|
  {
    hide Commands, Wrapped;
    if done != [] {
      LinesAreIssued(t, backend, done[..|done| - 1], k);
    }
  }

  lemma {:induction false} IssuedComesFrom(t: Tiers, done: seq<Court.Enforcement>, k: nat) returns (j: nat)
    requires k < |Issued(t, done)|
    ensures j < |done| && Issued(t, done)[k].0 == done[j].source
    ensures Issued(t, done)[k].1 in Commands(t, done[j].source, done[j].verdict)
    decreases |done|
  {
    var front := done[..|done| - 1];
    if k < |Issued(t, front)| {
      j := IssuedComesFrom(t, front, k);
    } else {
      j := |done| - 1;
    }
  }

  /** A JAILED verdict the user approved, with an approved containment before it. */
  ghost predicate JailedRow(s: State, source: string) {
    exists j :: 0 <= j < |s.verdicts| && JailedAt(s, j, source)
  }

  ghost predicate JailedAt(s: State, j: nat, source: string)
    requires j < |s.verdicts|
  {
    var v := s.verdicts[j];
    && v.verdict == Jailed && v.source == source && v.required && v.granted && v.id in s.log.approved
    && Earned(s, s.verdicts[..j], v.id, source)
  }

  /** The text of a command that disables a package. */
  predicate IsDisable(cmd: string) {
    "pm" <= cmd
  }

  lemma DisableText(t: Tiers, source: string, verdict: Label, cmd: string)
    requires cmd in Commands(t, source, verdict) && IsDisable(cmd)
    ensures verdict == Jailed && !Protected(t, source)
  {
    assert Kill(source)[0] == 'a' && ForceStop(source)[0] == 'a';
  }

  /**
    Over every run, whatever its schedule, no command is issued about an own daemon. What a command comes
    to is one of the intended ones about its source exactly when the source is a plain word; then a package
    is disabled only for a source in no protected tier, with a JAILED verdict the user approved, after an
    earlier approved containment. In a legal run these approvals are the latest replies to their cases.
   */
  lemma {:induction false} OnlyApprovedJailsDisable(t: Tiers, backend: Backend, now: int, steps: seq<Step>, k: nat)
    requires CanRun(t, now, steps)
    requires k < |Issued(t, Run(t, now, steps).log.enforced)|
    ensures var s := Run(t, now, steps);
      var (source, cmd) := Issued(t, s.log.enforced)[k];
      && !t.own(source)
      && (|source| < SOURCE_BUF ==> (Intended(Ran(backend, cmd), source) <==> PlainWord(source)))
      && (|source| < SOURCE_BUF && PlainWord(source) && Disables(Ran(backend, cmd)) ==>
            !Protected(t, source) && JailedRow(s, source))
      && (IsDisable(cmd) ==> !Protected(t, source) && JailedRow(s, source))
      && (LegalRun(t, now, steps) ==> VerdictsAnswered(s.verdicts, s.log.replies))
  {
    hide Run, CanRun, LegalRun, VerdictsAnswered, Commands, Verbs, JailedRow, Issued, Ran, Intended, PlainWord, Disables, IsDisable, Protected;
    var s := Run(t, now, steps);
    var i := IssuedComesFrom(t, s.log.enforced, k);
    var e := s.log.enforced[i];
    TiersAreImmune(t, now, steps);
    JailedIsEarned(t, now, steps);
    var cmd := Issued(t, s.log.enforced)[k].1;
    var cmds := Commands(t, e.source, e.verdict);
    var c :| 0 <= c < |cmds| && cmds[c] == cmd;
    if |e.source| < SOURCE_BUF {
      CommandSays(t, e.source, e.verdict, c);
      RunsAsMeant(t, backend, e.source, e.verdict, c);
      if PlainWord(e.source) && Disables(Ran(backend, cmd)) {
        assert Disables(Ran(backend, cmds[c]));
        DisablesExactly(t, backend, e.source, e.verdict);
        ApprovedJail(t, now, steps, i);
      }
    }
    if IsDisable(cmd) {
      DisableText(t, e.source, e.verdict, cmd);
      ApprovedJail(t, now, steps, i);
    }
  }

  lemma ApprovedJail(t: Tiers, now: int, steps: seq<Step>, i: nat)
    requires CanRun(t, now, steps) && i < |Run(t, now, steps).log.enforced|
    requires Run(t, now, steps).log.enforced[i].verdict == Jailed
    ensures JailedRow(Run(t, now, steps), Run(t, now, steps).log.enforced[i].source)
  {
    hide Run, CanRun, LegalRun, Earned, SeenFresh;
    var s := Run(t, now, steps);
    var e := s.log.enforced[i];
    NothingEnforcedUnapproved(t, now, steps);
    JailedIsEarned(t, now, steps);
    assert Approved(s, e);
    var j :| 0 <= j < |s.verdicts| && Allows(s.verdicts[j], e);
    assert JailedAt(s, j, e.source);
  }
}
