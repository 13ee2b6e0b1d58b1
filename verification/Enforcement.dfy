/** enforce.c: the shell commands a verdict leads to, and the lines they are wrapped in. */
module Enforcement {
  import opened Text
  import opened Labels
  import opened Pending
  import opened Court
  import opened CourtPlaces
  import opened CourtHolders
  import opened CourtSound
  import opened CourtAnswers
  import opened CourtTheorems
  import opened TierRules

  const CMD_BUF: nat := 512
  const FULL_BUF: nat := 1024
  const SOURCE_BUF: nat := 256
  const RISH_PATH := "/data/data/com.termux/files/home/MiuiserPeruser/rish"

  datatype Backend = Rish | Adb | Direct

  predicate CanDisable(t: Tiers, source: string) {
    !Protected(t, source)
  }

  function Kill(source: string): string {
    Text.Take("am kill " + source, CMD_BUF - 1)
  }

  function ForceStop(source: string): string {
    Text.Take("am force-stop " + source, CMD_BUF - 1)
  }

  function Disable(source: string): string {
    Text.Take("pm disable-user --user 0 " + source, CMD_BUF - 1)
  }

  /** The commands of a verdict, in order; none for a verdict that is not enforced. */
  function Commands(t: Tiers, source: string, verdict: Label): seq<string> {
    match verdict
    case Warned => [Kill(source)]
    case Quarantined => [ForceStop(source)]
    case HouseArrest => [ForceStop(source)]
    case Jailed => [ForceStop(source)] + (if CanDisable(t, source) then [Disable(source)] else [])
    case _ => []
  }

  predicate Enforceable(verdict: Label) {
    verdict == Warned || Containment(verdict)
  }

  /** The shell line for a command, before the buffer cuts it. */
  function ShellLine(backend: Backend, cmd: string): string {
    match backend
    case Rish => RISH_PATH + " -c '" + cmd + "' 2>/dev/null"
    case Adb => "adb shell '" + cmd + "' 2>/dev/null"
    case Direct => cmd + " 2>/dev/null"
  }

  /** What run_cmd hands to the shell. */
  function Wrapped(backend: Backend, cmd: string): string {
    Text.Take(ShellLine(backend, cmd), FULL_BUF - 1)
  }

  /** No command is cut: every source the daemon stores leaves room in both buffers. */
  lemma {:induction false} CommandsFit(t: Tiers, backend: Backend, source: string, verdict: Label, k: nat)
    requires |source| < SOURCE_BUF && k < |Commands(t, source, verdict)|
    ensures var cmd := Commands(t, source, verdict)[k];
      && (cmd == "am kill " + source || cmd == "am force-stop " + source || cmd == "pm disable-user --user 0 " + source)
      && Wrapped(backend, cmd) == ShellLine(backend, cmd)
  {
    var cmd := Commands(t, source, verdict)[k];
    assert cmd == "am kill " + source || cmd == "am force-stop " + source || cmd == "pm disable-user --user 0 " + source;
    hide Commands;
    LineFits(backend, cmd);
  }

  lemma LineFits(backend: Backend, cmd: string)
    requires |cmd| < CMD_BUF
    ensures Wrapped(backend, cmd) == ShellLine(backend, cmd)
  {
    assert |RISH_PATH| < 100;
  }

  /** The shell lines of a list of commands. */
  function Lines(backend: Backend, cmds: seq<string>): (r: seq<string>)
    ensures |r| == |cmds|
  {
    seq(|cmds|, k requires 0 <= k < |cmds| => Wrapped(backend, cmds[k]))
  }

  /** The shell lines of everything a log says was enforced. */
  function AllLines(t: Tiers, backend: Backend, done: seq<Enforcement>): seq<string> {
    if done == [] then []
    else
      var e := done[|done| - 1];
      AllLines(t, backend, done[..|done| - 1]) + Lines(backend, Commands(t, e.source, e.verdict))
  }

  class Enforcer {
    var backend: Backend
    ghost var issued: seq<string>
    const list: Option<string>

    constructor (list: Option<string>)
      ensures this.list == list && backend == Direct && issued == []
    {
      backend := Direct;
      issued := [];
      this.list := list;
    }

    /** enforce_init: the first backend that answers its probe. */
    method Init(rish: bool, adb: bool)
      modifies this`backend
      ensures rish ==> backend == Rish
      ensures !rish && adb ==> backend == Adb
      ensures !rish && !adb ==> backend == Direct
    {
      if rish {
        backend := Rish;
      } else if adb {
        backend := Adb;
      } else {
        backend := Direct;
      }
    }

    method RunCmd(cmd: string)
      modifies this`issued
      ensures issued == old(issued) + [Wrapped(backend, cmd)]
    {
      issued := issued + [Wrapped(backend, cmd)];
    }

    method CanDisableUser(source: string) returns (r: bool)
      ensures r == CanDisable(TiersOf(list), source)
    {
      var sovereign := IsSovereign(list, source);
      if sovereign {
        return false;
      }
      var system := IsSystem(source);
      if system {
        return false;
      }
      var own := IsOwnDaemon(source);
      return !own;
    }

    /** enforce_execute: the commands of the verdict, wrapped for the backend, in order; -1 for any other verdict. */
    method Execute(source: string, verdict: Label) returns (rc: int)
      modifies this`issued
      ensures issued == old(issued) + Lines(backend, Commands(TiersOf(list), source, verdict))
      ensures rc == if Enforceable(verdict) then 0 else -1
    {
      hide Wrapped, TiersOf;
      if verdict == Warned {
        RunCmd(Kill(source));
      } else if verdict == Quarantined || verdict == HouseArrest {
        RunCmd(ForceStop(source));
      } else if verdict == Jailed {
        RunCmd(ForceStop(source));
        var disable := CanDisableUser(source);
        if disable {
          RunCmd(Disable(source));
        }
      } else {
        return -1;
      }
      return 0;
    }
  }
}
