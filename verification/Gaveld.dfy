/** The daemon's own methods on its rings, tables and database, each proved to take the steps of the transition system. */
module Gaveld {
  import opened Text
  import opened Labels
  import opened SignalLog
  import opened Pending
  import opened Court
  import opened CourtTheorems
  import opened CourtReload
  import opened TierRules
  import opened Enforcement
  import opened Database
  import Rings

  // ---- what a method does, in steps ----------------------------------------------------------

  /** A step if it can happen, otherwise nothing. */
  ghost function Try(t: Tiers, s: State, st: Step): State {
    if Enabled(s, st) then Next(t, s, st) else s
  }

  /** verdict_process: from the lock to the enforcement or the pending table. */
  ghost function Processed(t: Tiers, s: State, locked: bool): State {
    Try(t, Try(t, Settled(t, s, locked), InsertRow), EnqueueRow)
  }

  ghost function Settled(t: Tiers, s: State, locked: bool): State {
    Try(t, Try(t, Try(t, s, Judge(locked)), Decide), EnforceWarned)
  }

  /** One slot of the poll loop: the slot itself, then all of resolve_entry if it was answered. */
  ghost function Round(t: Tiers, s: State, i: nat): State {
    Try(t, Try(t, Try(t, Try(t, s, Poll(i)), RemoveRow), LogAnswer), EnforceAnswer)
  }

  ghost function Rounds(t: Tiers, s: State, n: nat): State {
    if n == 0 then s else Round(t, Rounds(t, s, n - 1), n - 1)
  }

  lemma TryKeeps(t: Tiers, s: State, st: Step)
    requires Inv(t, s) && !st.ReadRows?
    ensures Inv(t, Try(t, s, st))
  {
    hide Inv, Next, Enabled;
    if Enabled(s, st) {
      InvKept(t, s, st);
    }
  }

  /** Judging a case keeps the invariant of the pipeline. */
  lemma {:induction false} ProcessedKeeps(t: Tiers, s: State, locked: bool)
    requires Inv(t, s)
    ensures Inv(t, Processed(t, s, locked))
  {
    hide Inv, Try;
    TryKeeps(t, s, Judge(locked));
    TryKeeps(t, Try(t, s, Judge(locked)), Decide);
    TryKeeps(t, Try(t, Try(t, s, Judge(locked)), Decide), EnforceWarned);
    TryKeeps(t, Settled(t, s, locked), InsertRow);
    TryKeeps(t, Try(t, Settled(t, s, locked), InsertRow), EnqueueRow);
  }

  lemma RoundKeeps(t: Tiers, s: State, i: nat)
    requires Inv(t, s)
    ensures Inv(t, Round(t, s, i))
  {
    hide Inv, Try;
    var a := Try(t, s, Poll(i));
    var b := Try(t, a, RemoveRow);
    TryKeeps(t, s, Poll(i));
    TryKeeps(t, a, RemoveRow);
    TryKeeps(t, b, LogAnswer);
    TryKeeps(t, Try(t, b, LogAnswer), EnforceAnswer);
  }

  /** A whole pass over the pending table keeps the invariant. */
  lemma {:induction false} RoundsKeep(t: Tiers, s: State, n: nat)
    requires Inv(t, s)
    ensures Inv(t, Rounds(t, s, n))
  {
    hide Inv, Round;
    if n > 0 {
      RoundsKeep(t, s, n - 1);
      RoundKeeps(t, Rounds(t, s, n - 1), n - 1);
    }
  }

  /** Reading the stored requests back keeps the invariant, if none of them is in memory yet. */
  lemma {:induction false} ReloadsKeep(t: Tiers, s: State, list: seq<Request>, n: nat)
    requires Inv(t, s) && Legal(s, ReadRows(list))
    ensures Inv(t, Reloads(t, Next(t, s, ReadRows(list)), n))
  {
    hide Inv, Clash, Next;
    if n == 0 {
      InvKept(t, s, ReadRows(list));
    } else {
      ReloadsKeep(t, s, list, n - 1);
      TryKeeps(t, Reloads(t, Next(t, s, ReadRows(list)), n - 1), ReloadOne);
    }
  }

  // ---- verdict_process, branch by branch -----------------------------------------------------

  lemma IdleAfterJudge(t: Tiers, s: State, locked: bool, j: State)
    requires s.vthread.VTaken? && j == Next(t, s, Judge(locked)) && j.vthread.VIdle?
    ensures Processed(t, s, locked) == j
  {
    hide Next;
  }

  lemma IdleAfterDecide(t: Tiers, s: State, locked: bool, j: State, d: State)
    requires s.vthread.VTaken? && j == Next(t, s, Judge(locked)) && j.vthread.VFresh?
    requires d == Next(t, j, Decide) && d.vthread.VIdle?
    ensures Processed(t, s, locked) == d
  {
    hide Next;
  }

  lemma EnforcedAfterDecide(t: Tiers, s: State, locked: bool, j: State, d: State, e: State)
    requires s.vthread.VTaken? && j == Next(t, s, Judge(locked)) && j.vthread.VFresh?
    requires d == Next(t, j, Decide) && d.vthread.VEnforce? && e == Next(t, d, EnforceWarned) && e.vthread.VIdle?
    ensures Processed(t, s, locked) == e
  {
    hide Next;
  }

  lemma AskedAfterDecide(t: Tiers, s: State, locked: bool, j: State, d: State, r: State, q: State)
    requires s.vthread.VTaken? && j == Next(t, s, Judge(locked)) && j.vthread.VFresh?
    requires d == Next(t, j, Decide) && d.vthread.VRow?
    requires r == Next(t, d, InsertRow) && r.vthread.VQueue? && q == Next(t, r, EnqueueRow)
    ensures Processed(t, s, locked) == q
  {
    hide Next;
  }

  // ---- the poll loop -------------------------------------------------------------------------

  lemma InactiveRound(t: Tiers, s: State, i: nat)
    requires s.cthread.CPoll? && (i < |s.pending| ==> !s.pending[i].active)
    ensures Round(t, s, i) == s
  {
  }

  lemma RemindedRound(t: Tiers, s: State, i: nat)
    requires s.cthread.CPoll? && i < |s.pending| && s.pending[i].active && s.pending[i].reply == 0
    ensures Round(t, s, i) == s.(pending := s.pending[i := Kept(s.pending[i], s.now)])
  {
    hide Kept;
  }

  lemma ResolvedRound(t: Tiers, s: State, i: nat, p: State, r: State, l: State)
    requires s.cthread.CPoll? && i < |s.pending| && s.pending[i].active && s.pending[i].reply != 0
    requires p == Polled(s, i) && p.cthread.CReleased?
    requires r == RowRemoved(p, p.cthread.req, p.cthread.approved) && r.cthread.CRemoved?
    requires l == AnswerLogged(r, r.cthread.req, r.cthread.approved)
    ensures Round(t, s, i) == if l.cthread.CLogged? then Next(t, l, EnforceAnswer) else l
  {
    hide Polled, RowRemoved, AnswerLogged;
  }

  class Daemon {
    const db: Db
    const ring: Rings.Ring<Case>
    const table: PendingTable
    const enforcer: Enforcer
    ghost var vthread: VerdictThread
    ghost var cthread: ConsentThread
    ghost var log: Log

    /** The commands issued are those of the enforcements logged. */
    ghost predicate Valid()
      reads this, ring, enforcer
    {
      && ring.Valid() && ring.slots.Length == VERDICT_QUEUE_SIZE && table.Valid()
      && enforcer.issued == AllLines(Tiers(), enforcer.backend, log.enforced)
    }

    ghost function Tiers(): Court.Tiers {
      TiersOf(enforcer.list)
    }

    ghost function Abs(now: int): State
      reads this, db, ring, ring.slots, table.slots
      requires ring.Valid()
    {
      State(now, db.window, db.verdicts, db.consents, ring.Contents(), table.slots[..], vthread, cthread, log)
    }

    /** Start-up: empty tables and rings, and the backend whose probe answers first. */
    constructor (list: Option<string>, rish: bool, adb: bool, ghost now: int)
      ensures Valid() && Abs(now) == Start(now) && Tiers() == TiersOf(list)
      ensures fresh(db) && fresh(ring) && fresh(ring.slots) && fresh(table.slots) && fresh(enforcer)
    {
      db := new Db();
      ring := new Rings.Ring<Case>(VERDICT_QUEUE_SIZE);
      table := new PendingTable();
      enforcer := new Enforcer(list);
      vthread, cthread := VIdle, CBoot;
      log := Start(now).log;
      new;
      enforcer.Init(rish, adb);
    }

    /** cases_assemble: the case is dismissed, or pushed on the verdict ring, which drops its oldest when full. */
    method CasesAssemble(c: Case, ghost now: int)
      requires Valid() && Enabled(Abs(now), Assemble(c))
      modifies this`log, ring, ring.slots
      ensures Valid() && Abs(now) == Next(Tiers(), old(Abs(now)), Assemble(c))
    {
      hide AllLines, TiersOf;
      ghost var next := Assembled(Abs(now), c);
      AssembleEnforcesNothing(Abs(now), c);
      if c.state != Clean && c.state != Watched {
        ring.Push(c);
      }
      log := next.log;
    }

    /** cases_dequeue, as the verdict thread calls it. */
    method Dequeue(ghost now: int) returns (r: Option<Case>)
      requires Valid() && vthread.VIdle?
      modifies this, ring
      ensures Valid() && Abs(now) == Try(Tiers(), old(Abs(now)), Take)
      ensures r == if old(Abs(now)).ring == [] then None else Some(old(Abs(now)).ring[0])
    {
      hide AllLines, TiersOf;
      ghost var s := Abs(now);
      r := ring.Dequeue();
      if r.Some? {
        vthread := VTaken(r.value);
        log := Taken(s).log;
      }
    }

    method ApplySovereigntyCap(source: string, state: Label) returns (r: Label)
      ensures r == Capped(Tiers(), source, state)
    {
      r := state;
      var sovereign := IsSovereign(enforcer.list, source);
      if sovereign && (state == Jailed || state == HouseArrest) {
        r := Quarantined;
      }
    }

    method ApplyFloorJailed(source: string, state: Label, now: int) returns (r: Label)
      ensures r == Floored(db.verdicts, source, state, now)
    {
      r := state;
      if state == Jailed {
        var priorHouse := db.VerdictCountRecent(source, HouseArrest, now - CONTAINMENT_WINDOW_SEC);
        var priorQuarantine := db.VerdictCountRecent(source, Quarantined, now - CONTAINMENT_WINDOW_SEC);
        if priorHouse == 0 && priorQuarantine == 0 {
          r := HouseArrest;
        }
      }
    }

    /** verdict_emit. */
    method VerdictEmit(id: CaseId, source: string, verdict: Label, score: real, required: bool, granted: bool, now: int)
      requires Valid()
      modifies this`log, db`verdicts
      ensures Valid() && Abs(now) == Emitted(old(Abs(now)), id, source, verdict, score, required, granted)
    {
      log := log.(place := log.place[id := Finished]);
      db.VerdictInsert(VerdictRow(id, source, verdict, score, now, required, granted));
    }

    /** enforce_execute, noted in the log. */
    method Enforce(id: CaseId, source: string, verdict: Label, ghost now: int)
      requires Valid()
      modifies this`log, enforcer`issued
      ensures Valid() && Abs(now) == Enforced(old(Abs(now)), id, source, verdict)
    {
      ghost var done := log.enforced;
      log := log.(enforced := log.enforced + [Enforcement(id, source, verdict)]);
      var rc := enforcer.Execute(source, verdict);
      assert log.enforced[..|log.enforced| - 1] == done;
    }

    /** The first three tests of verdict_process. */
    method Judge(c: Case, locked: bool, now: int) returns (done: bool)
      requires Valid() && vthread == VTaken(c)
      modifies this, db`verdicts
      ensures Valid() && Abs(now) == Judged(Tiers(), old(Abs(now)), c, locked)
      ensures done ==> vthread.VIdle?
      ensures !done ==> vthread == VFresh(c)
    {
      hide Active, AllLines, OwnDaemon, Sovereign, SystemPackage;
      if locked {
        log := log.(place := log.place[c.id := Suspended]);
        vthread := VIdle;
        return true;
      }
      var own := IsOwnDaemon(c.source);
      if own {
        VerdictEmit(c.id, c.source, IaReferral, c.score, false, false, now);
        vthread := VIdle;
        return true;
      }
      var recent := db.SignalActive(c.source, now - FRESH_SIGNAL_SEC);
      if !recent {
        VerdictEmit(c.id, c.source, DismissedStale, c.score, false, false, now);
        vthread := VIdle;
        return true;
      }
      log := log.(freshAt := log.freshAt[c.id := now]);
      vthread := VFresh(c);
      return false;
    }

    /** Cap, floor and the verdict: logged for WARNED, dismissed when unexpected, else a request. */
    method Decide(c: Case, now: int) returns (r: Option<Request>, warned: bool)
      requires Valid() && vthread == VFresh(c)
      modifies this, db`verdicts
      ensures Valid() && Abs(now) == Decided(Tiers(), old(Abs(now)), c)
      ensures if warned then r.None? && vthread == VEnforce(c)
              else if r.Some? then vthread == VRow(r.value)
              else vthread.VIdle?
    {
      hide Floored, AllLines, TiersOf, Capped;
      var state := ApplySovereigntyCap(c.source, c.state);
      state := ApplyFloorJailed(c.source, state, now);
      if state == Warned {
        VerdictEmit(c.id, c.source, Warned, c.score, false, true, now);
        vthread := VEnforce(c);
        return None, true;
      }
      if state != Quarantined && state != HouseArrest && state != Jailed {
        VerdictEmit(c.id, c.source, Label.Dismissed, c.score, false, false, now);
        vthread := VIdle;
        return None, false;
      }
      var timeout := TIMEOUT_QUARANTINED;
      if state == Jailed {
        timeout := 0;
      } else if state == HouseArrest {
        timeout := TIMEOUT_HOUSE_ARREST;
      }
      var req := Request(c.id, c.source, state, c.score, now, timeout);
      log := log.(decidedAt := log.decidedAt[c.id := now]);
      vthread := VRow(req);
      return Some(req), false;
    }

    /** The request is stored first and only then put into the pending table. */
    method Ask(req: Request, ghost now: int)
      requires Valid() && vthread == VRow(req)
      modifies this, db`consents, table.slots
      ensures Valid() && Abs(now) == Next(Tiers(), RowInserted(old(Abs(now)), req), EnqueueRow)
    {
      hide AllLines, TiersOf, Enqueued;
      db.ConsentInsert(req);
      log := log.(place := log.place[req.id := Held], asked := log.asked + {req.id});
      vthread := VQueue(req);
      table.Enqueue(req);
      vthread := VIdle;
    }

    /** A WARNED verdict is carried out at once. */
    method Warn(c: Case, now: int)
      requires Valid() && vthread == VEnforce(c)
      modifies this, enforcer`issued
      ensures Valid() && vthread.VIdle? && Abs(now) == Next(Tiers(), old(Abs(now)), EnforceWarned)
    {
      hide AllLines, TiersOf;
      Enforce(c.id, c.source, Warned, now);
      vthread := VIdle;
    }

    /** verdict_process. */
    method VerdictProcess(c: Case, locked: bool, now: int)
      requires Valid() && vthread == VTaken(c)
      modifies this, db`verdicts, db`consents, table.slots, enforcer`issued
      ensures Valid() && Abs(now) == Processed(Tiers(), old(Abs(now)), locked)
    {
      hide Judged, Decided, RowInserted, Enqueued, AllLines, TiersOf, Processed, Enforced;
      ghost var t, s := Tiers(), Abs(now);
      var done := Judge(c, locked, now);
      ghost var j := Abs(now);
      if done {
        IdleAfterJudge(t, s, locked, j);
        return;
      }
      var req, warned := Decide(c, now);
      ghost var d := Abs(now);
      if warned {
        Warn(c, now);
        EnforcedAfterDecide(t, s, locked, j, d, Abs(now));
      } else if req.Some? {
        Ask(req.value, now);
        AskStored(d, req.value);
        AskedAfterDecide(t, s, locked, j, d, RowInserted(d, req.value), Abs(now));
      } else {
        IdleAfterDecide(t, s, locked, j, d);
      }
    }

    /** consent_reply, from the socket server. */
    method ConsentReply(id: CaseId, approved: bool, ghost now: int)
      requires Valid()
      modifies this`log, table.slots
      ensures Valid() && Abs(now) == Next(Tiers(), old(Abs(now)), Step.Reply(id, approved))
    {
      hide Replied, AllLines, TiersOf, SlotOf;
      ghost var s := Abs(now);
      log := Answered(s, id, approved).log;
      table.Reply(id, approved);
      ReplyToNobody(s.pending, id, approved);
    }

    /** The slot is cleared under the lock, which is then released. */
    method ClearSlot(i: nat, ghost now: int) returns (req: Request, approved: bool)
      requires Valid() && cthread.CPoll? && i < table.slots.Length && table.slots[i].active && table.slots[i].reply != 0
      modifies this`cthread, table.slots
      ensures Valid() && Abs(now) == Polled(old(Abs(now)), i) && cthread == CReleased(req, approved)
    {
      hide AllLines, TiersOf;
      req, approved := table.slots[i].req, table.slots[i].reply == 1;
      table.Release(i);
      cthread := CReleased(req, approved);
    }

    method RemoveRow(req: Request, approved: bool, ghost now: int)
      requires Valid() && cthread == CReleased(req, approved)
      modifies this`cthread, this`log, db`consents
      ensures Valid() && Abs(now) == RowRemoved(old(Abs(now)), req, approved)
    {
      hide AllLines, TiersOf;
      db.ConsentRemove(req.id);
      log := log.(place := log.place[req.id := Place.Removed]);
      cthread := CRemoved(req, approved);
    }

    /** The verdict, and for an approval its enforcement. */
    method Conclude(req: Request, approved: bool, now: int)
      requires Valid() && cthread == CRemoved(req, approved)
      modifies this, db`verdicts, enforcer`issued
      ensures Valid() && cthread.CPoll?
      ensures var l := AnswerLogged(old(Abs(now)), req, approved);
        Abs(now) == if l.cthread.CLogged? then Next(Tiers(), l, EnforceAnswer) else l
    {
      hide AllLines, TiersOf;
      if approved {
        VerdictEmit(req.id, req.source, req.verdict, req.score, true, true, now);
        cthread := CLogged(req);
        Enforce(req.id, req.source, req.verdict, now);
      } else {
        VerdictEmit(req.id, req.source, ConsentDenied, req.score, true, false, now);
      }
      cthread := CPoll;
    }

    /** resolve_entry: clear the slot, delete the row, log the verdict, then enforce an approval. */
    method ResolveEntry(i: nat, now: int)
      requires Valid() && cthread.CPoll? && i < table.slots.Length && table.slots[i].active && table.slots[i].reply != 0
      modifies this, db`verdicts, db`consents, table.slots, enforcer`issued
      ensures Valid() && cthread.CPoll? && Abs(now) == Round(Tiers(), old(Abs(now)), i)
    {
      hide AllLines, TiersOf, Polled, AnswerLogged, Round;
      ghost var t, s := Tiers(), Abs(now);
      var req, approved := ClearSlot(i, now);
      ghost var p := Abs(now);
      RemoveRow(req, approved, now);
      ghost var r := Abs(now);
      Conclude(req, approved, now);
      ResolvedRound(t, s, i, p, r, AnswerLogged(r, req, approved));
    }

    /** One pass of the consent thread over the pending table. */
    method PollOnce(now: int)
      requires Valid() && cthread.CPoll?
      modifies this, db`verdicts, db`consents, table.slots, enforcer`issued
      ensures Valid() && cthread.CPoll? && Abs(now) == Rounds(Tiers(), old(Abs(now)), MAX_PENDING)
    {
      hide Round, Kept, AllLines, TiersOf;
      ghost var t, s := Tiers(), Abs(now);
      for i := 0 to table.slots.Length
        invariant Valid() && cthread.CPoll? && Abs(now) == Rounds(t, s, i)
      {
        if !table.slots[i].active {
          InactiveRound(t, Abs(now), i);
        } else if table.slots[i].reply != 0 {
          ResolveEntry(i, now);
        } else {
          RemindedRound(t, Abs(now), i);
          table.Remind(i, now);
        }
      }
    }

    /** What the consent thread does before polling: put the oldest stored requests back into the table. */
    method Reload(scan: seq<Request>, ghost now: int) returns (list: seq<Request>)
      requires Valid() && cthread.CBoot? && ScansConsents(db.consents, scan)
      modifies this`cthread, table.slots
      ensures Valid() && cthread.CPoll? && Enabled(old(Abs(now)), ReadRows(list))
      ensures Abs(now) == Reloads(Tiers(), Next(Tiers(), old(Abs(now)), ReadRows(list)), |list|)
    {
      hide Enqueued, Oldest, AllLines, TiersOf, Next, Reloads;
      ghost var t, s := Tiers(), Abs(now);
      list := db.ConsentPending(scan);
      cthread := if list == [] then CPoll else CReload(list);
      assert list[0..] == list;
      assert Abs(now) == Next(t, s, ReadRows(list)) by { RowsRead(t, s, list); }
      NoneReloadedYet(t, Abs(now));
      for i := 0 to |list|
        invariant Valid() && cthread == if i == |list| then CPoll else CReload(list[i..])
        invariant Abs(now) == Reloads(t, Next(t, s, ReadRows(list)), i)
      {
        assert list[i..][1..] == list[i + 1..];
        ghost var r := Abs(now);
        EnqueueNext(list[i..], now);
        OneMoreReload(t, Next(t, s, ReadRows(list)), i, r);
      }
    }

    /** One stored request goes back into the table. */
    method EnqueueNext(todo: seq<Request>, ghost now: int)
      requires Valid() && todo != [] && cthread == CReload(todo)
      modifies this`cthread, table.slots
      ensures Valid() && cthread == if todo[1..] == [] then CPoll else CReload(todo[1..])
      ensures Enabled(old(Abs(now)), ReloadOne) && Abs(now) == Next(Tiers(), old(Abs(now)), ReloadOne)
    {
      hide Enqueued, AllLines, TiersOf;
      table.Enqueue(todo[0]);
      cthread := if todo[1..] == [] then CPoll else CReload(todo[1..]);
    }
  }

  lemma NoneReloadedYet(t: Tiers, s: State)
    ensures Reloads(t, s, 0) == s
  {
  }

  lemma OneMoreReload(t: Tiers, s: State, n: nat, r: State)
    requires r == Reloads(t, s, n)
    ensures Reloads(t, s, n + 1) == Try(t, r, ReloadOne)
  {
    hide Next, Enabled;
  }

  lemma RowsRead(t: Tiers, s: State, list: seq<Request>)
    requires Enabled(s, ReadRows(list))
    ensures Next(t, s, ReadRows(list)) == s.(cthread := if list == [] then CPoll else CReload(list))
  {
  }

  lemma AssembleEnforcesNothing(s: State, c: Case)
    ensures Assembled(s, c).log.enforced == s.log.enforced
  {
  }

  lemma AskStored(d: State, req: Request)
    requires d.vthread == VRow(req)
    ensures RowInserted(d, req).vthread.VQueue?
  {
  }

  lemma ReplyToNobody(pending: seq<Slot>, id: CaseId, approved: bool)
    ensures SlotOf(pending, id) == |pending| ==> Replied(pending, id, approved) == pending
  {
  }
}
