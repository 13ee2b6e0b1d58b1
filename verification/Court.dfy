/**
  The judicial pipeline as a transition system: the database tables, the in-memory ring and pending
  table, the places the verdict and consent threads can stand at, and what has happened so far.
  Every step is one atomic action of one thread; a crash may fall between any two.
 */
module Court {
  import opened Labels
  import opened SignalLog
  import opened Pending

  const VERDICT_QUEUE_SIZE: nat := 64
  const CONTAINMENT_WINDOW_SEC: int := 86400
  const FRESH_SIGNAL_SEC: int := 60

  /** The tier tests, fixed during a run. */
  datatype Tiers = Tiers(own: string -> bool, sovereign: string -> bool, system: string -> bool)

  datatype Case = Case(id: CaseId, source: string, state: Label, score: real)

  datatype VerdictRow = VerdictRow(id: CaseId, source: string, verdict: Label, score: real, epoch: int,
                                   required: bool, granted: bool)

  datatype Enforcement = Enforcement(id: CaseId, source: string, verdict: Label)

  /** Where the verdict thread stands. */
  datatype VerdictThread =
    | VIdle
    | VTaken(c: Case)        // dequeued
    | VFresh(c: Case)        // past the lock, own-daemon and freshness tests
    | VRow(req: Request)     // decided, the consent row not yet inserted
    | VQueue(req: Request)   // row inserted, not yet in the pending table
    | VEnforce(c: Case)      // WARNED logged, not yet enforced

  /** Where the consent thread stands. */
  datatype ConsentThread =
    | CBoot                                  // started, rows not yet read back
    | CReload(todo: seq<Request>)            // rows read, still to be put into the table
    | CPoll                                  // in the poll loop
    | CReleased(req: Request, approved: bool) // resolve_entry: slot cleared, lock released
    | CRemoved(req: Request, approved: bool)  // row deleted
    | CLogged(req: Request)                  // approved verdict logged, not yet enforced

  /** What has become of an assembled case. */
  datatype Place = Dropped | DismissedAtOnce | InRing | Judging | Suspended | Held | Removed | Finished | Lost

  /** The past: nothing here is read by the program. */
  datatype Log = Log(
    cases: map<CaseId, Case>,         // every case ever assembled
    place: map<CaseId, Place>,
    observed: seq<Signal>,            // every signal ever inserted
    freshAt: map<CaseId, int>,        // when the freshness floor was passed
    decidedAt: map<CaseId, int>,      // when the verdict was decided
    asked: set<CaseId>,               // cases that ever had a consent row
    replies: map<CaseId, bool>,       // the latest reply that reached the case
    approved: set<CaseId>,            // cases that an approval ever reached
    enforced: seq<Enforcement>)

  datatype State = State(
    now: int,
    signals: seq<Signal>,
    verdicts: seq<VerdictRow>,
    rows: map<CaseId, Request>,
    ring: seq<Case>,
    pending: seq<Slot>,
    vthread: VerdictThread,
    cthread: ConsentThread,
    log: Log)

  datatype Step =
    | Tick(dt: nat)
    | Observe(source: string, name: string, at: int)  // a scorer notes a signal under the time it read earlier
    | PruneWindow(cutoff: int)
    | Assemble(c: Case)
    | Take
    | Judge(locked: bool)
    | Decide
    | InsertRow
    | EnqueueRow
    | EnforceWarned
    | Reply(id: CaseId, approved: bool)
    | ReadRows(list: seq<Request>)
    | ReloadOne
    | Poll(i: nat)
    | RemoveRow
    | LogAnswer
    | EnforceAnswer
    | Crash

  function EmptyTable(): seq<Slot> {
    seq(MAX_PENDING, _ => BLANK)
  }

  function Start(now: int): State {
    State(now, [], [], map[], [], EmptyTable(), VIdle, CBoot,
          Log(map[], map[], [], map[], map[], {}, map[], {}, []))
  }

  // ---- the decisions -------------------------------------------------------------------------

  function Capped(t: Tiers, source: string, state: Label): Label {
    if t.sovereign(source) && (state == Jailed || state == HouseArrest) then Quarantined else state
  }

  function CountRecent(verdicts: seq<VerdictRow>, source: string, verdict: Label, since: int): nat {
    if verdicts == [] then 0
    else
      var last := verdicts[|verdicts| - 1];
      CountRecent(verdicts[..|verdicts| - 1], source, verdict, since)
      + (if last.source == source && last.verdict == verdict && last.epoch > since then 1 else 0)
  }

  function Floored(verdicts: seq<VerdictRow>, source: string, state: Label, now: int): Label {
    var since := now - CONTAINMENT_WINDOW_SEC;
    if state == Jailed && CountRecent(verdicts, source, HouseArrest, since) == 0
                       && CountRecent(verdicts, source, Quarantined, since) == 0
    then HouseArrest else state
  }

  function Final(t: Tiers, s: State, c: Case): Label {
    Floored(s.verdicts, c.source, Capped(t, c.source, c.state), s.now)
  }

  // ---- the steps -----------------------------------------------------------------------------

  function Placed(s: State, id: CaseId, p: Place): State {
    s.(log := s.log.(place := s.log.place[id := p]))
  }

  /** verdict_emit. */
  function Emitted(s: State, id: CaseId, source: string, verdict: Label, score: real, required: bool, granted: bool): State {
    Placed(s.(verdicts := s.verdicts + [VerdictRow(id, source, verdict, score, s.now, required, granted)]), id, Finished)
  }

  function Observed(s: State, x: Signal): State {
    s.(signals := s.signals + [x], log := s.log.(observed := s.log.observed + [x]))
  }

  /** The states that are not worth a verdict. */
  predicate Trivial(state: Label) {
    state == Clean || state == Watched
  }

  /** The ring after a case has been routed: a full ring drops its oldest. */
  function Queue(ring: seq<Case>, c: Case): seq<Case> {
    if Trivial(c.state) then ring else (if |ring| >= VERDICT_QUEUE_SIZE then ring[1..] else ring) + [c]
  }

  function Filing(place: map<CaseId, Place>, ring: seq<Case>, c: Case): map<CaseId, Place> {
    if Trivial(c.state) then place[c.id := DismissedAtOnce]
    else (if |ring| >= VERDICT_QUEUE_SIZE then place[ring[0].id := Dropped] else place)[c.id := InRing]
  }

  function Assembled(s: State, c: Case): State {
    s.(ring := Queue(s.ring, c), log := s.log.(cases := s.log.cases[c.id := c], place := Filing(s.log.place, s.ring, c)))
  }

  function Taken(s: State): State
    requires s.ring != []
  {
    Placed(s, s.ring[0].id, Judging).(ring := s.ring[1..], vthread := VTaken(s.ring[0]))
  }

  function Judged(t: Tiers, s: State, c: Case, locked: bool): State {
    if locked then Placed(s, c.id, Suspended).(vthread := VIdle)
    else if t.own(c.source) then Emitted(s, c.id, c.source, IaReferral, c.score, false, false).(vthread := VIdle)
    else if !Active(s.signals, c.source, s.now - FRESH_SIGNAL_SEC) then
      Emitted(s, c.id, c.source, DismissedStale, c.score, false, false).(vthread := VIdle)
    else s.(vthread := VFresh(c), log := s.log.(freshAt := s.log.freshAt[c.id := s.now]))
  }

  function Decided(t: Tiers, s: State, c: Case): State {
    var state := Final(t, s, c);
    if state == Warned then Emitted(s, c.id, c.source, Warned, c.score, false, true).(vthread := VEnforce(c))
    else if !Containment(state) then Emitted(s, c.id, c.source, Dismissed, c.score, false, false).(vthread := VIdle)
    else s.(vthread := VRow(Request(c.id, c.source, state, c.score, s.now, TimeoutOf(state))),
            log := s.log.(decidedAt := s.log.decidedAt[c.id := s.now]))
  }

  function RowInserted(s: State, req: Request): State {
    s.(rows := s.rows[req.id := req], vthread := VQueue(req),
       log := s.log.(place := s.log.place[req.id := Held], asked := s.log.asked + {req.id}))
  }

  function Enforced(s: State, id: CaseId, source: string, verdict: Label): State {
    s.(log := s.log.(enforced := s.log.enforced + [Enforcement(id, source, verdict)]))
  }

  function Answered(s: State, id: CaseId, approved: bool): State {
    if SlotOf(s.pending, id) == |s.pending| then s
    else s.(pending := Replied(s.pending, id, approved),
            log := s.log.(replies := s.log.replies[id := approved],
                          approved := s.log.approved + (if approved then {id} else {})))
  }

  function Reloading(s: State, todo: seq<Request>): State {
    s.(cthread := if todo == [] then CPoll else CReload(todo))
  }

  function Polled(s: State, i: nat): State
    requires i < |s.pending|
  {
    var p := s.pending[i];
    if p.reply != 0 then s.(pending := Released(s.pending, i), cthread := CReleased(p.req, p.reply == 1))
    else s.(pending := s.pending[i := Kept(p, s.now)])
  }

  function RowRemoved(s: State, req: Request, approved: bool): State {
    Placed(s, req.id, Removed).(rows := s.rows - {req.id}, cthread := CRemoved(req, approved))
  }

  function AnswerLogged(s: State, req: Request, approved: bool): State {
    if approved then Emitted(s, req.id, req.source, req.verdict, req.score, true, true).(cthread := CLogged(req))
    else Emitted(s, req.id, req.source, ConsentDenied, req.score, true, false).(cthread := CPoll)
  }

  function AfterCrash(p: Place): Place {
    if p == InRing || p == Judging || p == Removed then Lost else p
  }

  /** The process dies and is started again: tables survive, memory does not. */
  function Crashed(s: State): State {
    s.(ring := [], pending := EmptyTable(), vthread := VIdle, cthread := CBoot,
       log := s.log.(place := map id | id in s.log.place :: AfterCrash(s.log.place[id])))
  }

  /** The oldest rows, as many as the table has slots. */
  ghost predicate Oldest(rows: map<CaseId, Request>, list: seq<Request>) {
    && |list| == (if |rows| < MAX_PENDING then |rows| else MAX_PENDING)
    && (forall k :: 0 <= k < |list| ==> list[k].id in rows && rows[list[k].id] == list[k])
    && (forall j, k :: 0 <= j < k < |list| ==> list[j].id != list[k].id && list[j].queued <= list[k].queued)
    && (forall id :: id in rows && (forall k :: 0 <= k < |list| ==> list[k].id != id) ==>
          forall k :: 0 <= k < |list| ==> list[k].queued <= rows[id].queued)
  }

  /** When a step can happen at all. */
  ghost predicate Enabled(s: State, st: Step) {
    match st
    case Tick(_) => true
    case Observe(_, _, at) => at <= s.now
    case PruneWindow(cutoff) => cutoff <= s.now - SIGNAL_WINDOW_SEC
    case Assemble(c) => c.id !in s.log.place && c.state == ScoreToState(c.score)
    case Take => s.vthread.VIdle? && s.ring != []
    case Judge(_) => s.vthread.VTaken?
    case Decide => s.vthread.VFresh?
    case InsertRow => s.vthread.VRow?
    case EnqueueRow => s.vthread.VQueue?
    case EnforceWarned => s.vthread.VEnforce?
    case Reply(_, _) => true
    case ReadRows(list) => s.cthread.CBoot? && Oldest(s.rows, list)
    case ReloadOne => s.cthread.CReload? && s.cthread.todo != []
    case Poll(i) => s.cthread.CPoll? && i < |s.pending| && s.pending[i].active
    case RemoveRow => s.cthread.CReleased?
    case LogAnswer => s.cthread.CRemoved?
    case EnforceAnswer => s.cthread.CLogged?
    case Crash => true
  }

  function Next(t: Tiers, s: State, st: Step): State
    requires Enabled(s, st)
  {
    match st
    case Tick(dt) => s.(now := s.now + dt)
    case Observe(source, name, at) => Observed(s, Signal(source, name, at))
    case PruneWindow(cutoff) => s.(signals := Pruned(s.signals, cutoff))
    case Assemble(c) => Assembled(s, c)
    case Take => Taken(s)
    case Judge(locked) => Judged(t, s, s.vthread.c, locked)
    case Decide => Decided(t, s, s.vthread.c)
    case InsertRow => RowInserted(s, s.vthread.req)
    case EnqueueRow => s.(pending := Enqueued(s.pending, s.vthread.req), vthread := VIdle)
    case EnforceWarned => Enforced(s, s.vthread.c.id, s.vthread.c.source, Warned).(vthread := VIdle)
    case Reply(id, approved) => Answered(s, id, approved)
    case ReadRows(list) => Reloading(s, list)
    case ReloadOne =>
      Reloading(s.(pending := Enqueued(s.pending, s.cthread.todo[0])), s.cthread.todo[1..])
    case Poll(i) => Polled(s, i)
    case RemoveRow => RowRemoved(s, s.cthread.req, s.cthread.approved)
    case LogAnswer => AnswerLogged(s, s.cthread.req, s.cthread.approved)
    case EnforceAnswer =>
      Enforced(s, s.cthread.req.id, s.cthread.req.source, s.cthread.req.verdict).(cthread := CPoll)
    case Crash => Crashed(s)
  }

  /** A row read back at start-up is one that this boot's verdict thread has put into the table, or is about to. */
  ghost predicate Doubled(s: State, req: Request) {
    Holds(s.pending, req.id) || (s.vthread.VQueue? && s.vthread.req.id == req.id)
  }

  /** Such a row will find a free slot when its turn comes. */
  ghost predicate Clash(s: State, list: seq<Request>) {
    exists k :: 0 <= k < |list| && k < FreeCount(s.pending) && Doubled(s, list[k])
  }

  /** The schedules the daemon relies on: no row read back gets a second slot. */
  ghost predicate Legal(s: State, st: Step) {
    Enabled(s, st) && (st.ReadRows? ==> !Clash(s, st.list))
  }

  ghost predicate CanRun(t: Tiers, now: int, steps: seq<Step>)
    decreases |steps|, 0
  {
    steps == [] || (CanRun(t, now, steps[..|steps| - 1])
                    && Enabled(Run(t, now, steps[..|steps| - 1]), steps[|steps| - 1]))
  }

  ghost function Run(t: Tiers, now: int, steps: seq<Step>): State
    requires CanRun(t, now, steps)
    decreases |steps|, 1
  {
    if steps == [] then Start(now) else Next(t, Run(t, now, steps[..|steps| - 1]), steps[|steps| - 1])
  }

  ghost predicate LegalRun(t: Tiers, now: int, steps: seq<Step>) {
    && CanRun(t, now, steps)
    && (steps == [] || (LegalRun(t, now, steps[..|steps| - 1])
                        && Legal(Run(t, now, steps[..|steps| - 1]), steps[|steps| - 1])))
  }
}
