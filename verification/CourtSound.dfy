/** What every stored or decided request has behind it: a fresh signal, a permitted tier, and for JAILED a prior containment. */
module CourtSound {
  import opened Labels
  import opened SignalLog
  import opened Pending
  import opened Court

  /** A user-approved HOUSE_ARREST or QUARANTINED verdict for the source, logged in the day before d. */
  ghost predicate Contained(verdicts: seq<VerdictRow>, source: string, d: int) {
    exists k :: 0 <= k < |verdicts| && Containing(verdicts[k], source, d)
  }

  predicate Containing(v: VerdictRow, source: string, d: int) {
    && v.source == source && (v.verdict == HouseArrest || v.verdict == Quarantined)
    && v.required && v.granted && d - CONTAINMENT_WINDOW_SEC < v.epoch <= d
  }

  /** A signal from the source less than a minute old when the case was judged. */
  ghost predicate SeenFresh(log: Log, id: CaseId, source: string) {
    id in log.freshAt && exists k :: 0 <= k < |log.observed| && Recent(log.observed[k], source, log.freshAt[id])
  }

  predicate Recent(x: Signal, source: string, at: int) {
    x.source == source && at - FRESH_SIGNAL_SEC < x.epoch <= at
  }

  predicate Askable(t: Tiers, source: string, verdict: Label) {
    Containment(verdict) && !t.own(source) && (t.sovereign(source) ==> verdict == Quarantined)
  }

  ghost predicate Sound(t: Tiers, verdicts: seq<VerdictRow>, log: Log, req: Request) {
    && Askable(t, req.source, req.verdict)
    && SeenFresh(log, req.id, req.source)
    && (req.verdict == Jailed ==>
          req.id in log.decidedAt && Contained(verdicts, req.source, log.decidedAt[req.id]))
  }

  /** The states a case that reaches the verdict thread can have. */
  predicate Routed(state: Label) {
    state == Warned || Containment(state)
  }

  ghost predicate CaseSound(t: Tiers, log: Log, c: Case) {
    Routed(c.state) && !t.own(c.source) && SeenFresh(log, c.id, c.source)
  }

  ghost predicate VerdictThreadSound(t: Tiers, verdicts: seq<VerdictRow>, log: Log, v: VerdictThread) {
    match v
    case VTaken(c) => Routed(c.state)
    case VFresh(c) => CaseSound(t, log, c)
    case VRow(req) => Sound(t, verdicts, log, req)
    case VQueue(req) => Sound(t, verdicts, log, req)
    case VEnforce(c) => CaseSound(t, log, c)
    case VIdle => true
  }

  ghost predicate ConsentThreadSound(t: Tiers, verdicts: seq<VerdictRow>, log: Log, c: ConsentThread) {
    match c
    case CReload(todo) => forall k :: 0 <= k < |todo| ==> Sound(t, verdicts, log, todo[k])
    case CReleased(req, _) => Sound(t, verdicts, log, req)
    case CRemoved(req, _) => Sound(t, verdicts, log, req)
    case CLogged(req) => Sound(t, verdicts, log, req)
    case _ => true
  }

  ghost predicate SlotsSound(t: Tiers, verdicts: seq<VerdictRow>, log: Log, pending: seq<Slot>) {
    forall i :: 0 <= i < |pending| && pending[i].active ==> Sound(t, verdicts, log, pending[i].req)
  }

  ghost predicate RowsSound(t: Tiers, verdicts: seq<VerdictRow>, log: Log, rows: map<CaseId, Request>) {
    forall id :: id in rows ==> rows[id].id == id && Sound(t, verdicts, log, rows[id])
  }

  /** Only approved requests are logged under a containment state; a logged JAILED has its containment before it. */
  ghost predicate VerdictSound(t: Tiers, now: int, verdicts: seq<VerdictRow>, log: Log, k: nat)
    requires k < |verdicts|
  {
    var v := verdicts[k];
    && v.epoch <= now
    && (Containment(v.verdict) ==> v.required && v.granted && Askable(t, v.source, v.verdict))
    && (v.verdict == Jailed ==>
          v.id in log.decidedAt && Contained(verdicts[..k], v.source, log.decidedAt[v.id]))
  }

  ghost predicate VerdictsSound(t: Tiers, now: int, verdicts: seq<VerdictRow>, log: Log) {
    forall k :: 0 <= k < |verdicts| ==> VerdictSound(t, now, verdicts, log, k)
  }

  ghost predicate RingSound(ring: seq<Case>) {
    forall k :: 0 <= k < |ring| ==> Routed(ring[k].state)
  }

  /** The window holds nothing but observed signals, and every one of the last two minutes. */
  ghost predicate WindowSound(now: int, signals: seq<Signal>, log: Log) {
    && (forall x :: x in signals ==> x in log.observed)
    && (forall x :: x in log.observed ==> x.epoch <= now)
    && (forall x :: x in log.observed && x.epoch >= now - SIGNAL_WINDOW_SEC ==> x in signals)
  }

  /** A case still in the ring has not been judged, and one that is being judged has not been decided. */
  ghost predicate Unjudged(log: Log, ring: seq<Case>, v: VerdictThread) {
    && (forall k :: 0 <= k < |ring| ==> ring[k].id in log.place && ring[k].id !in log.freshAt)
    && (forall j, k :: 0 <= j < k < |ring| ==> ring[j].id != ring[k].id)
    && (v.VTaken? ==> v.c.id in log.place && v.c.id !in log.freshAt && forall k :: 0 <= k < |ring| ==> ring[k].id != v.c.id)
    && (v.VFresh? ==> v.c.id in log.freshAt && v.c.id !in log.decidedAt)
    && (forall id :: id in log.decidedAt ==> id in log.freshAt)
    && (forall id :: id in log.freshAt ==> id in log.place)
  }

  ghost predicate AllSound(t: Tiers, s: State) {
    && RingSound(s.ring)
    && WindowSound(s.now, s.signals, s.log)
    && VerdictThreadSound(t, s.verdicts, s.log, s.vthread)
    && ConsentThreadSound(t, s.verdicts, s.log, s.cthread)
    && RowsSound(t, s.verdicts, s.log, s.rows)
    && SlotsSound(t, s.verdicts, s.log, s.pending)
    && VerdictsSound(t, s.now, s.verdicts, s.log)
    && Unjudged(s.log, s.ring, s.vthread)
  }

  /** Later logs say no less about any case. */
  ghost predicate Extends(log: Log, later: Log) {
    && log.observed <= later.observed
    && (forall id :: id in log.freshAt ==> id in later.freshAt && later.freshAt[id] == log.freshAt[id])
    && (forall id :: id in log.decidedAt ==> id in later.decidedAt && later.decidedAt[id] == log.decidedAt[id])
  }

  lemma SeenFreshStays(log: Log, later: Log, id: CaseId, source: string)
    requires SeenFresh(log, id, source) && Extends(log, later)
    ensures SeenFresh(later, id, source)
  {
    var k :| 0 <= k < |log.observed| && Recent(log.observed[k], source, log.freshAt[id]);
    assert later.observed[k] == log.observed[k];
  }

  lemma ContainedStays(verdicts: seq<VerdictRow>, more: seq<VerdictRow>, source: string, d: int)
    requires Contained(verdicts, source, d) && verdicts <= more
    ensures Contained(more, source, d)
  {
    var k :| 0 <= k < |verdicts| && Containing(verdicts[k], source, d);
    assert more[k] == verdicts[k];
  }

  lemma SoundStays(t: Tiers, verdicts: seq<VerdictRow>, more: seq<VerdictRow>, log: Log, later: Log, req: Request)
    requires Sound(t, verdicts, log, req) && verdicts <= more && Extends(log, later)
    ensures Sound(t, more, later, req)
  {
    hide SeenFresh, Contained;
    SeenFreshStays(log, later, req.id, req.source);
    if req.verdict == Jailed {
      ContainedStays(verdicts, more, req.source, log.decidedAt[req.id]);
    }
  }

  lemma RowsStay(t: Tiers, verdicts: seq<VerdictRow>, more: seq<VerdictRow>, log: Log, later: Log, rows: map<CaseId, Request>)
    requires RowsSound(t, verdicts, log, rows) && verdicts <= more && Extends(log, later)
    ensures RowsSound(t, more, later, rows)
  {
    hide Sound, Extends;
    forall id | id in rows ensures rows[id].id == id && Sound(t, more, later, rows[id]) {
      SoundStays(t, verdicts, more, log, later, rows[id]);
    }
  }

  lemma SlotsStay(t: Tiers, verdicts: seq<VerdictRow>, more: seq<VerdictRow>, log: Log, later: Log, pending: seq<Slot>)
    requires SlotsSound(t, verdicts, log, pending) && verdicts <= more && Extends(log, later)
    ensures SlotsSound(t, more, later, pending)
  {
    hide Sound, Extends;
    forall i | 0 <= i < |pending| && pending[i].active ensures Sound(t, more, later, pending[i].req) {
      SoundStays(t, verdicts, more, log, later, pending[i].req);
    }
  }

  lemma ConsentThreadStays(t: Tiers, verdicts: seq<VerdictRow>, more: seq<VerdictRow>, log: Log, later: Log, c: ConsentThread)
    requires ConsentThreadSound(t, verdicts, log, c) && verdicts <= more && Extends(log, later)
    ensures ConsentThreadSound(t, more, later, c)
  {
    hide Sound, Extends;
    if c.CReload? {
      forall k | 0 <= k < |c.todo| ensures Sound(t, more, later, c.todo[k]) {
        SoundStays(t, verdicts, more, log, later, c.todo[k]);
      }
    } else if c.CReleased? || c.CRemoved? || c.CLogged? {
      SoundStays(t, verdicts, more, log, later, c.req);
    }
  }

  lemma VerdictThreadStays(t: Tiers, verdicts: seq<VerdictRow>, more: seq<VerdictRow>, log: Log, later: Log, v: VerdictThread)
    requires VerdictThreadSound(t, verdicts, log, v) && verdicts <= more && Extends(log, later)
    ensures VerdictThreadSound(t, more, later, v)
  {
    hide Sound, SeenFresh, Extends;
    match v
    case VFresh(c) => SeenFreshStays(log, later, c.id, c.source);
    case VEnforce(c) => SeenFreshStays(log, later, c.id, c.source);
    case VRow(req) => SoundStays(t, verdicts, more, log, later, req);
    case VQueue(req) => SoundStays(t, verdicts, more, log, later, req);
    case _ =>
  }

  lemma VerdictsStay(t: Tiers, now: int, after: int, verdicts: seq<VerdictRow>, log: Log, later: Log)
    requires VerdictsSound(t, now, verdicts, log) && now <= after && Extends(log, later)
    ensures VerdictsSound(t, after, verdicts, later)
  {
    hide Contained;
    forall k | 0 <= k < |verdicts| ensures VerdictSound(t, after, verdicts, later, k) {
      assert VerdictSound(t, now, verdicts, log, k);
    }
  }

  lemma VerdictAppended(t: Tiers, now: int, verdicts: seq<VerdictRow>, log: Log, v: VerdictRow)
    requires VerdictsSound(t, now, verdicts, log)
    requires v.epoch == now
    requires Containment(v.verdict) ==> v.required && v.granted && Askable(t, v.source, v.verdict)
    requires v.verdict == Jailed ==> v.id in log.decidedAt && Contained(verdicts, v.source, log.decidedAt[v.id])
    ensures VerdictsSound(t, now, verdicts + [v], log)
  {
    hide Contained;
    var all := verdicts + [v];
    forall k | 0 <= k < |all| ensures VerdictSound(t, now, all, log, k) {
      if k < |verdicts| {
        assert VerdictSound(t, now, verdicts, log, k);
        assert all[..k] == verdicts[..k];
      } else {
        assert all[..k] == verdicts;
      }
    }
  }

  lemma {:induction false} CountRecentFinds(verdicts: seq<VerdictRow>, source: string, verdict: Label, since: int)
    requires CountRecent(verdicts, source, verdict, since) > 0
    ensures exists k :: 0 <= k < |verdicts| && verdicts[k].source == source && verdicts[k].verdict == verdict
                        && verdicts[k].epoch > since
  {
    var front := verdicts[..|verdicts| - 1];
    if CountRecent(front, source, verdict, since) > 0 {
      CountRecentFinds(front, source, verdict, since);
      var k :| 0 <= k < |front| && front[k].source == source && front[k].verdict == verdict && front[k].epoch > since;
      assert verdicts[k] == front[k];
    } else {
      assert verdicts[|verdicts| - 1].epoch > since;
    }
  }

  lemma {:induction false} CountRecentCounts(verdicts: seq<VerdictRow>, source: string, verdict: Label, since: int, k: nat)
    requires k < |verdicts| && verdicts[k].source == source && verdicts[k].verdict == verdict && verdicts[k].epoch > since
    ensures CountRecent(verdicts, source, verdict, since) > 0
  {
    if k < |verdicts| - 1 {
      CountRecentCounts(verdicts[..|verdicts| - 1], source, verdict, since, k);
    }
  }

  lemma RecentIsContained(t: Tiers, now: int, verdicts: seq<VerdictRow>, log: Log, source: string, verdict: Label)
    requires VerdictsSound(t, now, verdicts, log) && (verdict == HouseArrest || verdict == Quarantined)
    requires CountRecent(verdicts, source, verdict, now - CONTAINMENT_WINDOW_SEC) > 0
    ensures Contained(verdicts, source, now)
  {
    hide CountRecent;
    CountRecentFinds(verdicts, source, verdict, now - CONTAINMENT_WINDOW_SEC);
    var k :| 0 <= k < |verdicts| && verdicts[k].source == source && verdicts[k].verdict == verdict
             && verdicts[k].epoch > now - CONTAINMENT_WINDOW_SEC;
    assert VerdictSound(t, now, verdicts, log, k);
    assert Containing(verdicts[k], source, now);
  }

  /** An approved containment of either kind is counted by one of the two questions of the floor, and nothing else is. */
  lemma ContainedIsCounted(t: Tiers, s: State, source: string)
    requires VerdictsSound(t, s.now, s.verdicts, s.log)
    ensures var since := s.now - CONTAINMENT_WINDOW_SEC;
      Contained(s.verdicts, source, s.now) <==>
        CountRecent(s.verdicts, source, HouseArrest, since) > 0 || CountRecent(s.verdicts, source, Quarantined, since) > 0
  {
    hide CountRecent, VerdictsSound;
    var since := s.now - CONTAINMENT_WINDOW_SEC;
    if CountRecent(s.verdicts, source, HouseArrest, since) > 0 {
      RecentIsContained(t, s.now, s.verdicts, s.log, source, HouseArrest);
    }
    if CountRecent(s.verdicts, source, Quarantined, since) > 0 {
      RecentIsContained(t, s.now, s.verdicts, s.log, source, Quarantined);
    }
    if Contained(s.verdicts, source, s.now) {
      var k :| 0 <= k < |s.verdicts| && Containing(s.verdicts[k], source, s.now);
      CountRecentCounts(s.verdicts, source, s.verdicts[k].verdict, since, k);
    }
  }

  /**
    What is decided about a routed case of no own daemon: WARNED stays; JAILED is kept for a source off the user's list
    that had a containment approved in the last day; HOUSE_ARREST is kept off that list, and is what a JAILED case without
    such a containment becomes; anything else is QUARANTINED.
   */
  lemma {:induction false} FinalExactly(t: Tiers, s: State, c: Case)
    requires VerdictsSound(t, s.now, s.verdicts, s.log) && Routed(c.state) && !t.own(c.source)
    ensures Final(t, s, c) == Warned <==> c.state == Warned
    ensures Final(t, s, c) == Jailed <==>
              c.state == Jailed && !t.sovereign(c.source) && Contained(s.verdicts, c.source, s.now)
    ensures Final(t, s, c) == HouseArrest <==>
              !t.sovereign(c.source)
              && (c.state == HouseArrest || (c.state == Jailed && !Contained(s.verdicts, c.source, s.now)))
    ensures Final(t, s, c) == Quarantined <==>
              c.state == Quarantined || (t.sovereign(c.source) && (c.state == HouseArrest || c.state == Jailed))
  {
    ContainedIsCounted(t, s, c.source);
    hide CountRecent, VerdictsSound, Contained;
  }

  /** The cap and the floor leave a WARNED case WARNED and turn any other into one that may be asked about. */
  lemma {:induction false} FinalIsAskable(t: Tiers, s: State, c: Case)
    requires VerdictsSound(t, s.now, s.verdicts, s.log) && Routed(c.state) && !t.own(c.source)
    ensures Final(t, s, c) == Warned <==> c.state == Warned
    ensures c.state != Warned ==> Askable(t, c.source, Final(t, s, c))
    ensures Final(t, s, c) == Jailed ==> Contained(s.verdicts, c.source, s.now)
  {
    hide Final, VerdictsSound, Contained;
    FinalExactly(t, s, c);
  }

  /** The freshness floor, answered from the pruned table, is answered as by everything ever observed. */
  lemma FreshInHistory(s: State, source: string)
    requires WindowSound(s.now, s.signals, s.log)
    ensures Active(s.signals, source, s.now - FRESH_SIGNAL_SEC) <==> Active(s.log.observed, source, s.now - FRESH_SIGNAL_SEC)
  {
    hide Active;
    ActiveMeans(s.signals, source, s.now - FRESH_SIGNAL_SEC);
    ActiveMeans(s.log.observed, source, s.now - FRESH_SIGNAL_SEC);
  }

  lemma SeenFreshNow(s: State, c: Case)
    requires WindowSound(s.now, s.signals, s.log)
    requires Active(s.signals, c.source, s.now - FRESH_SIGNAL_SEC)
    ensures SeenFresh(s.log.(freshAt := s.log.freshAt[c.id := s.now]), c.id, c.source)
  {
    FreshInHistory(s, c.source);
    var k :| 0 <= k < |s.log.observed| && s.log.observed[k].source == c.source
             && s.log.observed[k].epoch > s.now - FRESH_SIGNAL_SEC;
    assert s.log.observed[k] in s.log.observed;
    assert Recent(s.log.observed[k], c.source, s.now);
  }

  // ---- the steps -----------------------------------------------------------------------------

  /** What the evidence in a state says after the record has grown: it still stands. */
  lemma EvidenceStays(t: Tiers, s: State, after: int, more: seq<VerdictRow>, later: Log)
    requires AllSound(t, s) && s.now <= after && s.verdicts <= more && Extends(s.log, later)
    ensures RowsSound(t, more, later, s.rows) && SlotsSound(t, more, later, s.pending)
    ensures VerdictsSound(t, after, s.verdicts, later)
    ensures VerdictThreadSound(t, more, later, s.vthread) && ConsentThreadSound(t, more, later, s.cthread)
  {
    hide RowsSound, SlotsSound, VerdictsSound, VerdictThreadSound, ConsentThreadSound, Extends;
    RowsStay(t, s.verdicts, more, s.log, later, s.rows);
    SlotsStay(t, s.verdicts, more, s.log, later, s.pending);
    VerdictsStay(t, s.now, after, s.verdicts, s.log, later);
    VerdictThreadStays(t, s.verdicts, more, s.log, later, s.vthread);
    ConsentThreadStays(t, s.verdicts, more, s.log, later, s.cthread);
  }

  /** Nothing but the clock, the window or the tables of other groups changed. */
  lemma SoundCarriesOver(t: Tiers, s: State, next: State)
    requires AllSound(t, s) && next.verdicts == s.verdicts && s.now <= next.now && Extends(s.log, next.log)
    ensures RowsSound(t, next.verdicts, next.log, s.rows) && SlotsSound(t, next.verdicts, next.log, s.pending)
    ensures VerdictsSound(t, next.now, next.verdicts, next.log)
    ensures VerdictThreadSound(t, next.verdicts, next.log, s.vthread)
    ensures ConsentThreadSound(t, next.verdicts, next.log, s.cthread)
  {
    hide AllSound, Extends;
    EvidenceStays(t, s, next.now, next.verdicts, next.log);
  }

  /** A verdict row that is not a containment, or carries its evidence. */
  lemma EmittedSound(t: Tiers, s: State, v: VerdictRow, later: Log)
    requires AllSound(t, s) && v.epoch == s.now && Extends(s.log, later)
    requires Containment(v.verdict) ==> v.required && v.granted && Askable(t, v.source, v.verdict)
    requires v.verdict == Jailed ==> v.id in later.decidedAt && Contained(s.verdicts, v.source, later.decidedAt[v.id])
    ensures var more := s.verdicts + [v];
      && RowsSound(t, more, later, s.rows) && SlotsSound(t, more, later, s.pending)
      && VerdictsSound(t, s.now, more, later)
      && VerdictThreadSound(t, more, later, s.vthread) && ConsentThreadSound(t, more, later, s.cthread)
  {
    hide AllSound, Extends, Contained;
    EvidenceStays(t, s, s.now, s.verdicts + [v], later);
    VerdictAppended(t, s.now, s.verdicts, later, v);
  }

  lemma JudgedSound(t: Tiers, s: State, locked: bool)
    requires AllSound(t, s) && s.vthread.VTaken?
    ensures AllSound(t, Judged(t, s, s.vthread.c, locked))
  {
    hide RowsSound, SlotsSound, VerdictsSound, RingSound, WindowSound, ConsentThreadSound, Active;
    var c := s.vthread.c;
    var next := Judged(t, s, c, locked);
    JudgeKeepsUnjudged(t, s, locked);
    hide Unjudged;
    SameWindow(s, next);
    if locked {
      SoundCarriesOver(t, s, next);
    } else if t.own(c.source) {
      EmittedSound(t, s, VerdictRow(c.id, c.source, IaReferral, c.score, s.now, false, false), next.log);
    } else if !Active(s.signals, c.source, s.now - FRESH_SIGNAL_SEC) {
      EmittedSound(t, s, VerdictRow(c.id, c.source, DismissedStale, c.score, s.now, false, false), next.log);
    } else {
      SeenFreshNow(s, c);
      SoundCarriesOver(t, s, next);
    }
  }

  lemma JudgeKeepsUnjudged(t: Tiers, s: State, locked: bool)
    requires Unjudged(s.log, s.ring, s.vthread) && s.vthread.VTaken?
    ensures var next := Judged(t, s, s.vthread.c, locked);
            Unjudged(next.log, next.ring, next.vthread) && Extends(s.log, next.log)
  {
    var c := s.vthread.c;
    UnjudgedAfter(s.log, s.log.(place := s.log.place[c.id := Suspended]), s.ring, s.ring, s.vthread, VIdle);
    UnjudgedAfter(s.log, s.log.(place := s.log.place[c.id := Finished]), s.ring, s.ring, s.vthread, VIdle);
    UnjudgedStamped(s.log, s.ring, c, s.now);
    hide Unjudged, Active, Extends;
  }

  /** The case that is judged had no time recorded, so nothing recorded is lost. */
  lemma UnjudgedStamped(log: Log, ring: seq<Case>, c: Case, now: int)
    requires Unjudged(log, ring, VTaken(c))
    ensures var later := log.(freshAt := log.freshAt[c.id := now]); Unjudged(later, ring, VFresh(c)) && Extends(log, later)
  {
  }

  lemma DecidedSound(t: Tiers, s: State)
    requires AllSound(t, s) && s.vthread.VFresh?
    ensures AllSound(t, Decided(t, s, s.vthread.c))
    ensures Decided(t, s, s.vthread.c).vthread != VIdle
  {
    hide RowsSound, SlotsSound, VerdictsSound, RingSound, WindowSound, ConsentThreadSound, Final, Contained, SeenFresh;
    var c := s.vthread.c;
    var next := Decided(t, s, c);
    FinalIsAskable(t, s, c);
    DecideKeepsUnjudged(t, s);
    hide Unjudged;
    SameWindow(s, next);
    SeenFreshStays(s.log, next.log, c.id, c.source);
    if Final(t, s, c) == Warned {
      EmittedSound(t, s, VerdictRow(c.id, c.source, Warned, c.score, s.now, false, true), next.log);
    } else {
      SoundCarriesOver(t, s, next);
    }
  }

  lemma DecideKeepsUnjudged(t: Tiers, s: State)
    requires Unjudged(s.log, s.ring, s.vthread) && s.vthread.VFresh?
    ensures var next := Decided(t, s, s.vthread.c);
            Unjudged(next.log, next.ring, next.vthread) && Extends(s.log, next.log)
  {
    hide Final;
  }

  lemma ObservedSound(t: Tiers, s: State, x: Signal)
    requires AllSound(t, s) && x.epoch <= s.now
    ensures AllSound(t, Observed(s, x))
  {
    hide RowsSound, SlotsSound, VerdictsSound, RingSound, VerdictThreadSound, ConsentThreadSound;
    SoundCarriesOver(t, s, Observed(s, x));
  }

  lemma PrunedSound(t: Tiers, s: State, cutoff: int)
    requires AllSound(t, s) && cutoff <= s.now - SIGNAL_WINDOW_SEC
    ensures AllSound(t, Next(t, s, PruneWindow(cutoff)))
  {
    hide RowsSound, SlotsSound, VerdictsSound, RingSound, VerdictThreadSound, ConsentThreadSound, Pruned;
    PrunedHolds(s.signals, cutoff);
    SoundCarriesOver(t, s, Next(t, s, PruneWindow(cutoff)));
  }

  lemma AssembledSound(t: Tiers, s: State, c: Case)
    requires AllSound(t, s) && c.state == ScoreToState(c.score) && c.id !in s.log.place
    ensures AllSound(t, Assembled(s, c))
  {
    hide RowsSound, SlotsSound, VerdictsSound, WindowSound, VerdictThreadSound, ConsentThreadSound;
    AssembleKeepsUnjudged(s, c);
    hide Unjudged;
    SoundCarriesOver(t, s, Assembled(s, c));
    SameWindow(s, Assembled(s, c));
  }

  lemma AssembleKeepsUnjudged(s: State, c: Case)
    requires Unjudged(s.log, s.ring, s.vthread) && c.id !in s.log.place
    ensures var next := Assembled(s, c);
            Unjudged(next.log, next.ring, next.vthread) && Extends(s.log, next.log)
  {
    var next := Assembled(s, c);
    if c.state == Clean || c.state == Watched {
      UnjudgedAfter(s.log, next.log, s.ring, s.ring, s.vthread, s.vthread);
    } else if |s.ring| >= VERDICT_QUEUE_SIZE {
      var later := s.log.(place := s.log.place[s.ring[0].id := Dropped]);
      UnjudgedAfter(s.log, later, s.ring, s.ring[1..], s.vthread, s.vthread);
      UnjudgedPushed(later, next.log, s.ring[1..], s.vthread, c);
    } else {
      UnjudgedPushed(s.log, next.log, s.ring, s.vthread, c);
    }
  }

  /** A case gets another place; the ring may lose its oldest, and the verdict thread the case it had. */
  lemma UnjudgedAfter(log: Log, later: Log, ring: seq<Case>, rest: seq<Case>, v: VerdictThread, w: VerdictThread)
    requires Unjudged(log, ring, v) && (rest == ring || (ring != [] && rest == ring[1..])) && (w == v || w.VIdle?)
    requires later.freshAt == log.freshAt && later.decidedAt == log.decidedAt && later.observed == log.observed
    requires forall id :: id in log.place ==> id in later.place
    ensures Unjudged(later, rest, w) && Extends(log, later)
  {
  }

  lemma UnjudgedPushed(log: Log, later: Log, ring: seq<Case>, v: VerdictThread, c: Case)
    requires Unjudged(log, ring, v) && c.id !in log.place && later.place == log.place[c.id := InRing]
    requires later.freshAt == log.freshAt && later.decidedAt == log.decidedAt && later.observed == log.observed
    ensures Unjudged(later, ring + [c], v) && Extends(log, later)
  {
  }

  lemma SameWindow(s: State, next: State)
    requires WindowSound(s.now, s.signals, s.log) && next.now >= s.now && next.signals == s.signals
    requires next.log.observed == s.log.observed
    ensures WindowSound(next.now, next.signals, next.log)
  {
  }

  lemma AnswerLoggedSound(t: Tiers, s: State, req: Request, approved: bool)
    requires AllSound(t, s) && s.cthread == CRemoved(req, approved)
    ensures AllSound(t, AnswerLogged(s, req, approved))
  {
    hide RowsSound, SlotsSound, VerdictsSound, WindowSound, VerdictThreadSound, RingSound, Contained, SeenFresh;
    var next := AnswerLogged(s, req, approved);
    SameWindow(s, next);
    if approved {
      EmittedSound(t, s, VerdictRow(req.id, req.source, req.verdict, req.score, s.now, true, true), next.log);
      SoundStays(t, s.verdicts, next.verdicts, s.log, next.log, req);
    } else {
      EmittedSound(t, s, VerdictRow(req.id, req.source, ConsentDenied, req.score, s.now, true, false), next.log);
    }
  }

  lemma RowInsertedSound(t: Tiers, s: State)
    requires AllSound(t, s) && s.vthread.VRow?
    ensures AllSound(t, RowInserted(s, s.vthread.req))
  {
    hide VerdictsSound, WindowSound, RingSound, ConsentThreadSound, SlotsSound, Sound;
    var next := RowInserted(s, s.vthread.req);
    SoundCarriesOver(t, s, next);
    SameWindow(s, next);
    assert Sound(t, next.verdicts, next.log, s.vthread.req);
  }

  lemma RowRemovedSound(t: Tiers, s: State)
    requires AllSound(t, s) && s.cthread.CReleased?
    ensures AllSound(t, RowRemoved(s, s.cthread.req, s.cthread.approved))
  {
    hide VerdictsSound, SlotsSound, WindowSound, RingSound, VerdictThreadSound, Sound;
    var next := RowRemoved(s, s.cthread.req, s.cthread.approved);
    SoundCarriesOver(t, s, next);
    SameWindow(s, next);
  }

  lemma SameAskSameEvidence(t: Tiers, verdicts: seq<VerdictRow>, log: Log, a: Request, b: Request)
    requires Sound(t, verdicts, log, a) && SameAsk(a, b)
    ensures Sound(t, verdicts, log, b)
  {
    hide SeenFresh, Contained;
  }

  lemma EnqueuedSound(t: Tiers, verdicts: seq<VerdictRow>, log: Log, pending: seq<Slot>, req: Request)
    requires SlotsSound(t, verdicts, log, pending) && Sound(t, verdicts, log, req)
    ensures SlotsSound(t, verdicts, log, Enqueued(pending, req))
  {
    hide Sound;
  }

  lemma RepliedSound(t: Tiers, verdicts: seq<VerdictRow>, log: Log, pending: seq<Slot>, id: CaseId, approved: bool)
    requires SlotsSound(t, verdicts, log, pending)
    ensures SlotsSound(t, verdicts, log, Replied(pending, id, approved))
  {
    hide Sound, SlotOf;
    var r := Replied(pending, id, approved);
    assert forall i :: 0 <= i < |pending| ==> r[i].active == pending[i].active && r[i].req == pending[i].req;
  }

  lemma PolledSound(t: Tiers, s: State, i: nat)
    requires AllSound(t, s) && s.cthread.CPoll? && i < |s.pending| && s.pending[i].active
    ensures AllSound(t, Polled(s, i))
  {
    hide Sound, Kept, RowsSound, VerdictsSound, RingSound, WindowSound, VerdictThreadSound, Unjudged;
    var p := s.pending[i];
    PollOnlyReminds(p, s.now);
    if p.reply == 0 {
      SameAskSameEvidence(t, s.verdicts, s.log, p.req, Kept(p, s.now).req);
    }
  }

  /** Every step keeps the evidence behind every request, verdict and thread. */
  lemma {:induction false} SoundKept(t: Tiers, s: State, st: Step)
    requires AllSound(t, s) && Enabled(s, st)
    ensures AllSound(t, Next(t, s, st))
  {
    match st
    case Observe(source, name, at) => ObservedSound(t, s, Signal(source, name, at));
    case PruneWindow(cutoff) => PrunedSound(t, s, cutoff);
    case Assemble(c) => AssembledSound(t, s, c);
    case Judge(locked) => JudgedSound(t, s, locked);
    case Decide => DecidedSound(t, s);
    case InsertRow => RowInsertedSound(t, s);
    case EnqueueRow => EnqueueRowSound(t, s);
    case Reply(id, approved) => AnsweredSound(t, s, id, approved);
    case ReloadOne => ReloadOneSound(t, s);
    case Poll(i) => PolledSound(t, s, i);
    case RemoveRow => RowRemovedSound(t, s);
    case LogAnswer => AnswerLoggedSound(t, s, s.cthread.req, s.cthread.approved);
    case _ => CarryStep(t, s, st);
  }

  lemma EnqueueRowSound(t: Tiers, s: State)
    requires AllSound(t, s) && s.vthread.VQueue?
    ensures AllSound(t, Next(t, s, EnqueueRow))
  {
    hide Sound, Enqueued, SlotsSound, RowsSound, VerdictsSound, RingSound, WindowSound, ConsentThreadSound;
    EnqueuedSound(t, s.verdicts, s.log, s.pending, s.vthread.req);
  }

  lemma ReloadOneSound(t: Tiers, s: State)
    requires AllSound(t, s) && s.cthread.CReload? && s.cthread.todo != []
    ensures AllSound(t, Next(t, s, ReloadOne))
  {
    hide Sound, Enqueued, SlotsSound, RowsSound, VerdictsSound, RingSound, WindowSound, VerdictThreadSound, Unjudged;
    var todo := s.cthread.todo;
    EnqueuedSound(t, s.verdicts, s.log, s.pending, todo[0]);
    assert forall k :: 0 <= k < |todo[1..]| ==> todo[1..][k] == todo[k + 1];
  }

  lemma AnsweredSound(t: Tiers, s: State, id: CaseId, approved: bool)
    requires AllSound(t, s)
    ensures AllSound(t, Answered(s, id, approved))
  {
    hide RowsSound, SlotsSound, VerdictsSound, RingSound, WindowSound, VerdictThreadSound, ConsentThreadSound, Replied, SlotOf;
    var next := Answered(s, id, approved);
    SoundCarriesOver(t, s, next);
    SameWindow(s, next);
    RepliedSound(t, next.verdicts, next.log, s.pending, id, approved);
  }

  /** The steps that touch neither verdicts, rows, slots nor judgement times, or only to clear them. */
  lemma CarryStep(t: Tiers, s: State, st: Step)
    requires AllSound(t, s) && Enabled(s, st)
    requires st.Tick? || st.Take? || st.EnforceWarned? || st.ReadRows? || st.EnforceAnswer? || st.Crash?
    ensures AllSound(t, Next(t, s, st))
  {
    hide VerdictsSound, WindowSound, SeenFresh, Sound;
    var next := Next(t, s, st);
    SoundCarriesOver(t, s, next);
    SameWindow(s, next);
  }

  lemma StartSound(t: Tiers, now: int)
    ensures AllSound(t, Start(now))
  {
  }

  /** In every run, whatever its schedule, everything has its evidence behind it. */
  lemma {:induction false} RunSound(t: Tiers, now: int, steps: seq<Step>)
    requires CanRun(t, now, steps)
    ensures AllSound(t, Run(t, now, steps))
    decreases |steps|
  {
    hide AllSound, Enabled, Next;
    if steps == [] {
      StartSound(t, now);
    } else {
      RunSound(t, now, steps[..|steps| - 1]);
      SoundKept(t, Run(t, now, steps[..|steps| - 1]), steps[|steps| - 1]);
    }
  }
}
