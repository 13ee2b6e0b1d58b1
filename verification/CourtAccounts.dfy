/** Where the assembled cases of a run have gone: every one is counted in exactly one place. */
module CourtAccounts {
  import opened Labels
  import opened SignalLog
  import opened Pending
  import opened Court
  import opened CourtPlaces
  import opened CourtHolders
  import opened CourtSound
  import opened CourtAnswers
  import opened CourtTheorems
  import opened Counting

  /** How many cases are recorded at a place. */
  ghost function InPlace(place: Places, p: Place): set<CaseId> {
    set id | id in place && place[id] == p
  }

  ghost function Assembles(steps: seq<Step>): nat {
    if steps == [] then 0 else Assembles(steps[..|steps| - 1]) + (if steps[|steps| - 1].Assemble? then 1 else 0)
  }

  function Order(p: Place): nat {
    match p
    case Dropped => 0
    case DismissedAtOnce => 1
    case InRing => 2
    case Judging => 3
    case Suspended => 4
    case Held => 5
    case Removed => 6
    case Finished => 7
    case Lost => 8
  }

  ghost function From(place: Places, k: nat): set<CaseId> {
    set id | id in place && Order(place[id]) >= k
  }

  lemma SetAside(place: Places, p: Place)
    ensures |From(place, Order(p))| == |InPlace(place, p)| + |From(place, Order(p) + 1)|
  {
    OrderTellsApart(place, p);
    hide From, InPlace, Order;
    DisjointUnion(InPlace(place, p), From(place, Order(p) + 1));
  }

  lemma OrderTellsApart(place: Places, p: Place)
    ensures From(place, Order(p)) == InPlace(place, p) + From(place, Order(p) + 1)
    ensures InPlace(place, p) !! From(place, Order(p) + 1)
  {
    forall id ensures id in From(place, Order(p)) <==> id in InPlace(place, p) || id in From(place, Order(p) + 1) {
      if id in place {
        OrderIsOneToOne(place[id], p);
      }
    }
  }

  lemma OrderIsOneToOne(p: Place, q: Place)
    ensures Order(p) == Order(q) <==> p == q
  {
  }

  lemma DisjointUnion(a: set<CaseId>, b: set<CaseId>)
    requires a !! b
    ensures |a + b| == |a| + |b|
  {
  }

  lemma Ends(place: Places)
    ensures |From(place, 0)| == |place| && |From(place, 9)| == 0
  {
    assert From(place, 0) == place.Keys;
    assert From(place, 9) == {};
  }

  lemma PlacesPartition(place: Places)
    ensures |place| == |InPlace(place, Dropped)| + |InPlace(place, DismissedAtOnce)| + |InPlace(place, InRing)|
                     + |InPlace(place, Judging)| + |InPlace(place, Suspended)| + |InPlace(place, Held)|
                     + |InPlace(place, Place.Removed)| + |InPlace(place, Finished)| + |InPlace(place, Lost)|
  {
    hide From, InPlace;
    Ends(place);
    SetAside(place, Dropped);
    SetAside(place, DismissedAtOnce);
    SetAside(place, InRing);
    SetAside(place, Judging);
    SetAside(place, Suspended);
    SetAside(place, Held);
    SetAside(place, Place.Removed);
    SetAside(place, Finished);
    SetAside(place, Lost);
  }

  lemma RingCounts(place: Places, ring: seq<Case>)
    requires RingPlaced(place, ring)
    ensures |InPlace(place, InRing)| == |ring|
  {
    var ids := seq(|ring|, k requires 0 <= k < |ring| => ring[k].id);
    forall id ensures id in InPlace(place, InRing) <==> id in ids {
      if id in InPlace(place, InRing) {
        assert At(place, id, InRing);
        var k :| 0 <= k < |ring| && ring[k].id == id;
        assert ids[k] == id;
      }
      if id in ids {
        var k :| 0 <= k < |ids| && ids[k] == id;
        assert At(place, ring[k].id, InRing);
      }
    }
    Listed(ids, InPlace(place, InRing));
  }

  lemma VerdictsCount(place: Places, verdicts: seq<VerdictRow>)
    requires VerdictsPlaced(place, verdicts)
    ensures |InPlace(place, Finished)| == |verdicts|
  {
    var ids := seq(|verdicts|, k requires 0 <= k < |verdicts| => verdicts[k].id);
    forall id ensures id in InPlace(place, Finished) <==> id in ids {
      if id in InPlace(place, Finished) {
        assert At(place, id, Finished);
        var k :| 0 <= k < |verdicts| && verdicts[k].id == id;
        assert ids[k] == id;
      }
      if id in ids {
        var k :| 0 <= k < |ids| && ids[k] == id;
        assert At(place, verdicts[k].id, Finished);
      }
    }
    Listed(ids, InPlace(place, Finished));
  }

  lemma ThreadsCount(s: State)
    requires AllPlaced(s)
    ensures InPlace(s.log.place, Held) == s.rows.Keys
    ensures InPlace(s.log.place, Judging) == InJudgement(s.vthread)
    ensures InPlace(s.log.place, Place.Removed) == InRemoval(s.cthread)
  {
    forall id
      ensures id in InPlace(s.log.place, Held) <==> id in s.rows
      ensures id in InPlace(s.log.place, Judging) <==> id in InJudgement(s.vthread)
      ensures id in InPlace(s.log.place, Place.Removed) <==> id in InRemoval(s.cthread)
    {
      assert At(s.log.place, id, Held) <==> id in s.rows;
      assert At(s.log.place, id, Judging) <==> id in InJudgement(s.vthread);
      assert At(s.log.place, id, Place.Removed) <==> id in InRemoval(s.cthread);
    }
  }

  /** Only assembling a case brings it into the accounts, and nothing takes it out. */
  lemma AccountsGrow(t: Tiers, s: State, st: Step)
    requires Inv(t, s) && Legal(s, st)
    ensures forall id :: id in Next(t, s, st).log.place <==> id in s.log.place || (st.Assemble? && id == st.c.id)
  {
    hide Inv, Legal, Handled;
    assert Enabled(s, st) by { LegalIsEnabled(s, st); }
    forall id | Handled(s, id) ensures id in s.log.place {
      HandledPlaced(t, s, id);
    }
    AccountsOf(t, s, st);
  }

  lemma LegalIsEnabled(s: State, st: Step)
    requires Legal(s, st)
    ensures Enabled(s, st)
  {
  }

  lemma AccountsOf(t: Tiers, s: State, st: Step)
    requires Enabled(s, st)
    requires forall id :: Handled(s, id) ==> id in s.log.place
    ensures forall id :: id in Next(t, s, st).log.place <==> id in s.log.place || (st.Assemble? && id == st.c.id)
  {
    if st.Crash? {
    } else if st.Assemble? {
      AssembleAccounts(s, st.c);
    } else {
      var x, p := PlaceMoves(t, s, st);
      hide Next, Enabled;
    }
  }

  lemma AssembleAccounts(s: State, c: Case)
    requires forall id :: Handled(s, id) ==> id in s.log.place
    ensures forall id :: id in Assembled(s, c).log.place <==> id in s.log.place || id == c.id
  {
    if s.ring != [] {
      assert Handled(s, s.ring[0].id);
    }
  }

  lemma HandledPlaced(t: Tiers, s: State, id: CaseId)
    requires Inv(t, s) && Handled(s, id)
    ensures id in s.log.place
  {
    hide AllSound, AllAnswered, EnforcementOK;
    RingHeadPlaced(s);
    if id in InJudgement(s.vthread) {
      JudgingPlaced(s, id);
    } else if s.cthread.CReleased? && s.cthread.req.id == id {
      StoredPlaced(s, id);
    } else if id in InRemoval(s.cthread) {
      assert id in InRemoval(s.cthread) <==> At(s.log.place, id, Place.Removed);
    }
  }

  lemma {:induction false} RunAccounts(t: Tiers, now: int, steps: seq<Step>)
    requires LegalRun(t, now, steps)
    ensures |Run(t, now, steps).log.place| == Assembles(steps)
    decreases |steps|
  {
    hide Inv, Legal, Next;
    if steps != [] {
      var front, st := steps[..|steps| - 1], steps[|steps| - 1];
      var s := Run(t, now, front);
      RunAccounts(t, now, front);
      RunInv(t, now, front);
      AccountsGrow(t, s, st);
      var place, after := s.log.place, Run(t, now, steps).log.place;
      if st.Assemble? {
        NewCase(s, st);
        assert after.Keys == place.Keys + {st.c.id};
      } else {
        assert after.Keys == place.Keys;
      }
    }
  }

  lemma NewCase(s: State, st: Step)
    requires Legal(s, st) && st.Assemble?
    ensures st.c.id !in s.log.place
  {
  }

  /** Only a crash loses a case, and only from the ring, the verdict thread or the last steps of resolve_entry. */
  lemma {:induction false} OnlyACrashLoses(t: Tiers, s: State, st: Step, id: CaseId)
    requires Enabled(s, st) && !At(s.log.place, id, Lost) && At(Next(t, s, st).log.place, id, Lost)
    ensures st == Crash
    ensures At(s.log.place, id, InRing) || At(s.log.place, id, Judging) || At(s.log.place, id, Place.Removed)
  {
    if st.Crash? {
    } else if st.Assemble? {
      AssembleLosesNone(s, st.c, id);
    } else {
      OthersLoseNone(t, s, st, id);
    }
  }

  lemma OthersLoseNone(t: Tiers, s: State, st: Step, id: CaseId)
    requires Enabled(s, st) && !st.Crash? && !st.Assemble?
    requires At(Next(t, s, st).log.place, id, Lost)
    ensures At(s.log.place, id, Lost)
  {
    hide Oldest, Kept, Released, Replied, SlotOf, Enqueued, Pruned, At;
    var place, after := s.log.place, Next(t, s, st).log.place;
    var x, p := PlaceMoves(t, s, st);
    hide Next, Enabled;
    assert At(after, id, Lost);
    MoveLosesNone(place, after, x, p, id);
  }

  lemma MoveLosesNone(place: Places, after: Places, x: CaseId, p: Place, id: CaseId)
    requires after == place || after == place[x := p]
    requires p != Lost && At(after, id, Lost)
    ensures At(place, id, Lost)
  {
  }

  lemma AssembleLosesNone(s: State, c: Case, id: CaseId)
    requires At(Assembled(s, c).log.place, id, Lost)
    ensures At(s.log.place, id, Lost)
  {
    AssembleMoves(s, c);
    hide Assembled;
  }

  lemma {:induction false} CrashFreeLosesNone(t: Tiers, now: int, steps: seq<Step>, id: CaseId)
    requires CanRun(t, now, steps) && Crash !in steps
    ensures !At(Run(t, now, steps).log.place, id, Lost)
    decreases |steps|
  {
    hide Next;
    if steps != [] {
      CrashFreeLosesNone(t, now, steps[..|steps| - 1], id);
      if At(Run(t, now, steps).log.place, id, Lost) {
        OnlyACrashLoses(t, Run(t, now, steps[..|steps| - 1]), steps[|steps| - 1], id);
      }
    }
  }

  /**
    Conservation: the cases assembled in a run are those dismissed at once, dropped by the ring,
    suspended by the lock, in the ring, stored for consent, closed by exactly one verdict row, held
    by one of the two threads, or lost in a crash; a run without crashes loses none.
   */
  lemma {:induction false} EveryCaseAccounted(t: Tiers, now: int, steps: seq<Step>)
    requires LegalRun(t, now, steps)
    ensures var s := Run(t, now, steps);
      && Assembles(steps) == |InPlace(s.log.place, DismissedAtOnce)| + |InPlace(s.log.place, Dropped)|
                           + |InPlace(s.log.place, Suspended)| + |s.ring| + |s.rows| + |s.verdicts|
                           + |InJudgement(s.vthread)| + |InRemoval(s.cthread)| + |InPlace(s.log.place, Lost)|
      && (forall j, k :: 0 <= j < k < |s.verdicts| ==> s.verdicts[j].id != s.verdicts[k].id)
      && (Crash !in steps ==> |InPlace(s.log.place, Lost)| == 0)
  {
    hide Run, CanRun, Holders, AllSound, AllAnswered, EnforcementOK;
    var s := Run(t, now, steps);
    RunInv(t, now, steps);
    RunAccounts(t, now, steps);
    PlacesPartition(s.log.place);
    RingCounts(s.log.place, s.ring);
    VerdictsCount(s.log.place, s.verdicts);
    ThreadsCount(s);
    assert |s.rows| == |s.rows.Keys|;
    if Crash !in steps && InPlace(s.log.place, Lost) != {} {
      var id :| id in InPlace(s.log.place, Lost);
      CrashFreeLosesNone(t, now, steps, id);
    }
  }

  // ---- the guard that never fires ------------------------------------------------------------

  ghost predicate NoneUnexpected(s: State) {
    forall k :: 0 <= k < |s.verdicts| ==> s.verdicts[k].verdict != Label.Dismissed
  }

  lemma UnexpectedOnlyInDecide(t: Tiers, s: State, st: Step)
    requires NoneUnexpected(s) && Enabled(s, st)
    requires st.LogAnswer? ==> s.cthread.req.verdict != Label.Dismissed
    ensures NoneUnexpected(Next(t, s, st)) || (st.Decide? && Next(t, s, st).vthread == VIdle)
  {
    hide Oldest, Kept, Released, Replied, SlotOf, Enqueued, Pruned, Final, Active;
  }

  /** The branch of verdict_process for an unexpected state is never taken, whatever the schedule. */
  lemma {:induction false} NeverUnexpected(t: Tiers, now: int, steps: seq<Step>)
    requires CanRun(t, now, steps)
    ensures NoneUnexpected(Run(t, now, steps))
    decreases |steps|
  {
    hide Next, NoneUnexpected, Start, AllSound, Enabled;
    if steps == [] {
      StartUnexpected(now);
    } else {
      var front, st := steps[..|steps| - 1], steps[|steps| - 1];
      var s := Run(t, now, front);
      NeverUnexpected(t, now, front);
      RunSound(t, now, front);
      RemovedIsAskable(t, s, st);
      UnexpectedOnlyInDecide(t, s, st);
      if st.Decide? {
        DecideIsExpected(t, s);
      }
    }
  }

  lemma StartUnexpected(now: int)
    ensures NoneUnexpected(Start(now))
  {
  }

  lemma RemovedIsAskable(t: Tiers, s: State, st: Step)
    requires AllSound(t, s) && Enabled(s, st)
    ensures st.LogAnswer? ==> s.cthread.req.verdict != Label.Dismissed
    ensures st.Decide? ==> s.vthread.VFresh?
  {
    hide Unjudged, RingSound, WindowSound, VerdictThreadSound, RowsSound, SlotsSound, VerdictsSound;
  }

  lemma DecideIsExpected(t: Tiers, s: State)
    requires AllSound(t, s) && s.vthread.VFresh?
    ensures Next(t, s, Decide).vthread != VIdle
  {
    hide AllSound;
    DecidedSound(t, s);
  }
}
