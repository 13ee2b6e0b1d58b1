/** consent.c's table of outstanding requests: thirty-two slots filled, answered, re-stamped and cleared in place. */
module Pending {
  import opened Labels

  const MAX_PENDING: nat := 32
  const TIMEOUT_HOUSE_ARREST: int := 1800
  const TIMEOUT_QUARANTINED: int := 600
  const JAILED_HARD_LIMIT: int := 86400
  const RENOTIFY_INTERVAL: int := 600

  type CaseId = string

  datatype Request = Request(id: CaseId, source: string, verdict: Label, score: real, queued: int, timeout: int)

  /** reply is 0 while unanswered, 1 for an approval, -1 for a denial. */
  datatype Slot = Slot(active: bool, req: Request, reply: int, lastNotified: int)

  const BLANK := Slot(false, Request("", "", Clean, 0.0, 0, 0), 0, 0)

  function TimeoutOf(verdict: Label): int {
    if verdict == Jailed then 0 else if verdict == HouseArrest then TIMEOUT_HOUSE_ARREST else TIMEOUT_QUARANTINED
  }

  function FreeSlot(t: seq<Slot>): (r: nat)
    ensures r <= |t| && (r < |t| ==> !t[r].active)
    ensures forall k :: 0 <= k < r ==> t[k].active
  {
    if t == [] || !t[0].active then 0 else 1 + FreeSlot(t[1..])
  }

  function SlotOf(t: seq<Slot>, id: CaseId): (r: nat)
    ensures r <= |t| && (r < |t| ==> t[r].active && t[r].req.id == id)
    ensures forall k :: 0 <= k < r ==> !(t[k].active && t[k].req.id == id)
  {
    if t == [] || (t[0].active && t[0].req.id == id) then 0 else 1 + SlotOf(t[1..], id)
  }

  predicate Holds(t: seq<Slot>, id: CaseId) {
    exists k :: 0 <= k < |t| && t[k].active && t[k].req.id == id
  }

  /** A full table drops the request. */
  function Enqueued(t: seq<Slot>, req: Request): (r: seq<Slot>)
    ensures |r| == |t|
  {
    var k := FreeSlot(t);
    if k == |t| then t else t[k := Slot(true, req, 0, 0)]
  }

  function Replied(t: seq<Slot>, id: CaseId, approved: bool): (r: seq<Slot>)
    ensures |r| == |t|
  {
    var k := SlotOf(t, id);
    if k == |t| then t else t[k := t[k].(reply := if approved then 1 else -1)]
  }

  function Released(t: seq<Slot>, i: nat): (r: seq<Slot>)
    requires i < |t|
    ensures |r| == |t|
  {
    t[i := t[i].(active := false)]
  }

  /** What one poll does to an unanswered request: hard limit, timeout, then (re-)notification. */
  function Kept(p: Slot, now: int): Slot {
    var expired := (p.req.timeout == 0 && now - p.req.queued > JAILED_HARD_LIMIT)
                || (p.req.timeout > 0 && now - p.req.queued >= p.req.timeout);
    var q := if expired then p.(req := p.req.(queued := now), lastNotified := 0) else p;
    if q.lastNotified == 0 || now - q.lastNotified >= RENOTIFY_INTERVAL then q.(lastNotified := now) else q
  }

  ghost predicate OneSlotEach(t: seq<Slot>) {
    forall i, j :: 0 <= i < j < |t| && t[i].active && t[j].active ==> t[i].req.id != t[j].req.id
  }

  /** The same question to the user; only the time it was last put may differ. */
  predicate SameAsk(a: Request, b: Request) {
    a == b.(queued := a.queued)
  }

  /** No timeout and no hard limit answers, changes or drops a request, and the user is told again in time. */
  lemma PollOnlyReminds(p: Slot, now: int)
    ensures Kept(p, now).active == p.active && Kept(p, now).reply == p.reply && SameAsk(Kept(p, now).req, p.req)
    ensures now != 0 ==> Kept(p, now).lastNotified != 0 && now - Kept(p, now).lastNotified < RENOTIFY_INTERVAL
  {
  }

  /** The request has waited as long as its verdict lets it: over a day, half an hour, ten minutes. */
  predicate Overdue(r: Request, now: int) {
    match r.verdict
    case Jailed => now - r.queued > 86400
    case HouseArrest => now - r.queued >= 1800
    case Quarantined => now - r.queued >= 600
    case _ => false
  }

  /**
    One poll starts an overdue request's waiting anew, and notifies the user of a request that is overdue, was not yet
    notified, or was notified ten minutes ago; it changes nothing else.
   */
  lemma {:induction false} KeptExactly(p: Slot, now: int)
    requires Containment(p.req.verdict) && p.req.timeout == TimeoutOf(p.req.verdict)
    ensures var told := Overdue(p.req, now) || p.lastNotified == 0 || now - p.lastNotified >= 600;
      Kept(p, now) == p.(req := p.req.(queued := if Overdue(p.req, now) then now else p.req.queued),
                         lastNotified := if told then now else p.lastNotified)
  {
  }

  /** Enqueueing keeps one slot per case exactly when the case has none yet, or finds the table full. */
  lemma {:induction false} EnqueueKeepsOneEach(t: seq<Slot>, req: Request)
    requires OneSlotEach(t)
    ensures OneSlotEach(Enqueued(t, req)) <==> FreeSlot(t) == |t| || !Holds(t, req.id)
  {
    var k, r := FreeSlot(t), Enqueued(t, req);
    if k < |t| && Holds(t, req.id) {
      var i :| 0 <= i < |t| && t[i].active && t[i].req.id == req.id;
      assert r[i] == t[i] && r[k].req == req;
      if i < k {
        assert !OneSlotEach(r);
      } else {
        assert !OneSlotEach(r);
      }
    }
  }

  lemma HoldsAfterEnqueue(t: seq<Slot>, req: Request, id: CaseId)
    ensures Holds(Enqueued(t, req), id) <==> Holds(t, id) || (FreeSlot(t) < |t| && req.id == id)
  {
    var k, r := FreeSlot(t), Enqueued(t, req);
    if Holds(t, id) {
      var i :| 0 <= i < |t| && t[i].active && t[i].req.id == id;
      assert r[i].active && r[i].req.id == id;
    }
    if k < |t| && req.id == id {
      assert r[k].active && r[k].req.id == id;
    }
  }

  /** How many slots are free. */
  function FreeCount(t: seq<Slot>): nat {
    if t == [] then 0 else FreeCount(t[..|t| - 1]) + (if t[|t| - 1].active then 0 else 1)
  }

  lemma NoneFree(t: seq<Slot>)
    ensures FreeCount(t) == 0 <==> FreeSlot(t) == |t|
  {
    FreeMeans(t);
    FreeSlotMeans(t);
  }

  lemma {:induction false} FreeMeans(t: seq<Slot>)
    ensures FreeCount(t) == 0 <==> forall k :: 0 <= k < |t| ==> t[k].active
  {
    if t != [] {
      var front := t[..|t| - 1];
      FreeMeans(front);
      assert forall k :: 0 <= k < |front| ==> front[k] == t[k];
    }
  }

  lemma FreeSlotMeans(t: seq<Slot>)
    ensures FreeSlot(t) == |t| <==> forall k :: 0 <= k < |t| ==> t[k].active
  {
  }

  lemma {:induction false} FreeAfter(t: seq<Slot>, k: nat, p: Slot)
    requires k < |t|
    ensures FreeCount(t[k := p]) + (if t[k].active then 0 else 1) == FreeCount(t) + (if p.active then 0 else 1)
    decreases |t|
  {
    var r := t[k := p];
    if k == |t| - 1 {
      assert r[..|t| - 1] == t[..|t| - 1];
    } else {
      assert r[..|t| - 1] == t[..|t| - 1][k := p];
      FreeAfter(t[..|t| - 1], k, p);
    }
  }

  /** Every request put into the table takes one free slot, as long as there is one. */
  lemma EnqueueTakesOne(t: seq<Slot>, req: Request)
    ensures FreeCount(Enqueued(t, req)) == if FreeCount(t) == 0 then 0 else FreeCount(t) - 1
  {
    NoneFree(t);
    var k := FreeSlot(t);
    if k < |t| {
      FreeAfter(t, k, Slot(true, req, 0, 0));
    }
  }

  lemma ReplyTakesNone(t: seq<Slot>, id: CaseId, approved: bool)
    ensures FreeCount(Replied(t, id, approved)) == FreeCount(t)
  {
    var k := SlotOf(t, id);
    if k < |t| {
      FreeAfter(t, k, t[k].(reply := if approved then 1 else -1));
    }
  }

  class PendingTable {
    const slots: array<Slot>

    ghost predicate Valid() {
      slots.Length == MAX_PENDING
    }

    constructor ()
      ensures Valid() && fresh(slots) && slots[..] == seq(MAX_PENDING, _ => BLANK)
    {
      slots := new Slot[MAX_PENDING](_ => BLANK);
      new;
      assert slots[..] == seq(MAX_PENDING, _ => BLANK);
    }

    method Enqueue(req: Request)
      requires Valid()
      modifies slots
      ensures slots[..] == Enqueued(old(slots[..]), req)
    {
      var k := 0;
      while k < slots.Length && slots[k].active
        invariant k <= slots.Length && forall i :: 0 <= i < k ==> slots[i].active
      {
        k := k + 1;
      }
      FreeSlotIs(slots[..], k);
      if k < slots.Length {
        slots[k] := Slot(true, req, 0, 0);
      }
    }

    method FindPending(id: CaseId) returns (k: nat)
      ensures k == SlotOf(slots[..], id)
    {
      k := 0;
      while k < slots.Length && !(slots[k].active && slots[k].req.id == id)
        invariant k <= slots.Length
        invariant forall i :: 0 <= i < k ==> !(slots[i].active && slots[i].req.id == id)
      {
        k := k + 1;
      }
      SlotOfIs(slots[..], id, k);
    }

    method Reply(id: CaseId, approved: bool)
      modifies slots
      ensures slots[..] == Replied(old(slots[..]), id, approved)
    {
      var k := FindPending(id);
      if k < slots.Length {
        slots[k] := slots[k].(reply := if approved then 1 else -1);
      }
    }

    /** The unanswered branch of the poll loop for one slot. */
    method Remind(i: nat, now: int)
      requires i < slots.Length
      modifies slots
      ensures slots[..] == old(slots[..])[i := Kept(old(slots[i]), now)]
    {
      var p := slots[i];
      if p.req.timeout == 0 {
        if now - p.req.queued > JAILED_HARD_LIMIT {
          slots[i] := slots[i].(req := p.req.(queued := now), lastNotified := 0);
        }
      }
      if p.req.timeout > 0 {
        if now - p.req.queued >= p.req.timeout {
          slots[i] := slots[i].(req := p.req.(queued := now), lastNotified := 0);
        }
      }
      if slots[i].lastNotified == 0 || now - slots[i].lastNotified >= RENOTIFY_INTERVAL {
        slots[i] := slots[i].(lastNotified := now);
      }
    }

    method Release(i: nat)
      requires i < slots.Length
      modifies slots
      ensures slots[..] == Released(old(slots[..]), i)
    {
      slots[i] := slots[i].(active := false);
    }
  }

  lemma FreeSlotIs(t: seq<Slot>, k: nat)
    requires k <= |t| && (k < |t| ==> !t[k].active) && forall i :: 0 <= i < k ==> t[i].active
    ensures FreeSlot(t) == k
  {
  }

  lemma SlotOfIs(t: seq<Slot>, id: CaseId, k: nat)
    requires k <= |t| && (k < |t| ==> t[k].active && t[k].req.id == id)
    requires forall i :: 0 <= i < k ==> !(t[i].active && t[i].req.id == id)
    ensures SlotOf(t, id) == k
  {
  }
}
