/** db.c: the tables of gaveld.db that scoring and judgement use, each statement as one update or one question. */
module Database {
  import opened Labels
  import opened SignalLog
  import opened Pending
  import opened Court
  import opened Scoring
  import opened Counting

  /** Every row once, in the order a SELECT yields them. */
  ghost predicate ScansThreats(rows: map<string, Threat>, scan: seq<string>) {
    && (forall k :: 0 <= k < |scan| ==> scan[k] in rows)
    && (forall i, k :: 0 <= i < k < |scan| ==> scan[i] != scan[k])
    && (forall source :: source in rows ==> source in scan)
  }

  /** Every row once, oldest first: ORDER BY queued ASC. */
  ghost predicate ScansConsents(rows: map<CaseId, Request>, scan: seq<Request>) {
    && (forall k :: 0 <= k < |scan| ==> scan[k].id in rows && rows[scan[k].id] == scan[k])
    && (forall i, k :: 0 <= i < k < |scan| ==> scan[i].id != scan[k].id && scan[i].queued <= scan[k].queued)
    && (forall id :: id in rows ==> exists k :: 0 <= k < |scan| && scan[k].id == id)
  }

  lemma ScanCounts(rows: map<CaseId, Request>, scan: seq<Request>)
    requires ScansConsents(rows, scan)
    ensures |scan| == |rows|
  {
    var ids := seq(|scan|, k requires 0 <= k < |scan| => scan[k].id);
    forall id ensures id in rows.Keys <==> id in ids {
      if id in rows {
        var k :| 0 <= k < |scan| && scan[k].id == id;
        assert ids[k] == id;
      }
    }
    Listed(ids, rows.Keys);
    assert |rows| == |rows.Keys|;
  }

  /** The rows a bounded scan in queue order returns are the oldest ones. */
  lemma {:induction false} FirstAreOldest(rows: map<CaseId, Request>, scan: seq<Request>, n: nat)
    requires ScansConsents(rows, scan) && n == (if |scan| < MAX_PENDING then |scan| else MAX_PENDING)
    ensures Oldest(rows, scan[..n])
  {
    ScanCounts(rows, scan);
    hide ScansConsents;
    var list := scan[..n];
    assert (forall k :: 0 <= k < |list| ==> list[k].id in rows && rows[list[k].id] == list[k])
        && (forall j, k :: 0 <= j < k < |list| ==> list[j].id != list[k].id && list[j].queued <= list[k].queued) by {
      FrontOfScan(rows, scan, n);
    }
    forall id | id in rows && (forall k :: 0 <= k < |list| ==> list[k].id != id)
      ensures forall k :: 0 <= k < |list| ==> list[k].queued <= rows[id].queued
    {
      LeftOutOfList(rows, scan, n, list, id);
    }
  }

  lemma FrontOfScan(rows: map<CaseId, Request>, scan: seq<Request>, n: nat)
    requires ScansConsents(rows, scan) && n <= |scan|
    ensures forall k :: 0 <= k < n ==> scan[..n][k].id in rows && rows[scan[..n][k].id] == scan[..n][k]
    ensures forall j, k :: 0 <= j < k < n ==>
              scan[..n][j].id != scan[..n][k].id && scan[..n][j].queued <= scan[..n][k].queued
  {
  }

  lemma LeftOutOfList(rows: map<CaseId, Request>, scan: seq<Request>, n: nat, list: seq<Request>, id: CaseId)
    requires ScansConsents(rows, scan) && n <= |scan| && list == scan[..n] && id in rows
    requires forall k :: 0 <= k < |list| ==> list[k].id != id
    ensures forall k :: 0 <= k < |list| ==> list[k].queued <= rows[id].queued
  {
    hide ScansConsents;
    forall k | 0 <= k < n ensures scan[k].id != id {
      assert list[k].id != id;
    }
    LeftOutIsYounger(rows, scan, n, id);
  }

  lemma LeftOutIsYounger(rows: map<CaseId, Request>, scan: seq<Request>, n: nat, id: CaseId)
    requires ScansConsents(rows, scan) && n <= |scan| && id in rows
    requires forall k :: 0 <= k < n ==> scan[k].id != id
    ensures forall k :: 0 <= k < n ==> scan[k].queued <= rows[id].queued
  {
    var k :| 0 <= k < |scan| && scan[k].id == id;
  }

  class Db {
    var threats: map<string, Threat>
    var window: seq<Signal>
    var verdicts: seq<VerdictRow>
    var consents: map<CaseId, Request>

    constructor ()
      ensures threats == map[] && window == [] && verdicts == [] && consents == map[]
    {
      threats, window, verdicts, consents := map[], [], [], map[];
    }

    method ThreatLoad(source: string) returns (rec: Threat)
      ensures rec == RowOf(threats, source)
    {
      rec := if source in threats then threats[source] else NEW_THREAT;
    }

    method ThreatUpsert(source: string, rec: Threat)
      modifies this`threats
      ensures threats == old(threats)[source := rec]
    {
      threats := threats[source := rec];
    }

    /** At most `max` rows, in the order of the scan. */
    method ThreatAll(scan: seq<string>, max: nat) returns (out: seq<(string, Threat)>)
      requires ScansThreats(threats, scan)
      ensures |out| == if |scan| < max then |scan| else max
      ensures forall k :: 0 <= k < |out| ==> out[k] == (scan[k], threats[scan[k]])
    {
      out := [];
      while |out| < |scan| && |out| < max
        invariant |out| <= |scan| && |out| <= max
        invariant forall k :: 0 <= k < |out| ==> out[k] == (scan[k], threats[scan[k]])
      {
        out := out + [(scan[|out|], threats[scan[|out|]])];
      }
    }

    method SignalInsert(source: string, name: string, epoch: int)
      modifies this`window
      ensures window == old(window) + [Signal(source, name, epoch)]
    {
      window := window + [Signal(source, name, epoch)];
    }

    method SignalPrune(cutoff: int)
      modifies this`window
      ensures window == Pruned(old(window), cutoff)
    {
      window := Pruned(window, cutoff);
    }

    method SignalDistinct(source: string, since: int) returns (names: seq<string>)
      ensures names == Distinct(window, source, since)
    {
      names := Distinct(window, source, since);
    }

    method SignalActive(source: string, since: int) returns (active: bool)
      ensures active == Active(window, source, since)
    {
      active := Active(window, source, since);
    }

    method VerdictInsert(v: VerdictRow)
      modifies this`verdicts
      ensures verdicts == old(verdicts) + [v]
    {
      verdicts := verdicts + [v];
    }

    method VerdictCountRecent(source: string, verdict: Label, since: int) returns (n: nat)
      ensures n == CountRecent(verdicts, source, verdict, since)
    {
      n := CountRecent(verdicts, source, verdict, since);
    }

    method ConsentInsert(req: Request)
      modifies this`consents
      ensures consents == old(consents)[req.id := req]
    {
      consents := consents[req.id := req];
    }

    method ConsentRemove(id: CaseId)
      modifies this`consents
      ensures consents == old(consents) - {id}
    {
      consents := consents - {id};
    }

    /** The oldest requests, as many as the pending table has slots. */
    method ConsentPending(scan: seq<Request>) returns (out: seq<Request>)
      requires ScansConsents(consents, scan)
      ensures Oldest(consents, out)
    {
      out := [];
      while |out| < |scan| && |out| < MAX_PENDING
        invariant |out| <= |scan| && |out| <= MAX_PENDING && out == scan[..|out|]
      {
        out := out + [scan[|out|]];
      }
      FirstAreOldest(consents, scan, |out|);
    }
  }
}
