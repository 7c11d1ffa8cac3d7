/** The claim directory as the program keeps it: the two locked transitions and the loops they run. */
module CampaignLedger {
  import opened Basics
  import opened Contract
  import opened Evidence
  import opened Campaign
  import opened Ledger

  lemma {:induction false} CountGrows(records: seq<Claim>, n: nat, cell: Cell)
    requires n <= |records|
    ensures CellCount(records[..n], cell) <= CellCount(records, cell)
    decreases |records| - n
  {
    if n < |records| {
      assert records[..n + 1][..n] == records[..n];
      CountGrows(records, n + 1, cell);
    } else {
      assert records[..n] == records;
    }
  }

  function CountIn(counts: map<Cell, nat>, cell: Cell): nat {
    if cell in counts then counts[cell] else 0
  }

  /** `counts` holds the claims of every CUDA cell, none above its cap. */
  ghost predicate Tallied(records: seq<Claim>, counts: map<Cell, nat>) {
    forall c: Cell | c != CpuReference :: CellCount(records, c) == CountIn(counts, c) <= CellCap(c)
  }

  lemma CountStep(records: seq<Claim>, i: nat, cell: Cell)
    requires i < |records|
    ensures TotalDuration(records[..i + 1]) == TotalDuration(records[..i]) + DurationOf(records[i])
    ensures CellCount(records[..i + 1], cell)
            == CellCount(records[..i], cell) + (if records[i].cell == cell then 1 else 0)
  {
    assert records[..i + 1][..i] == records[..i];
  }

  /** Counting one more record keeps the tally, as long as no cap is passed. */
  lemma TallyStep(records: seq<Claim>, i: nat, counts: map<Cell, nat>, counts': map<Cell, nat>)
    requires i < |records| && Tallied(records[..i], counts)
    requires var cell := records[i].cell;
             if cell == CpuReference then counts' == counts
             else counts' == counts[cell := CountIn(counts, cell) + 1] && counts'[cell] <= CellCap(cell)
    ensures Tallied(records[..i + 1], counts')
  {
    forall c: Cell | c != CpuReference
      ensures CellCount(records[..i + 1], c) == CountIn(counts', c) <= CellCap(c)
    {
      CountStep(records, i, c);
      assert CellCount(records[..i], c) == CountIn(counts, c) <= CellCap(c);
    }
  }

  lemma OverCap(records: seq<Claim>, record: Claim)
    requires record in records && record.cell != CpuReference
    requires CellCount(records, record.cell) > CellCap(record.cell)
    ensures !WithinBudget(records)
  {
  }

  lemma BudgetDecided(records: seq<Claim>, counts: map<Cell, nat>)
    requires Tallied(records, counts)
    requires forall k | 0 <= k < |records| :: 0.0 <= DurationOf(records[k]) <= MAX_CELL_SECONDS
    ensures WithinBudget(records) <==>
              && |records| - CellCount(records, CpuReference) <= MAX_CUDA_CELLS
              && CellCount(records, CpuReference) <= MAX_CPU_REFERENCE_PROCESSES
              && |records| <= MAX_TOTAL_PROCESSES
              && TotalDuration(records) <= MAX_CAMPAIGN_SECONDS
  {
  }

  /** `enforce_cell_budget`, which stops at the first record over its limit. */
  method EnforceCellBudget(records: seq<Claim>) returns (ok: bool)
    ensures ok <==> WithinBudget(records)
  {
    var cuda: nat, cpu: nat, total := 0, 0, 0.0;
    var counts: map<Cell, nat> := map[];
    for i := 0 to |records|
      invariant cpu == CellCount(records[..i], CpuReference) && cuda + cpu == i
      invariant total == TotalDuration(records[..i])
      invariant forall k | 0 <= k < i :: 0.0 <= DurationOf(records[k]) <= MAX_CELL_SECONDS
      invariant Tallied(records[..i], counts)
    {
      var record := records[i];
      assert record in records;
      CountStep(records, i, CpuReference);
      if DurationOf(record) < 0.0 || DurationOf(record) > MAX_CELL_SECONDS {
        return false;
      }
      total := total + DurationOf(record);
      if record.cell == CpuReference {
        cpu := cpu + 1;
        TallyStep(records, i, counts, counts);
      } else {
        ghost var before := counts;
        CountStep(records, i, record.cell);
        assert CellCount(records[..i], record.cell) == CountIn(before, record.cell);
        counts := counts[record.cell := CountIn(counts, record.cell) + 1];
        if counts[record.cell] > CellCap(record.cell) {
          CountGrows(records, i + 1, record.cell);
          OverCap(records, record);
          return false;
        }
        cuda := cuda + 1;
        TallyStep(records, i, before, counts);
      }
    }
    assert records[..|records|] == records;
    BudgetDecided(records, counts);
    return && cuda <= MAX_CUDA_CELLS && cpu <= MAX_CPU_REFERENCE_PROCESSES
           && cuda + cpu <= MAX_TOTAL_PROCESSES && total <= MAX_CAMPAIGN_SECONDS;
  }

  /** The earliest claim instant and the summed durations. */
  method Totals(claims: seq<Claim>, now: real) returns (first: real, total: real)
    ensures first == FirstClaimedAt(claims, now)
    ensures total == TotalDuration(claims)
  {
    first, total := now, 0.0;
    for i := 0 to |claims|
      invariant first == FirstClaimedAt(claims[..i], now)
      invariant total == TotalDuration(claims[..i])
    {
      assert claims[..i + 1][..i] == claims[..i];
      if i == 0 || claims[i].claimedAt < first {
        first := claims[i].claimedAt;
      }
      total := total + DurationOf(claims[i]);
    }
    assert claims[..|claims|] == claims;
  }

  /** `_load_completed_claims`: all completed evidence, or nothing once one record is not as it was. */
  method LoadCompletedClaims(setup: Setup, claims: seq<Claim>, binding: Binding, disk: Disk)
    returns (completed: Option<Completed>)
    ensures completed == if Reload(setup, claims, binding, disk) then Some(CompletedRuns(setup, claims)) else None
  {
    var loaded: Completed := map[];
    for i := 0 to |claims|
      invariant loaded == CompletedRuns(setup, claims[..i])
      invariant forall k | 0 <= k < i && claims[k].outcome.Finished? :: Reloads(setup, claims[k], binding, disk)
    {
      assert claims[..i + 1][..i] == claims[..i] && claims[i] in claims;
      if claims[i].outcome.Finished? {
        if !Reloads(setup, claims[i], binding, disk) {
          return None;
        }
        loaded := loaded[KeyOf(claims[i]) := RunOf(setup, claims[i])];
      }
    }
    assert claims[..|claims|] == claims;
    return Some(loaded);
  }

  datatype Completion = Refused | Overran | Recorded

  class ClaimDirectory {
    const setup: Setup
    var claims: seq<Claim>

    constructor (setup: Setup)
      ensures this.setup == setup && claims == []
    {
      this.setup := setup;
      claims := [];
    }

    /** `claim_single_cell_process`; the result is the deadline of the durable claim it left. */
    method ClaimCell(disk: Disk, request: Request, now: real) returns (deadline: Option<real>)
      modifies this
      ensures deadline.Some? <==> MayClaim(setup, old(claims), disk, request, now)
      ensures deadline.None? ==> claims == old(claims)
      ensures deadline.Some? ==>
                claims == old(claims) + [NewClaim(old(claims), request, now)]
                && deadline.value == NewClaim(old(claims), request, now).deadline > 0.0
    {
      if !RequestInRange(request) || AnyPending(claims) {
        return None;
      }
      var first, total := Totals(claims, now);
      if claims != [] && (now < first || now - first >= MAX_CAMPAIGN_SECONDS) {
        return None;
      }
      var completed := LoadCompletedClaims(setup, claims, request.binding, disk);
      if completed.None? || !AuthorizeCellStart(setup, completed.value, request.replicate, request.spec) {
        return None;
      }
      var limit := EffectiveDeadline(MAX_CAMPAIGN_SECONDS - (now - first), MAX_CAMPAIGN_SECONDS - total);
      var claim := Claim(request.cell, request.replicate, request.spec, request.binding, now, limit, Pending);
      assert claim == NewClaim(claims, request, now);
      var affordable := EnforceCellBudget(claims + [claim]);
      if !affordable || limit <= 0.0 || Used(claims, KeyOf(claim)) {
        return None;
      }
      claims := claims + [claim];
      return Some(limit);
    }

    /** `complete_cell_process_claim`; an overrun is recorded and then raised. */
    method CompleteClaim(report: Report, now: real) returns (result: Completion)
      modifies this
      ensures result == Refused <==> !MayComplete(setup, old(claims), report, now)
      ensures result == Refused ==> claims == old(claims)
      ensures result != Refused ==>
                && claims == old(claims)[report.index := Finalized(setup, old(claims), report, now)]
                && (result == Overran <==> Overrun(old(claims), old(claims)[report.index], report, now))
    {
      if report.index >= |claims| || !claims[report.index].outcome.Pending? {
        return Refused;
      }
      var claim := claims[report.index];
      var status := ResultStatus(report.evidence);
      if !EvidenceMatchesClaim(claim, report.evidence)
         || KeyOf(claim) !in setup.authority || claim.spec !in setup.authority[KeyOf(claim)]
         || !ResultMatches(report, status)
      {
        return Refused;
      }
      var first, total := Totals(claims, now);
      if now < first {
        return Refused;
      }
      var elapsed := now - claim.claimedAt;
      var overran := || now - first >= MAX_CAMPAIGN_SECONDS
                     || total + elapsed >= MAX_CAMPAIGN_SECONDS
                     || elapsed >= claim.deadline
                     || report.reportedDuration >= claim.deadline;
      var valid := !overran && EvidenceValid(report.evidence, setup.binding, claim.spec);
      var outcome := Finished(elapsed, if overran then CampaignLimitExceeded else status, valid, report.evidence);
      claims := claims[report.index := claim.(outcome := outcome)];
      return if overran then Overran else Recorded;
    }
  }
}
