/**
 The ledger invariant is exact: whatever satisfies it is reached by a run, apart from the clock. All
 claims and completions of that run happen at clock reading 0.
 */
module Reachability {
  import opened Contract
  import opened Evidence
  import opened Campaign
  import opened Ledger
  import opened LedgerInvariant
  import opened LedgerTime

  /** The claim as a run at clock reading 0 leaves it. */
  function Retimed(setup: Setup, claim: Claim): Claim {
    Claim(claim.cell, claim.replicate, claim.spec, setup.binding, 0.0, MAX_CELL_SECONDS,
          if claim.outcome.Pending? then Pending
          else Finished(0.0, ResultStatus(claim.outcome.evidence), claim.outcome.valid, claim.outcome.evidence))
  }

  function RetimedAll(setup: Setup, ledger: seq<Claim>): (r: seq<Claim>)
    ensures |r| == |ledger|
  {
    seq(|ledger|, i requires 0 <= i < |ledger| => Retimed(setup, ledger[i]))
  }

  /** All claims are settled but possibly the last, which may be open. */
  ghost predicate Proper(setup: Setup, ledger: seq<Claim>) {
    forall i | 0 <= i < |ledger| :: SettledClaim(setup, ledger[i]) || (i == |ledger| - 1 && ledger[i].outcome.Pending?)
  }

  ghost predicate AllSettled(setup: Setup, ledger: seq<Claim>) {
    forall i | 0 <= i < |ledger| :: SettledClaim(setup, ledger[i])
  }

  lemma RetimedPrefix(setup: Setup, ledger: seq<Claim>, n: nat)
    requires n <= |ledger|
    ensures RetimedAll(setup, ledger)[..n] == RetimedAll(setup, ledger[..n])
  {
  }

  lemma RetimedSettled(setup: Setup, claim: Claim)
    requires SettledClaim(setup, claim)
    ensures SettledClaim(setup, Retimed(setup, claim))
    ensures RunOf(setup, Retimed(setup, claim)) == RunOf(setup, claim)
  {
  }

  lemma {:induction false} RetimedRuns(setup: Setup, ledger: seq<Claim>)
    requires AllSettled(setup, ledger)
    ensures CompletedRuns(setup, RetimedAll(setup, ledger)) == CompletedRuns(setup, ledger)
  {
    if ledger != [] {
      var n := |ledger| - 1;
      RetimedRuns(setup, ledger[..n]);
      RetimedPrefix(setup, ledger, n);
      RetimedSettled(setup, ledger[n]);
    }
  }

  lemma RetimedOrderly(setup: Setup, ledger: seq<Claim>)
    requires Orderly(setup, ledger) && Proper(setup, ledger)
    ensures Orderly(setup, RetimedAll(setup, ledger))
  {
    forall i | 0 <= i < |ledger| && SettledClaim(setup, ledger[i])
      ensures SettledClaim(setup, Retimed(setup, ledger[i]))
    {
      RetimedSettled(setup, ledger[i]);
    }
    forall i | 0 <= i < |ledger|
      ensures ClaimInRange(Retimed(setup, ledger[i]))
    {
      assert ClaimInRange(ledger[i]);
    }
    forall i, j | 0 <= i < j < |ledger|
      ensures KeyOf(Retimed(setup, ledger[i])) != KeyOf(Retimed(setup, ledger[j]))
    {
      assert KeyOf(ledger[i]) != KeyOf(ledger[j]);
    }
  }

  lemma RetimedTimed(setup: Setup, ledger: seq<Claim>)
    ensures Timed(RetimedAll(setup, ledger), 0.0)
  {
  }

  lemma PrefixInvariant(setup: Setup, ledger: seq<Claim>, n: nat)
    requires LedgerInv(setup, ledger) && n <= |ledger|
    ensures LedgerInv(setup, ledger[..n])
  {
    forall j | 0 <= j < n
      ensures GatedAt(setup, ledger[..n], j)
    {
      assert ledger[..n][..j] == ledger[..j];
      GatedStays(setup, ledger, ledger[..n], j);
    }
    SameRequestsPermitted(setup, ledger, ledger[..n]);
  }

  lemma OrderlyExtends(setup: Setup, ledger: seq<Claim>, claim: Claim)
    requires Orderly(setup, ledger) && AllSettled(setup, ledger)
    requires ClaimInRange(claim) && (SettledClaim(setup, claim) || claim.outcome.Pending?)
    requires forall i | 0 <= i < |ledger| :: KeyOf(ledger[i]) != KeyOf(claim)
    ensures Orderly(setup, ledger + [claim]) && Proper(setup, ledger + [claim])
    ensures SettledClaim(setup, claim) ==> AllSettled(setup, ledger + [claim])
  {
  }

  lemma RunsExtend(setup: Setup, ledger: seq<Claim>, claim: Claim)
    requires claim.outcome.Finished?
    ensures CompletedRuns(setup, ledger + [claim]) == CompletedRuns(setup, ledger)[KeyOf(claim) := RunOf(setup, claim)]
  {
    assert (ledger + [claim])[..|ledger|] == ledger;
  }

  /** An admitted claim with a free file extends a settled ledger. */
  lemma InvariantExtends(setup: Setup, ledger: seq<Claim>, claim: Claim)
    requires LedgerInv(setup, ledger) && AllSettled(setup, ledger)
    requires ClaimInRange(claim) && (SettledClaim(setup, claim) || claim.outcome.Pending?)
    requires forall i | 0 <= i < |ledger| :: KeyOf(ledger[i]) != KeyOf(claim)
    requires AuthorizeCellStart(setup, CompletedRuns(setup, ledger), claim.replicate, claim.spec)
    requires Permitted(setup, RequestOf(claim))
    ensures LedgerInv(setup, ledger + [claim]) && Proper(setup, ledger + [claim])
    ensures SettledClaim(setup, claim) ==> AllSettled(setup, ledger + [claim])
  {
    ClaimKeepsGated(setup, ledger, claim);
    ClaimKeepsPermitted(setup, ledger, claim);
    OrderlyExtends(setup, ledger, claim);
  }

  /** The evidence files of a settled ledger. */
  function DiskOf(ledger: seq<Claim>): Disk {
    if ledger == [] then map[]
    else
      var last, rest := ledger[|ledger| - 1], DiskOf(ledger[..|ledger| - 1]);
      if last.outcome.Finished? then rest[KeyOf(last) := last.outcome.evidence] else rest
  }

  lemma {:induction false} DiskHolds(setup: Setup, ledger: seq<Claim>, i: nat)
    requires Orderly(setup, ledger) && i < |ledger| && ledger[i].outcome.Finished?
    ensures KeyOf(ledger[i]) in DiskOf(ledger) && DiskOf(ledger)[KeyOf(ledger[i])] == ledger[i].outcome.evidence
    decreases |ledger|
  {
    var n := |ledger| - 1;
    if i < n {
      DiskHolds(setup, ledger[..n], i);
      assert KeyOf(ledger[i]) != KeyOf(ledger[n]);
    }
  }

  /** Everything about a claim but its own gate. */
  lemma FirstClaimOpen(setup: Setup, ledger: seq<Claim>)
    requires Orderly(setup, ledger) && AllSettled(setup, ledger)
    ensures !AnyPending(RetimedAll(setup, ledger))
    ensures Reload(setup, RetimedAll(setup, ledger), setup.binding, DiskOf(RetimedAll(setup, ledger)))
  {
    var again := RetimedAll(setup, ledger);
    RetimedOrderly(setup, ledger);
    forall c | c in again
      ensures c.outcome.Finished? && Reloads(setup, c, setup.binding, DiskOf(again))
    {
      var i :| 0 <= i < |again| && again[i] == c;
      RetimedSettled(setup, ledger[i]);
      DiskHolds(setup, again, i);
    }
  }

  lemma KeyIsNew(setup: Setup, ledger: seq<Claim>, claim: Claim)
    requires Orderly(setup, ledger + [claim])
    ensures !Used(RetimedAll(setup, ledger), KeyOf(claim))
  {
    var extended, again := ledger + [claim], RetimedAll(setup, ledger);
    forall c | c in again
      ensures KeyOf(c) != KeyOf(claim)
    {
      var i :| 0 <= i < |ledger| && again[i] == c;
      assert KeyOf(extended[i]) != KeyOf(extended[|ledger|]);
    }
  }

  lemma GatePassesAgain(setup: Setup, ledger: seq<Claim>, claim: Claim)
    requires Gated(setup, ledger + [claim]) && AllSettled(setup, ledger)
    ensures AuthorizeCellStart(setup, CompletedRuns(setup, RetimedAll(setup, ledger)), claim.replicate, claim.spec)
  {
    var extended, n := ledger + [claim], |ledger|;
    assert extended[..n] == ledger && extended[n] == claim;
    assert GatedAt(setup, extended, n);
    RetimedRuns(setup, ledger);
  }

  lemma Claimable(setup: Setup, ledger: seq<Claim>, claim: Claim)
    requires LedgerInv(setup, ledger + [claim]) && AllSettled(setup, ledger)
    ensures var again := RetimedAll(setup, ledger);
            var request := Request(claim.cell, claim.replicate, claim.spec, setup.binding);
            OtherwiseClaimable(setup, again, DiskOf(again), request, 0.0) && FirstClaimedAt(again, 0.0) <= 0.0
  {
    var extended, again := ledger + [claim], RetimedAll(setup, ledger);
    assert extended[..|ledger|] == ledger && ClaimInRange(extended[|ledger|]);
    PrefixInvariant(setup, extended, |ledger|);
    FirstClaimOpen(setup, ledger);
    RetimedTimed(setup, ledger);
    KeyIsNew(setup, ledger, claim);
    if ledger != [] {
      FirstIsFirst(again, 0.0, 0.0);
    }
  }

  /** The open claim that a run at clock reading 0 makes. */
  function Opened(setup: Setup, claim: Claim): Claim {
    Claim(claim.cell, claim.replicate, claim.spec, setup.binding, 0.0, MAX_CELL_SECONDS, Pending)
  }

  lemma ClaimAllowed(setup: Setup, ledger: seq<Claim>, claim: Claim, again: seq<Claim>, request: Request)
    requires LedgerInv(setup, ledger + [claim]) && AllSettled(setup, ledger)
    requires again == RetimedAll(setup, ledger)
    requires request == Request(claim.cell, claim.replicate, claim.spec, setup.binding)
    ensures MayClaim(setup, again, DiskOf(again), request, 0.0)
    ensures NewClaim(again, request, 0.0) == Opened(setup, claim)
  {
    Claimable(setup, ledger, claim);
    GatePassesAgain(setup, ledger, claim);
    RetimedTimed(setup, ledger);
    CumulativeNeverBinds(again, 0.0, request, 0.0);
    BudgetAllows(setup, ledger, claim, again, request);
  }

  lemma BudgetAllows(setup: Setup, ledger: seq<Claim>, claim: Claim, again: seq<Claim>, request: Request)
    requires LedgerInv(setup, ledger + [claim]) && AllSettled(setup, ledger)
    requires again == RetimedAll(setup, ledger) && OtherwiseClaimable(setup, again, DiskOf(again), request, 0.0)
    ensures WithinBudget(again + [NewClaim(again, request, 0.0)]) && NewClaim(again, request, 0.0).deadline > 0.0
  {
    assert (ledger + [claim])[..|ledger|] == ledger;
    PrefixInvariant(setup, ledger + [claim], |ledger|);
    RetimedOrderly(setup, ledger);
    RetimedTimed(setup, ledger);
    BudgetFollows(setup, again, 0.0, DiskOf(again), request, 0.0);
  }

  lemma ClaimTaken(setup: Setup, ledger: seq<Claim>, claim: Claim, s: State)
    requires LedgerInv(setup, ledger + [claim]) && AllSettled(setup, ledger)
    requires s.ledger == RetimedAll(setup, ledger) && s.clock == 0.0
    ensures var request := Request(claim.cell, claim.replicate, claim.spec, setup.binding);
            Takes(setup, s, DoClaim(request, DiskOf(s.ledger)),
                  State(s.ledger + [Opened(setup, claim)], 0.0, s.alive + {KeyOf(claim)}))
  {
    var request := Request(claim.cell, claim.replicate, claim.spec, setup.binding);
    PermittedLast(setup, ledger, claim, request);
    ClaimAllowed(setup, ledger, claim, s.ledger, request);
  }

  lemma PermittedLast(setup: Setup, ledger: seq<Claim>, claim: Claim, request: Request)
    requires AllPermitted(setup, ledger + [claim])
    requires request == Request(claim.cell, claim.replicate, claim.spec, setup.binding)
    ensures Permitted(setup, request) && RequestOf(claim) == request
  {
    assert PermittedAt(setup, ledger + [claim], |ledger|);
  }

  lemma InTimeReport(setup: Setup, ledger: seq<Claim>, claim: Claim, report: Report)
    requires SettledClaim(setup, claim)
    requires report == Report(|ledger|, 0.0, false, ResultStatus(claim.outcome.evidence), claim.outcome.evidence)
    ensures var open := RetimedAll(setup, ledger) + [Opened(setup, claim)];
            && MayComplete(setup, open, report, 0.0)
            && Finalized(setup, open, report, 0.0) == Retimed(setup, claim)
  {
    var again := RetimedAll(setup, ledger);
    var open := again + [Opened(setup, claim)];
    assert open == RetimedAll(setup, ledger + [claim.(outcome := Pending)]);
    RetimedTimed(setup, ledger + [claim.(outcome := Pending)]);
    FirstIsFirst(open, 0.0, 0.0);
    DurationWithinWall(open, 0.0);
    NoBusyTime(setup, ledger + [claim.(outcome := Pending)]);
    assert open[|ledger|] == Opened(setup, claim);
  }

  lemma {:induction false} NoBusyTime(setup: Setup, ledger: seq<Claim>)
    ensures TotalDuration(RetimedAll(setup, ledger)) == 0.0
  {
    if ledger != [] {
      RetimedPrefix(setup, ledger, |ledger| - 1);
      NoBusyTime(setup, ledger[..|ledger| - 1]);
    }
  }

  lemma CompletionTaken(setup: Setup, ledger: seq<Claim>, claim: Claim, s: State) returns (report: Report)
    requires SettledClaim(setup, claim)
    requires s.ledger == RetimedAll(setup, ledger) + [Opened(setup, claim)] && KeyOf(claim) in s.alive
    ensures Takes(setup, s, DoComplete(report),
                  State(RetimedAll(setup, ledger + [claim]), 0.0, s.alive - {KeyOf(claim)}))
  {
    report := Report(|ledger|, 0.0, false, ResultStatus(claim.outcome.evidence), claim.outcome.evidence);
    InTimeReport(setup, ledger, claim, report);
    assert RetimedAll(setup, ledger + [claim]) == RetimedAll(setup, ledger) + [Retimed(setup, claim)];
    assert KeyOf(s.ledger[report.index]) == KeyOf(claim);
  }

  ghost predicate Reaches(setup: Setup, states: seq<State>, steps: seq<Step>, ledger: seq<Claim>) {
    && IsRun(setup, states, steps)
    && (forall i | 0 <= i < |states| :: states[i].clock == 0.0)
    && states[|states| - 1].ledger == ledger
  }

  lemma StepOfExtended(setup: Setup, states: seq<State>, steps: seq<Step>, step: Step, s: State, i: nat)
    requires IsRun(setup, states, steps) && Takes(setup, states[|states| - 1], step, s) && i <= |steps|
    ensures Takes(setup, (states + [s])[i], (steps + [step])[i], (states + [s])[i + 1])
  {
    if i < |steps| {
      RunStep(setup, states, steps, i);
    }
  }

  lemma RunGrows(setup: Setup, states: seq<State>, steps: seq<Step>, step: Step, s: State)
    requires IsRun(setup, states, steps) && Takes(setup, states[|states| - 1], step, s)
    ensures IsRun(setup, states + [s], steps + [step])
  {
    var states', steps' := states + [s], steps + [step];
    forall i: nat | i < |steps'|
      ensures Takes(setup, states'[i], steps'[i], states'[i + 1])
    {
      StepOfExtended(setup, states, steps, step, s, i);
    }
  }

  lemma RunExtends(setup: Setup, states: seq<State>, steps: seq<Step>, step: Step, s: State)
    requires IsRun(setup, states, steps) && Takes(setup, states[|states| - 1], step, s)
    requires s.clock == 0.0 && forall i | 0 <= i < |states| :: states[i].clock == 0.0
    ensures Reaches(setup, states + [s], steps + [step], s.ledger)
  {
    RunGrows(setup, states, steps, step, s);
  }

  /** Every proper ledger that satisfies the invariant is, up to its clock readings, the ledger of a run. */
  lemma {:induction false} InvariantIsReached(setup: Setup, ledger: seq<Claim>)
    returns (states: seq<State>, steps: seq<Step>)
    requires LedgerInv(setup, ledger) && Proper(setup, ledger)
    ensures Reaches(setup, states, steps, RetimedAll(setup, ledger))
    decreases |ledger|
  {
    if ledger == [] {
      states, steps := [INITIAL], [];
    } else {
      var n := |ledger| - 1;
      var rest, claim := ledger[..n], ledger[n];
      assert ledger == rest + [claim];
      PrefixInvariant(setup, ledger, n);
      states, steps := InvariantIsReached(setup, rest);
      states, steps := ReachNext(setup, rest, claim, states, steps);
    }
  }

  lemma ReachNext(setup: Setup, ledger: seq<Claim>, claim: Claim, states: seq<State>, steps: seq<Step>)
    returns (states': seq<State>, steps': seq<Step>)
    requires LedgerInv(setup, ledger + [claim]) && AllSettled(setup, ledger)
    requires SettledClaim(setup, claim) || claim.outcome.Pending?
    requires Reaches(setup, states, steps, RetimedAll(setup, ledger))
    ensures Reaches(setup, states', steps', RetimedAll(setup, ledger + [claim]))
  {
    var s := states[|states| - 1];
    var request := Request(claim.cell, claim.replicate, claim.spec, setup.binding);
    var open := State(s.ledger + [Opened(setup, claim)], 0.0, s.alive + {KeyOf(claim)});
    ClaimTaken(setup, ledger, claim, s);
    RunExtends(setup, states, steps, DoClaim(request, DiskOf(s.ledger)), open);
    states', steps' := states + [open], steps + [DoClaim(request, DiskOf(s.ledger))];
    if claim.outcome.Pending? {
      assert RetimedAll(setup, ledger + [claim]) == open.ledger;
    } else {
      var report := CompletionTaken(setup, ledger, claim, open);
      var done := State(RetimedAll(setup, ledger + [claim]), 0.0, open.alive - {KeyOf(claim)});
      RunExtends(setup, states', steps', DoComplete(report), done);
      states', steps' := states' + [done], steps' + [DoComplete(report)];
    }
  }

  // ---------------------------------------------------------------- what a run adds to a ledger

  /** The ledger a run ends with. */
  function FinalLedger(states: seq<State>): seq<Claim>
    requires states != []
  {
    states[|states| - 1].ledger
  }

  /** Nothing was removed or rewritten: the same requests, and the same evidence where there was any. */
  ghost predicate SameHistory(ledger: seq<Claim>, final: seq<Claim>) {
    && |ledger| <= |final|
    && forall k | 0 <= k < |ledger| ::
         && final[k].cell == ledger[k].cell && final[k].replicate == ledger[k].replicate
         && final[k].spec == ledger[k].spec
         && (ledger[k].outcome.Finished? ==>
               final[k].outcome.Finished? && final[k].outcome.evidence == ledger[k].outcome.evidence)
  }

  lemma RetimedHistory(setup: Setup, ledger: seq<Claim>, final: seq<Claim>)
    requires SameHistory(ledger, final)
    ensures SameHistory(ledger, RetimedAll(setup, final))
  {
  }

  lemma SameRun(setup: Setup, a: Claim, b: Claim)
    requires a.outcome.Finished? && b.outcome.Finished? && b.spec == a.spec
    requires b.outcome.evidence == a.outcome.evidence
    ensures RunOf(setup, b) == RunOf(setup, a)
  {
  }

  lemma {:induction false} SameEvidence(setup: Setup, ledger: seq<Claim>, final: seq<Claim>, n: nat)
    requires SameHistory(ledger, final) && n <= |ledger|
    requires forall k | 0 <= k < n :: ledger[k].outcome.Finished?
    ensures CompletedRuns(setup, final[..n]) == CompletedRuns(setup, ledger[..n])
  {
    if n > 0 {
      SameEvidence(setup, ledger, final, n - 1);
      assert ledger[..n][..n - 1] == ledger[..n - 1] && final[..n][..n - 1] == final[..n - 1];
      SameRun(setup, ledger[n - 1], final[n - 1]);
    }
  }
}
