/** What every reachable ledger keeps, whatever the interleaving of claims, completions and crashes. */
module LedgerInvariant {
  import opened Contract
  import opened Evidence
  import opened Campaign
  import opened Ledger

  // ---------------------------------------------------------------- runs

  /** The ledger, the last clock reading, and the processes that are still alive. */
  datatype State = State(ledger: seq<Claim>, clock: real, alive: set<Key>)

  datatype Step =
    | DoClaim(request: Request, disk: Disk)
    | DoComplete(report: Report)
    | DoCrash(key: Key)

  const INITIAL: State := State([], 0.0, {})

  /**
   One atomic step; a process claims only what the authority permits. A refused claim or completion leaves
   the ledger as it is; the process of a failed completion is gone, which is a crash. The clock reading is
   whatever the step observed.
   */
  ghost predicate Takes(setup: Setup, s: State, step: Step, s': State) {
    match step
    case DoClaim(request, disk) =>
      && Permitted(setup, request)
      && MayClaim(setup, s.ledger, disk, request, s'.clock)
      && s'.ledger == s.ledger + [NewClaim(s.ledger, request, s'.clock)]
      && s'.alive == s.alive + {(request.cell, request.replicate)}
    case DoComplete(report) =>
      && MayComplete(setup, s.ledger, report, s'.clock)
      && KeyOf(s.ledger[report.index]) in s.alive
      && s'.ledger == s.ledger[report.index := Finalized(setup, s.ledger, report, s'.clock)]
      && s'.alive == s.alive - {KeyOf(s.ledger[report.index])}
    case DoCrash(key) =>
      && s'.ledger == s.ledger
      && s'.alive == s.alive - {key}
  }

  ghost predicate IsRun(setup: Setup, states: seq<State>, steps: seq<Step>) {
    && |states| == |steps| + 1
    && states[0] == INITIAL
    && forall i | 0 <= i < |steps| :: Takes(setup, states[i], steps[i], states[i + 1])
  }

  // ---------------------------------------------------------------- the invariant

  ghost predicate SettledClaim(setup: Setup, claim: Claim) {
    claim.outcome.Finished? && claim.outcome.valid && SoundRun(setup, claim)
  }

  function RequestOf(claim: Claim): Request {
    Request(claim.cell, claim.replicate, claim.spec, claim.binding)
  }

  predicate ClaimInRange(claim: Claim) {
    RequestInRange(RequestOf(claim))
  }

  /** No claim file is ever used twice, and only the last claim can be unfinished or invalid. */
  ghost predicate Orderly(setup: Setup, ledger: seq<Claim>) {
    && (forall i, j | 0 <= i < j < |ledger| :: KeyOf(ledger[i]) != KeyOf(ledger[j]))
    && (forall i | 0 <= i < |ledger| :: ClaimInRange(ledger[i]))
    && (forall i | 0 <= i < |ledger| - 1 :: SettledClaim(setup, ledger[i]))
    && (forall i | 0 <= i < |ledger| ::
          ledger[i].outcome.Finished? && ledger[i].outcome.valid ==> SettledClaim(setup, ledger[i]))
  }

  /** Entry `j` passes the gate on exactly the entries before it. */
  ghost predicate GatedAt(setup: Setup, ledger: seq<Claim>, j: int)
    requires 0 <= j < |ledger|
  {
    AuthorizeCellStart(setup, CompletedRuns(setup, ledger[..j]), ledger[j].replicate, ledger[j].spec)
  }

  ghost predicate Gated(setup: Setup, ledger: seq<Claim>) {
    forall j | 0 <= j < |ledger| :: GatedAt(setup, ledger, j)
  }

  /** The authority permits entry `j`. */
  ghost predicate PermittedAt(setup: Setup, ledger: seq<Claim>, j: int)
    requires 0 <= j < |ledger|
  {
    Permitted(setup, RequestOf(ledger[j]))
  }

  /** A settled claim under the campaign's binding is one the authority permits. */
  lemma SettledPermitted(setup: Setup, claim: Claim)
    requires SettledClaim(setup, claim) && claim.binding == setup.binding
    ensures Permitted(setup, RequestOf(claim))
  {
  }

  ghost predicate AllPermitted(setup: Setup, ledger: seq<Claim>) {
    forall j | 0 <= j < |ledger| :: PermittedAt(setup, ledger, j)
  }

  ghost predicate LedgerInv(setup: Setup, ledger: seq<Claim>) {
    Orderly(setup, ledger) && Gated(setup, ledger) && AllPermitted(setup, ledger)
  }

  lemma ClaimKeepsOrderly(setup: Setup, ledger: seq<Claim>, binding: Binding, disk: Disk, claim: Claim)
    requires Orderly(setup, ledger)
    requires !AnyPending(ledger) && Reload(setup, ledger, binding, disk) && !Used(ledger, KeyOf(claim))
    requires ClaimInRange(claim) && claim.outcome.Pending?
    ensures Orderly(setup, ledger + [claim])
  {
    forall i | 0 <= i < |ledger|
      ensures SettledClaim(setup, ledger[i]) && KeyOf(ledger[i]) != KeyOf(claim)
    {
      assert ledger[i] in ledger;
    }
  }

  /** Entries that stand where they stood, with the same request, stay gated. */
  lemma GatedStays(setup: Setup, ledger: seq<Claim>, ledger': seq<Claim>, j: int)
    requires 0 <= j < |ledger| && j < |ledger'|
    requires ledger'[..j] == ledger[..j]
    requires ledger'[j].replicate == ledger[j].replicate && ledger'[j].spec == ledger[j].spec
    requires GatedAt(setup, ledger, j)
    ensures GatedAt(setup, ledger', j)
  {
  }

  lemma ClaimKeepsGated(setup: Setup, ledger: seq<Claim>, claim: Claim)
    requires Gated(setup, ledger)
    requires AuthorizeCellStart(setup, CompletedRuns(setup, ledger), claim.replicate, claim.spec)
    ensures Gated(setup, ledger + [claim])
  {
    var extended := ledger + [claim];
    assert extended[..|ledger|] == ledger && extended[|ledger|] == claim;
    forall j | 0 <= j < |ledger|
      ensures GatedAt(setup, extended, j)
    {
      assert extended[..j] == ledger[..j];
      GatedStays(setup, ledger, extended, j);
    }
  }

  lemma ClaimKeepsPermitted(setup: Setup, ledger: seq<Claim>, claim: Claim)
    requires AllPermitted(setup, ledger) && Permitted(setup, RequestOf(claim))
    ensures AllPermitted(setup, ledger + [claim])
  {
    forall j | 0 <= j < |ledger|
      ensures PermittedAt(setup, ledger + [claim], j)
    {
      assert PermittedAt(setup, ledger, j);
    }
  }

  lemma SameRequestsPermitted(setup: Setup, ledger: seq<Claim>, ledger': seq<Claim>)
    requires AllPermitted(setup, ledger) && |ledger'| <= |ledger|
    requires forall j | 0 <= j < |ledger'| :: RequestOf(ledger'[j]) == RequestOf(ledger[j])
    ensures AllPermitted(setup, ledger')
  {
    forall j | 0 <= j < |ledger'|
      ensures PermittedAt(setup, ledger', j)
    {
      assert PermittedAt(setup, ledger, j);
    }
  }

  /** A completion is always one of the last claim, and finalizes it in place. */
  lemma CompletionKeepsInvariant(setup: Setup, ledger: seq<Claim>, report: Report, now: real)
    requires LedgerInv(setup, ledger)
    requires MayComplete(setup, ledger, report, now)
    ensures report.index == |ledger| - 1
    ensures LedgerInv(setup, ledger[report.index := Finalized(setup, ledger, report, now)])
  {
    assert !SettledClaim(setup, ledger[report.index]);
    var updated := ledger[report.index := Finalized(setup, ledger, report, now)];
    forall j | 0 <= j < |updated|
      ensures GatedAt(setup, updated, j)
    {
      assert updated[..j] == ledger[..j];
      GatedStays(setup, ledger, updated, j);
    }
    SameRequestsPermitted(setup, ledger, updated);
  }

  lemma StepKeepsInvariant(setup: Setup, s: State, step: Step, s': State)
    requires LedgerInv(setup, s.ledger)
    requires Takes(setup, s, step, s')
    ensures LedgerInv(setup, s'.ledger)
  {
    match step {
      case DoClaim(request, disk) =>
        var claim := NewClaim(s.ledger, request, s'.clock);
        ClaimKeepsOrderly(setup, s.ledger, request.binding, disk, claim);
        ClaimKeepsGated(setup, s.ledger, claim);
        ClaimKeepsPermitted(setup, s.ledger, claim);
      case DoComplete(report) => CompletionKeepsInvariant(setup, s.ledger, report, s'.clock);
      case DoCrash(key) =>
    }
  }

  lemma RunStep(setup: Setup, states: seq<State>, steps: seq<Step>, n: nat)
    requires IsRun(setup, states, steps) && n < |steps|
    ensures Takes(setup, states[n], steps[n], states[n + 1])
  {
  }

  lemma {:induction false} RunKeepsInvariant(setup: Setup, states: seq<State>, steps: seq<Step>, n: nat)
    requires IsRun(setup, states, steps) && n < |states|
    ensures LedgerInv(setup, states[n].ledger)
  {
    if n > 0 {
      RunKeepsInvariant(setup, states, steps, n - 1);
      RunStep(setup, states, steps, n - 1);
      StepKeepsInvariant(setup, states[n - 1], steps[n - 1], states[n]);
    }
  }
}
