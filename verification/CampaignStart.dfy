/** How a campaign starts: ledgers that hold a baseline and then M2 runs, built claim by claim. */
module CampaignStart {
  import opened Basics
  import opened Contract
  import opened Evidence
  import opened Campaign
  import opened AcceptedChain
  import opened Ledger
  import opened LedgerInvariant
  import opened Reachability
  import opened StageOrder
  import opened SampleEvidence

  /** The evidence is `m0` and `m2`, replicate by replicate, and nothing else. */
  ghost predicate Holds(completed: Completed, m0: seq<Run>, m2: seq<Run>) {
    && RunsFor(completed, M0) == m0 && RunsFor(completed, M2) == m2
    && forall k | k in completed :: (k.0 == M0 && 1 <= k.1 <= |m0|) || (k.0 == M2 && 1 <= k.1 <= |m2|)
  }

  /** A settled ledger of M0 and M2 claims, with the runs they reduce to. */
  ghost predicate Start(setup: Setup, ledger: seq<Claim>, m0: seq<Run>, m2: seq<Run>) {
    LedgerInv(setup, ledger) && AllSettled(setup, ledger) && Holds(CompletedRuns(setup, ledger), m0, m2)
  }

  lemma NothingElse(completed: Completed, m0: seq<Run>, m2: seq<Run>)
    requires Holds(completed, m0, m2)
    ensures forall cell: Cell | cell != M0 && cell != M2 :: RunsFor(completed, cell) == []
  {
    forall cell: Cell | cell != M0 && cell != M2
      ensures RunsFor(completed, cell) == []
    {
      RunsForSlots(completed, cell);
    }
  }

  lemma NextSlot(completed: Completed, cell: Cell, runs: seq<Run>, run: Run)
    requires RunsFor(completed, cell) == runs && |runs| < 3
    requires forall r | (cell, r) in completed :: 1 <= r <= |runs|
    ensures RunsFor(completed[(cell, |runs| + 1) := run], cell) == runs + [run]
  {
    RunsForSlots(completed, cell);
    RunsForSlots(completed[(cell, |runs| + 1) := run], cell);
  }

  lemma HoldsBaseline(completed: Completed, m0: seq<Run>, run: Run)
    requires Holds(completed, m0, []) && |m0| < 3
    ensures Holds(completed[(M0, |m0| + 1) := run], m0 + [run], [])
  {
    NextSlot(completed, M0, m0, run);
    RunsElsewhere(completed, (M0, |m0| + 1), run, M2);
  }

  lemma HoldsHalf(completed: Completed, m0: seq<Run>, m2: seq<Run>, run: Run)
    requires Holds(completed, m0, m2) && |m2| < 3
    ensures Holds(completed[(M2, |m2| + 1) := run], m0, m2 + [run])
  {
    NextSlot(completed, M2, m2, run);
    RunsElsewhere(completed, (M2, |m2| + 1), run, M0);
  }

  lemma FreeKey(setup: Setup, ledger: seq<Claim>, key: Key)
    requires Orderly(setup, ledger) && AllSettled(setup, ledger) && key !in CompletedRuns(setup, ledger)
    ensures forall i | 0 <= i < |ledger| :: KeyOf(ledger[i]) != key
  {
    assert ledger[..|ledger|] == ledger;
    forall i | 0 <= i < |ledger|
      ensures KeyOf(ledger[i]) != key
    {
      SeenHas(setup, ledger, i, |ledger|);
    }
  }

  lemma EmptyStart(setup: Setup)
    ensures Start(setup, [], [], [])
  {
    RunsForSlots(map[], M0);
    RunsForSlots(map[], M2);
  }

  // ---------------------------------------------------------------- the baseline

  lemma BaselineGate(setup: Setup, completed: Completed, spec: CellSpec)
    requires spec.cell == M0 && forall k | k in completed :: k.0 == M0
    requires RunsFor(completed, M5) == []
    requires RunsFor(completed, M0) != [] ==> RunsFor(completed, M0)[0].controls == spec.controls
    ensures AuthorizeCellStart(setup, completed, |RunsFor(completed, M0)| + 1, spec)
  {
  }

  /** The next baseline claim with the same controls is admitted, whatever the earlier ones measured. */
  lemma AddBaseline(setup: Setup, ledger: seq<Claim>, m0: seq<Run>, claim: Claim)
    requires Start(setup, ledger, m0, []) && |m0| < 3
    requires KeyOf(claim) == (M0, |m0| + 1) && ClaimInRange(claim) && SettledClaim(setup, claim)
    requires Permitted(setup, RequestOf(claim))
    requires m0 != [] ==> m0[0].controls == claim.spec.controls
    ensures Start(setup, ledger + [claim], m0 + [RunOf(setup, claim)], [])
  {
    var completed := CompletedRuns(setup, ledger);
    NothingElse(completed, m0, []);
    BaselineGate(setup, completed, claim.spec);
    FreeKey(setup, ledger, KeyOf(claim));
    InvariantExtends(setup, ledger, claim);
    RunsExtend(setup, ledger, claim);
    HoldsBaseline(completed, m0, RunOf(setup, claim));
  }

  lemma NextSample(setup: Setup, ledger: seq<Claim>, m0: seq<Run>, replicate: int, enabled: bool, activated: bool)
    requires Start(setup, ledger, m0, []) && replicate == |m0| + 1 && replicate <= 3
    requires Allowed(setup, BaselineSpec(replicate))
    requires m0 != [] ==> m0[0].controls == Plain(PostLoadHalf, Fixed32)
    ensures Start(setup, ledger + [BaselineClaim(setup, replicate, enabled, activated)],
                  m0 + [QueryOom(replicate, enabled, activated)], [])
  {
    BaselineSettled(setup, replicate, enabled, activated);
    AddBaseline(setup, ledger, m0, BaselineClaim(setup, replicate, enabled, activated));
  }

  /** The cache facts of one baseline run: the configured value and the activation witness. */
  datatype CacheFacts = CacheFacts(enabled: bool, activated: bool)

  function FirstClaims(setup: Setup, a: CacheFacts, b: CacheFacts): seq<Claim> {
    [BaselineClaim(setup, 1, a.enabled, a.activated)] + [BaselineClaim(setup, 2, b.enabled, b.activated)]
  }

  function FirstRuns(a: CacheFacts, b: CacheFacts): seq<Run> {
    [QueryOom(1, a.enabled, a.activated)] + [QueryOom(2, b.enabled, b.activated)]
  }

  function BaselineClaims(setup: Setup, a: CacheFacts, b: CacheFacts, c: CacheFacts): seq<Claim> {
    FirstClaims(setup, a, b) + [BaselineClaim(setup, 3, c.enabled, c.activated)]
  }

  function BaselineRuns(a: CacheFacts, b: CacheFacts, c: CacheFacts): seq<Run> {
    FirstRuns(a, b) + [QueryOom(3, c.enabled, c.activated)]
  }

  lemma TwoSamples(setup: Setup, a: CacheFacts, b: CacheFacts)
    requires Allowed(setup, BaselineSpec(1)) && Allowed(setup, BaselineSpec(2))
    ensures Start(setup, FirstClaims(setup, a, b), FirstRuns(a, b), [])
  {
    EmptyStart(setup);
    NextSample(setup, [], [], 1, a.enabled, a.activated);
    var first, run := BaselineClaim(setup, 1, a.enabled, a.activated), QueryOom(1, a.enabled, a.activated);
    assert [] + [first] == [first] && [] + [run] == [run];
    NextSample(setup, [first], [run], 2, b.enabled, b.activated);
  }

  /** A baseline with any cache facts is admitted. */
  lemma BaselineStart(setup: Setup, a: CacheFacts, b: CacheFacts, c: CacheFacts)
    requires Allowed(setup, BaselineSpec(1)) && Allowed(setup, BaselineSpec(2)) && Allowed(setup, BaselineSpec(3))
    ensures Start(setup, BaselineClaims(setup, a, b, c), BaselineRuns(a, b, c), [])
  {
    TwoSamples(setup, a, b);
    NextSample(setup, FirstClaims(setup, a, b), FirstRuns(a, b), 3, c.enabled, c.activated);
  }

  // ---------------------------------------------------------------- M2

  /** Three M0 runs of one treatment that report the cache disabled, and no M1 or M5 run. */
  ghost predicate CacheOff(completed: Completed) {
    && ThreeValidRuns(RunsFor(completed, M0), false) && SameTreatment(RunsFor(completed, M0))
    && AllCacheKnown(RunsFor(completed, M0)) && !AnyCacheEnabled(RunsFor(completed, M0))
    && RunsFor(completed, M1) == [] && RunsFor(completed, M5) == []
  }

  lemma NoM1Entry(setup: Setup, completed: Completed, none: seq<Accepted>)
    requires CacheOff(completed) && none == []
    ensures AddTreatmentStage(setup, completed, 1, none) == Ok(none + none)
  {
  }

  lemma NoM1Accepted(setup: Setup, completed: Completed)
    requires CacheOff(completed)
    ensures QualifiedTreatments(setup, completed, 1) == Ok([])
  {
    var none: seq<Accepted> := [];
    assert QualifiedTreatments(setup, completed, 0) == Ok(none);
    QualifiedUnfold(setup, completed, 1, none);
    NoM1Entry(setup, completed, none);
    assert none + none == none;
  }

  lemma GateOpen(setup: Setup, completed: Completed)
    requires CacheOff(completed) && QualifiedTreatments(setup, completed, 1) == Ok([])
    ensures CacheGate(setup, completed)
    ensures ActiveCondition(setup, completed, 1)
            == Ok(Some(Active(M0, RunsFor(completed, M0)[0].controls.treatment, RunsFor(completed, M0))))
  {
  }

  lemma M2Gate(setup: Setup, completed: Completed, replicate: int, spec: CellSpec)
    requires CacheGate(setup, completed) && RunsFor(completed, M5) == [] && spec.cell == M2
    requires RunsFor(completed, M2) != [] ==> RunsFor(completed, M2)[0].controls == spec.controls
    requires AuthorizeM2(setup, completed, replicate, spec.controls)
    ensures AuthorizeCellStart(setup, completed, replicate, spec)
  {
    M2IsLater(setup, completed, replicate, spec);
    LaterGate(setup, completed, replicate, spec);
  }

  lemma M2IsLater(setup: Setup, completed: Completed, replicate: int, spec: CellSpec)
    requires CacheGate(setup, completed) && spec.cell == M2
    requires AuthorizeM2(setup, completed, replicate, spec.controls)
    ensures AuthorizeLater(setup, completed, replicate, spec, spec.controls)
  {
  }

  /** The controls M2 has to run while nothing is accepted. */
  function HalfOf(base: Treatment): Controls {
    Controls(base.(dtype := DirectFp16), false)
  }

  lemma HalfAdmitted(setup: Setup, completed: Completed, spec: CellSpec)
    requires CacheOff(completed) && spec.cell == M2
    requires spec.controls == HalfOf(RunsFor(completed, M0)[0].controls.treatment)
    requires RunsFor(completed, M2) != [] ==> RunsFor(completed, M2)[0].controls == spec.controls
    ensures AuthorizeCellStart(setup, completed, |RunsFor(completed, M2)| + 1, spec)
  {
    NoM1Accepted(setup, completed);
    GateOpen(setup, completed);
    assert AuthorizeM2(setup, completed, |RunsFor(completed, M2)| + 1, spec.controls);
    M2Gate(setup, completed, |RunsFor(completed, M2)| + 1, spec);
  }

  /** A cache-free baseline of one treatment. */
  predicate CacheFree(m0: seq<Run>) {
    ThreeValidRuns(m0, false) && SameTreatment(m0) && AllCacheKnown(m0) && !AnyCacheEnabled(m0)
  }

  lemma CacheIsOff(completed: Completed, m0: seq<Run>, m2: seq<Run>)
    requires Holds(completed, m0, m2) && CacheFree(m0)
    ensures CacheOff(completed)
  {
    NothingElse(completed, m0, m2);
  }

  /** After a cache-free baseline the next M2 claim with the prescribed controls is admitted. */
  lemma AddHalf(setup: Setup, ledger: seq<Claim>, m0: seq<Run>, m2: seq<Run>, claim: Claim)
    requires Start(setup, ledger, m0, m2) && CacheFree(m0) && |m2| < 3
    requires KeyOf(claim) == (M2, |m2| + 1) && ClaimInRange(claim) && SettledClaim(setup, claim)
    requires Permitted(setup, RequestOf(claim))
    requires claim.spec.controls == HalfOf(m0[0].controls.treatment)
    requires m2 != [] ==> m2[0].controls == claim.spec.controls
    ensures Start(setup, ledger + [claim], m0, m2 + [RunOf(setup, claim)])
  {
    var completed := CompletedRuns(setup, ledger);
    CacheIsOff(completed, m0, m2);
    HalfAdmitted(setup, completed, claim.spec);
    FreeKey(setup, ledger, KeyOf(claim));
    InvariantExtends(setup, ledger, claim);
    RunsExtend(setup, ledger, claim);
    HoldsHalf(completed, m0, m2, RunOf(setup, claim));
  }

  /** A claim of another cell, once admitted, extends the ledger. */
  lemma AddOpen(setup: Setup, ledger: seq<Claim>, m0: seq<Run>, m2: seq<Run>, claim: Claim)
    requires Start(setup, ledger, m0, m2) && claim.cell != M0 && claim.cell != M2
    requires ClaimInRange(claim) && claim.outcome.Pending? && Permitted(setup, RequestOf(claim))
    requires AuthorizeCellStart(setup, CompletedRuns(setup, ledger), claim.replicate, claim.spec)
    ensures LedgerInv(setup, ledger + [claim])
    ensures SeenBy(setup, ledger + [claim], |ledger|) == CompletedRuns(setup, ledger)
  {
    FreeKey(setup, ledger, KeyOf(claim));
    InvariantExtends(setup, ledger, claim);
    assert (ledger + [claim])[..|ledger|] == ledger;
  }
}
