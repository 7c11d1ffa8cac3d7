/** A campaign, from its raw evidence on, in which a late CPU reference re-opens M3 after M4. */
module LateCampaign {
  import opened Basics
  import opened Contract
  import opened Evidence
  import opened Campaign
  import opened Acceptance
  import opened AcceptedChain
  import opened Packing
  import opened TokenBatches
  import opened Sorting
  import opened Ledger
  import opened LedgerInvariant
  import opened Reachability
  import opened StageOrder
  import opened LateReference
  import opened CampaignStart
  import opened SampleEvidence
  import opened Stranding
  import Parity

  // ---------------------------------------------------------------- partitions that save

  /** All sequences short but the last. */
  ghost predicate LongLast(counts: seq<int>) {
    |counts| == 32 && counts[31] == 20 && forall i | 0 <= i < 31 :: counts[i] == 1
  }

  lemma ShortP95(counts: seq<int>)
    requires LongLast(counts)
    ensures P95(counts) == 1
  {
    assert Ordered(IntLe(), counts);
    SortFixed(IntLe(), counts);
    P95Of(counts, counts);
  }

  lemma P95Of(counts: seq<int>, sorted: seq<int>)
    requires |counts| == 32 && Sort(IntLe(), counts) == sorted
    ensures P95(counts) == sorted[30]
  {
    assert P95Rank(32) == 31;
  }

  lemma {:induction false} PaddedWithin(counts: seq<int>, budget: int, parts: seq<seq<int>>)
    requires forall i | 0 <= i < |parts| :: PaddedCost(counts, parts[i]) <= budget
    ensures PaddedTokens(counts, parts) <= |parts| * budget
  {
    if parts != [] {
      PaddedWithin(counts, budget, parts[1..]);
      Distribute(1, |parts| - 1, budget);
    }
  }

  lemma ShortBatch(counts: seq<int>)
    requires LongLast(counts)
    ensures PaddedCost(counts, Indices(31)) <= 32 && PaddedCost(counts, [31]) <= 32
  {
    SingleToken(counts, 31);
    var m := MaxCount(counts, Indices(31));
    if m != 0 {
      var x :| x in Indices(31) && CountAt(counts, x) == m;
    }
    MulMonotone(31, 31, m, 1);
  }

  /** Two batches suffice: the short sequences, and the long one. */
  lemma TwoBatchesSuffice(counts: seq<int>)
    requires LongLast(counts)
    ensures Packs(TokenFits(counts, 32), [Indices(31), [31]], Indices(32))
  {
    var parts := [Indices(31), [31]];
    assert parts[1..] == [[31]] && parts[1..][1..] == [];
    assert Concat(parts) == Indices(31) + ([31] + []);
    ShortBatch(counts);
  }

  /** Whatever batch holds the long sequence costs at least 20 for each of its members. */
  lemma LongBatch(counts: seq<int>, part: seq<int>)
    requires LongLast(counts) && 31 in part
    ensures PaddedCost(counts, part) >= 20 * |part|
  {
    assert CountAt(counts, 31) == 20;
    MulMonotone(|part|, |part|, 20, MaxCount(counts, part));
  }

  lemma OneBatchTooBig(counts: seq<int>, parts: seq<seq<int>>)
    requires LongLast(counts) && Concat(parts) == Indices(32) && |parts| <= 1
    ensures parts != [] && PaddedCost(counts, parts[0]) >= 640
  {
    assert Indices(32)[31] == 31;
    if parts != [] {
      assert parts[1..] == [];
      assert parts[0] + [] == Indices(32);
      LongBatch(counts, parts[0]);
    }
  }

  lemma TwoPartitions(counts: seq<int>, partitions: seq<seq<int>>)
    requires LongLast(counts) && Packs(TokenFits(counts, 32), partitions, Indices(32))
    ensures |partitions| > 1
    ensures PaddedTokens(counts, partitions) <= |partitions| * 32
  {
    if |partitions| <= 1 {
      OneBatchTooBig(counts, partitions);
    }
    PaddedWithin(counts, 32, partitions);
  }

  lemma TwoOptimal(counts: seq<int>, partitions: seq<seq<int>>)
    requires LongLast(counts) && partitions == TokenPartitions(counts, 32)
    ensures |partitions| == 2 && PaddedTokens(counts, partitions) <= 64
  {
    TokenPartitionsPack(counts, 32);
    TwoPartitions(counts, partitions);
    AtMostTwo(counts, partitions, [Indices(31), [31]]);
  }

  lemma AtMostTwo(counts: seq<int>, partitions: seq<seq<int>>, two: seq<seq<int>>)
    requires LongLast(counts) && partitions == TokenPartitions(counts, 32) && two == [Indices(31), [31]]
    ensures |partitions| <= 2
  {
    TwoBatchesSuffice(counts);
    TokenPartitionsOptimal(counts, 32, two);
  }

  lemma LongLastSaves(counts: seq<int>)
    requires LongLast(counts)
    ensures PartitionsSave(counts)
  {
    var partitions := TokenPartitions(counts, 32);
    ShortP95(counts);
    TwoOptimal(counts, partitions);
    LongestCount(counts);
    GreedyIs(counts, partitions);
    SavesWhen(counts, partitions);
  }

  lemma LongestCount(counts: seq<int>)
    requires LongLast(counts)
    ensures MaxCount(counts, Indices(32)) >= 20
  {
    assert Indices(32)[31] == 31 && CountAt(counts, 31) <= MaxCount(counts, Indices(32));
  }

  lemma GreedyIs(counts: seq<int>, partitions: seq<seq<int>>)
    requires LongLast(counts) && P95(counts) == 1 && partitions == TokenPartitions(counts, 32)
    ensures GreedyTokenPartitions(counts) == Ok(Some(partitions))
  {
  }

  lemma SavesWhen(counts: seq<int>, partitions: seq<seq<int>>)
    requires |counts| == 32 && GreedyTokenPartitions(counts) == Ok(Some(partitions)) && |partitions| > 1
    requires PaddedTokens(counts, partitions) <= 64 && MaxCount(counts, Indices(32)) >= 20
    ensures PartitionsSave(counts)
  {
  }

  lemma CountsSave()
    ensures PartitionsSave(Counts())
  {
    LongLastSaves(Counts());
  }

  // ---------------------------------------------------------------- acceptance while only M0 and M2 have run

  /** M0 and M2 have run, M2 to full success, with the cache disabled from the start; neither M3 nor M5 has. */
  ghost predicate HalfDone(completed: Completed) {
    && CacheOff(completed)
    && ThreeValidRuns(RunsFor(completed, M2), true) && SameTreatment(RunsFor(completed, M2))
    && RunsFor(completed, M3Profile) == [] && RunsFor(completed, M3A) == [] && RunsFor(completed, M3B) == []
  }

  lemma M2Decides(setup: Setup, completed: Completed)
    requires HalfDone(completed)
    ensures QualifiedTreatments(setup, completed, 2) == Ok(InForceCandidate(setup, completed, M2, []))
  {
    var none: seq<Accepted> := [];
    NoM1Accepted(setup, completed);
    QualifiedUnfold(setup, completed, 2, none);
    assert none + InForceCandidate(setup, completed, M2, none) == InForceCandidate(setup, completed, M2, none);
  }

  /** The condition in force through M2 is M2 or M0, as M2 was accepted or not. */
  lemma ActiveThroughM2(setup: Setup, completed: Completed, cell: Cell)
    requires HalfDone(completed)
    requires cell == if InForceCandidate(setup, completed, M2, []) == [] then M0 else M2
    ensures ActiveCondition(setup, completed, 2)
            == Ok(Some(Active(cell, RunsFor(completed, cell)[0].controls.treatment, RunsFor(completed, cell))))
  {
    M2Decides(setup, completed);
    ActiveIs(setup, completed, cell, 2, InForceCandidate(setup, completed, M2, []));
  }

  /** The active condition is the last accepted cell, with the controls of its consistent runs. */
  lemma ActiveIs(setup: Setup, completed: Completed, cell: Cell, through: nat, accepted: seq<Accepted>)
    requires ThreeValidRuns(RunsFor(completed, M0), false) && SameTreatment(RunsFor(completed, M0))
    requires QualifiedTreatments(setup, completed, through) == Ok(accepted) && LastCell(accepted) == cell
    requires RunsFor(completed, cell) != [] && SameTreatment(RunsFor(completed, cell))
    requires accepted != [] ==> accepted[|accepted| - 1].treatment == RunsFor(completed, cell)[0].controls.treatment
    ensures ActiveCondition(setup, completed, through)
            == Ok(Some(Active(cell, RunsFor(completed, cell)[0].controls.treatment, RunsFor(completed, cell))))
  {
  }

  lemma ActiveThroughM3(setup: Setup, completed: Completed)
    requires HalfDone(completed) && InForceCandidate(setup, completed, M2, []) == []
    ensures ActiveCondition(setup, completed, 3)
            == Ok(Some(Active(M0, RunsFor(completed, M0)[0].controls.treatment, RunsFor(completed, M0))))
  {
    NoM3Accepted(setup, completed);
    ActiveIs(setup, completed, M0, 3, []);
  }

  lemma NoM3Accepted(setup: Setup, completed: Completed)
    requires HalfDone(completed) && InForceCandidate(setup, completed, M2, []) == []
    ensures QualifiedTreatments(setup, completed, 3) == Ok([])
  {
    var none: seq<Accepted> := [];
    M2Decides(setup, completed);
    QualifiedUnfold(setup, completed, 3, none);
    assert none + none == none;
  }

  lemma OpeningIs(setup: Setup, completed: Completed, cell: Cell, through: nat)
    requires RunsFor(completed, cell) != []
    requires ActiveCondition(setup, completed, through)
             == Ok(Some(Active(cell, RunsFor(completed, cell)[0].controls.treatment, RunsFor(completed, cell))))
    ensures through == 2 ==> M3OpeningSupported(setup, completed) == Ok(M3Opened(RunsFor(completed, cell)))
    ensures through == 3 ==> M4OpeningSupported(setup, completed) == Ok(M4Opened(RunsFor(completed, cell)))
  {
  }

  /** While M2 is not accepted and the baseline does not open M3, M4 is admitted if it saves. */
  lemma M4Admitted(setup: Setup, completed: Completed, spec: CellSpec)
    requires HalfDone(completed) && InForceCandidate(setup, completed, M2, []) == []
    requires !M3Opened(RunsFor(completed, M0)) && M4Opened(RunsFor(completed, M0)) && RunsFor(completed, M4) == []
    requires spec.cell == M4
    requires spec.controls == Controls(RunsFor(completed, M0)[0].controls.treatment.(batch := M4Partitions), false)
    ensures AuthorizeCellStart(setup, completed, 1, spec)
    ensures M3OpeningSupported(setup, completed) == Ok(false)
  {
    NoM1Accepted(setup, completed);
    GateOpen(setup, completed);
    ActiveThroughM2(setup, completed, M0);
    ActiveThroughM3(setup, completed);
    OpeningIs(setup, completed, M0, 2);
    OpeningIs(setup, completed, M0, 3);
    M4Gate(setup, completed, 1, spec);
  }

  // ---------------------------------------------------------------- the runs of the campaign

  const OFF: CacheFacts := CacheFacts(false, false)

  function Baseline(): seq<Run> {
    BaselineRuns(OFF, OFF, OFF)
  }

  function HalfRuns(vectors: Vectors): seq<Run> {
    [HalfRun(1, vectors)] + [HalfRun(2, vectors)] + [HalfRun(3, vectors)]
  }

  lemma BaselineHasNoReference()
    ensures FirstCorrect(Baseline()) == None
  {
    var runs := Baseline();
    assert runs[1..] == [runs[1], runs[2]] && runs[1..][1..] == [runs[2]] && runs[1..][1..][1..] == [];
  }

  lemma BaselineOpensM4()
    ensures !M3Opened(Baseline()) && M4Opened(Baseline())
  {
    BaselineShutsM3();
    BaselineCounts();
    CountsSave();
    OpensWhenSaving(Baseline());
  }

  lemma BaselineShutsM3()
    ensures !M3Opened(Baseline())
  {
  }

  lemma BaselineCounts()
    ensures ThreeValidRuns(Baseline(), false)
    ensures forall i | 0 <= i < 3 :: Baseline()[i].tokenCounts == Some(Counts())
  {
  }

  lemma OpensWhenSaving(runs: seq<Run>)
    requires ThreeValidRuns(runs, false) && PartitionsSave(Counts())
    requires forall i | 0 <= i < 3 :: runs[i].tokenCounts == Some(Counts())
    ensures M4Opened(runs)
  {
  }

  lemma BaselineIsCacheFree()
    ensures CacheFree(Baseline())
  {
  }

  lemma HalfSucceeded(vectors: Vectors)
    ensures ThreeValidRuns(HalfRuns(vectors), true) && SameTreatment(HalfRuns(vectors)) && M3Opened(HalfRuns(vectors))
  {
  }

  lemma PairsSupported(before: seq<Run>, vectors: Vectors)
    requires before == BaselineFor(M2, Baseline())
    ensures MechanismVerdict(before, HalfRuns(vectors), LoadDevicePeak) == Supported
  {
    assert ChangedControls(Plain(PostLoadHalf, Fixed32), Plain(DirectFp16, Fixed32)) == {DtypeKey};
    forall i | 0 <= i < 3
      ensures PairFits(before[i], HalfRuns(vectors)[i], IDENTITY, M2, LoadDevicePeak)
    {
    }
  }

  /** The acceptance gate on the M2 runs: everything but the reference is in place. */
  lemma HalfAccepted(parity: ParityGate, vectors: Vectors, reference: Option<Run>)
    requires parity(vectors, vectors)
    requires reference.Some? ==> reference.value.vectors == Some(vectors)
    ensures CandidateAccepted(parity, M2, Baseline(), HalfRuns(vectors), reference) <==> reference.Some?
  {
    PairsSupported(BaselineFor(M2, Baseline()), vectors);
    HalfQualifies(BaselineFor(M2, Baseline()), vectors, [true, true, true]);
  }

  lemma HalfQualifies(before: seq<Run>, vectors: Vectors, passed: seq<bool>)
    requires before == BaselineFor(M2, Baseline()) && passed == [true, true, true]
    ensures CandidateVerdict(Supported, before, HalfRuns(vectors), passed, true) == Qualified
  {
  }

  /** Nothing but the reference decides whether M2 is accepted. */
  lemma CandidateDecided(setup: Setup, parity: ParityGate, completed: Completed, vectors: Vectors)
    requires setup == StandardSetup(setup.binding, setup.authority, parity) && parity(vectors, vectors)
    requires RunsFor(completed, M0) == Baseline() && RunsFor(completed, M2) == HalfRuns(vectors)
    requires ReferenceRun(completed).Some? ==> ReferenceRun(completed).value.vectors == Some(vectors)
    ensures InForceCandidate(setup, completed, M2, []) == [] <==> ReferenceRun(completed).None?
  {
    HalfAccepted(parity, vectors, ReferenceRun(completed));
    assert RunsFor(completed, LastCell([])) == Baseline();
  }

  // ---------------------------------------------------------------- the ledger of the campaign

  const M4_SPEC: CellSpec := SpecOf(M4, 1, Plain(PostLoadHalf, M4Partitions))

  /** M3_PROFILE under the condition that M2 makes active. */
  const PROFILE_SPEC: CellSpec := SpecOf(M3Profile, 1, Controls(Treatment(DirectFp16, false, None, Fixed32), true))

  /** The authority lists the spec of every process of the campaign. */
  predicate CampaignAllowed(setup: Setup) {
    && Allowed(setup, BaselineSpec(1)) && Allowed(setup, BaselineSpec(2)) && Allowed(setup, BaselineSpec(3))
    && Allowed(setup, HalfSpec(1)) && Allowed(setup, HalfSpec(2)) && Allowed(setup, HalfSpec(3))
    && Allowed(setup, M4_SPEC) && Allowed(setup, CPU_SPEC) && Allowed(setup, PROFILE_SPEC)
  }

  function M4Claim(setup: Setup): Claim {
    Claim(M4, 1, M4_SPEC, setup.binding, 0.0, MAX_CELL_SECONDS, Pending)
  }

  /** Three baseline processes that ran out of memory on the queries, and three successful M2 processes. */
  function EarlyLedger(setup: Setup, vectors: Vectors): seq<Claim> {
    BaselineClaims(setup, OFF, OFF, OFF)
    + [HalfClaim(setup, 1, vectors)] + [HalfClaim(setup, 2, vectors)] + [HalfClaim(setup, 3, vectors)]
  }

  /** And M4, just claimed. */
  function CampaignLedger(setup: Setup, vectors: Vectors): seq<Claim> {
    EarlyLedger(setup, vectors) + [M4Claim(setup)]
  }

  lemma EarlyStart(setup: Setup, vectors: Vectors)
    requires CampaignAllowed(setup) && VectorsCorrect(vectors)
    ensures Start(setup, EarlyLedger(setup, vectors), Baseline(), HalfRuns(vectors))
  {
    var ledger := BaselineClaims(setup, OFF, OFF, OFF) + [HalfClaim(setup, 1, vectors)];
    TwoHalves(setup, vectors);
    NextHalf(setup, ledger + [HalfClaim(setup, 2, vectors)], [HalfRun(1, vectors)] + [HalfRun(2, vectors)], 3, vectors);
  }

  lemma TwoHalves(setup: Setup, vectors: Vectors)
    requires CampaignAllowed(setup) && VectorsCorrect(vectors)
    ensures Start(setup,
                  BaselineClaims(setup, OFF, OFF, OFF)
                  + [HalfClaim(setup, 1, vectors)] + [HalfClaim(setup, 2, vectors)],
                  Baseline(), [HalfRun(1, vectors)] + [HalfRun(2, vectors)])
  {
    var ledger, run := BaselineClaims(setup, OFF, OFF, OFF), HalfRun(1, vectors);
    BaselineStart(setup, OFF, OFF, OFF);
    NextHalf(setup, ledger, [], 1, vectors);
    assert [] + [run] == [run];
    NextHalf(setup, ledger + [HalfClaim(setup, 1, vectors)], [run], 2, vectors);
  }

  lemma NextHalf(setup: Setup, ledger: seq<Claim>, m2: seq<Run>, replicate: int, vectors: Vectors)
    requires Start(setup, ledger, Baseline(), m2) && replicate == |m2| + 1 && replicate <= 3
    requires Allowed(setup, HalfSpec(replicate)) && VectorsCorrect(vectors)
    requires m2 != [] ==> m2[0].controls == Plain(DirectFp16, Fixed32)
    ensures Start(setup, ledger + [HalfClaim(setup, replicate, vectors)], Baseline(),
                  m2 + [HalfRun(replicate, vectors)])
  {
    BaselineIsCacheFree();
    HalfSettled(setup, replicate, vectors);
    AddHalf(setup, ledger, Baseline(), m2, HalfClaim(setup, replicate, vectors));
  }

  lemma StartIsHalfDone(setup: Setup, completed: Completed, vectors: Vectors)
    requires Holds(completed, Baseline(), HalfRuns(vectors))
    ensures HalfDone(completed) && RunsFor(completed, M4) == [] && RunsFor(completed, CpuReference) == []
    ensures ReferenceRun(completed) == None && AnyOom(RunsFor(completed, M0))
  {
    BaselineIsCacheFree();
    CacheIsOff(completed, Baseline(), HalfRuns(vectors));
    NothingElse(completed, Baseline(), HalfRuns(vectors));
    HalfSucceeded(vectors);
    BaselineHasNoReference();
    assert Baseline()[0] in Baseline();
  }

  /** With no reference M2 is not accepted, M3 is not open, and M4 is admitted. */
  lemma M4IsAdmitted(setup: Setup, parity: ParityGate, completed: Completed, vectors: Vectors)
    requires setup == StandardSetup(setup.binding, setup.authority, parity) && parity(vectors, vectors)
    requires Holds(completed, Baseline(), HalfRuns(vectors))
    ensures AuthorizeCellStart(setup, completed, 1, M4_SPEC)
    ensures M3OpeningSupported(setup, completed) == Ok(false) && !ReferenceFinal(completed)
  {
    StartIsHalfDone(setup, completed, vectors);
    BaselineHasNoReference();
    BaselineOpensM4();
    CandidateDecided(setup, parity, completed, vectors);
    M4Admitted(setup, completed, M4_SPEC);
  }

  lemma ReferenceKeepsHalfDone(completed: Completed, run: Run)
    requires HalfDone(completed) && RunsFor(completed, CpuReference) == []
    ensures HalfDone(completed[(CpuReference, 1) := run])
  {
    ReferenceAdded(completed, run);
  }

  /** Once the reference has succeeded, M2 is accepted and opens M3. */
  lemma ReferenceOpens(setup: Setup, parity: ParityGate, completed: Completed, vectors: Vectors)
    requires setup == StandardSetup(setup.binding, setup.authority, parity) && parity(vectors, vectors)
    requires CampaignAllowed(setup) && VectorsCorrect(vectors)
    requires Holds(completed, Baseline(), HalfRuns(vectors))
    ensures OpensM3(setup, completed, CpuClaim(setup, vectors), PROFILE_SPEC)
  {
    var reference := CpuClaim(setup, vectors);
    CpuSettled(setup, vectors);
    StartIsHalfDone(setup, completed, vectors);
    ReferenceKeepsHalfDone(completed, RunOf(setup, reference));
    ReferenceAdded(completed, RunOf(setup, reference));
    BaselineHasNoReference();
    ReferenceAccepts(setup, parity, WithReference(setup, completed, reference), vectors);
  }

  lemma ReferenceAccepts(setup: Setup, parity: ParityGate, after: Completed, vectors: Vectors)
    requires setup == StandardSetup(setup.binding, setup.authority, parity) && parity(vectors, vectors)
    requires HalfDone(after) && RunsFor(after, M0) == Baseline() && RunsFor(after, M2) == HalfRuns(vectors)
    requires ReferenceRun(after).Some? && ReferenceRun(after).value.vectors == Some(vectors)
    ensures M3OpeningSupported(setup, after) == Ok(true)
    ensures ControlsAre(ActiveCondition(setup, after, 2), PROFILE_SPEC.controls, (t: Treatment) => t, true)
  {
    CandidateDecided(setup, parity, after, vectors);
    ActiveThroughM2(setup, after, M2);
    OpeningIs(setup, after, M2, 2);
    HalfSucceeded(vectors);
  }

  lemma M4Claimed(setup: Setup, parity: ParityGate, vectors: Vectors)
    requires setup == StandardSetup(setup.binding, setup.authority, parity) && parity(vectors, vectors)
    requires CampaignAllowed(setup) && VectorsCorrect(vectors)
    ensures var ledger := CampaignLedger(setup, vectors);
            && LedgerInv(setup, ledger) && SeenBy(setup, ledger, 6) == CompletedRuns(setup, EarlyLedger(setup, vectors))
            && Holds(SeenBy(setup, ledger, 6), Baseline(), HalfRuns(vectors))
  {
    var early := EarlyLedger(setup, vectors);
    EarlyStart(setup, vectors);
    M4IsAdmitted(setup, parity, CompletedRuns(setup, early), vectors);
    AddOpen(setup, early, Baseline(), HalfRuns(vectors), M4Claim(setup));
  }

  // ---------------------------------------------------------------- the run

  function CellsOf(ledger: seq<Claim>): (r: seq<Cell>)
    ensures |r| == |ledger|
  {
    seq(|ledger|, i requires 0 <= i < |ledger| => ledger[i].cell)
  }

  lemma CellsKept(setup: Setup, vectors: Vectors, final: seq<Claim>)
    requires SameHistory(CampaignLedger(setup, vectors), final) && |final| == 9
    requires final[7].cell == CpuReference && final[8].cell == M3Profile
    ensures CellsOf(RetimedAll(setup, final)) == [M0, M0, M0, M2, M2, M2, M4, CpuReference, M3Profile]
    ensures SameHistory(CampaignLedger(setup, vectors), RetimedAll(setup, final))
    ensures RetimedAll(setup, final)[6].cell == M4 && RetimedAll(setup, final)[7] == Retimed(setup, final[7])
    ensures RetimedAll(setup, final)[8].spec == final[8].spec
  {
    var ledger := CampaignLedger(setup, vectors);
    forall i | 0 <= i < 7
      ensures final[i].cell == ledger[i].cell
    {
    }
    RetimedHistory(setup, ledger, final);
  }

  lemma CampaignReady(setup: Setup, parity: ParityGate, vectors: Vectors, ledger: seq<Claim>, seen: Completed,
                      reference: Claim)
    requires setup == StandardSetup(setup.binding, setup.authority, parity) && CampaignAllowed(setup)
    requires VectorsCorrect(vectors) && parity(vectors, vectors)
    requires ledger == CampaignLedger(setup, vectors) && reference == CpuClaim(setup, vectors)
    requires seen == SeenBy(setup, ledger, 6)
    ensures LedgerInv(setup, ledger) && CanReopen(setup, seen) && OpensM3(setup, seen, reference, PROFILE_SPEC)
    ensures Ready(setup, ledger, seen) && ledger[6] == M4Claim(setup)
  {
    M4Claimed(setup, parity, vectors);
    M4IsAdmitted(setup, parity, seen, vectors);
    ReferenceOpens(setup, parity, seen, vectors);
    assert CanReopen(setup, seen);
    ReadyToReopen(setup, ledger, seen);
  }

  lemma CampaignReopens(setup: Setup, parity: ParityGate, vectors: Vectors, ledger: seq<Claim>)
    returns (final: seq<Claim>, states: seq<State>, steps: seq<Step>)
    requires setup == StandardSetup(setup.binding, setup.authority, parity) && CampaignAllowed(setup)
    requires VectorsCorrect(vectors) && parity(vectors, vectors) && ledger == CampaignLedger(setup, vectors)
    ensures SameHistory(ledger, final) && |final| == 9
    ensures final[7] == CpuClaim(setup, vectors) && final[8].cell == M3Profile && final[8].spec == PROFILE_SPEC
    ensures IsRun(setup, states, steps) && FinalLedger(states) == RetimedAll(setup, final)
  {
    var seen := SeenBy(setup, ledger, 6);
    CampaignReady(setup, parity, vectors, ledger, seen, CpuClaim(setup, vectors));
    final, states, steps := ReopenedBy(setup, ledger, seen, CpuClaim(setup, vectors), PROFILE_SPEC);
  }

  lemma AcceptedIs(setup: Setup, completed: Completed)
    requires HalfDone(completed)
    ensures M2Accepted(setup, completed) <==> InForceCandidate(setup, completed, M2, []) != []
  {
    M2Decides(setup, completed);
    var one := InForceCandidate(setup, completed, M2, []);
    if one != [] {
      assert one[0] in one && one[0].cell == M2;
    }
  }

  /** The reference changes the acceptance of M2. */
  lemma ReferenceAcceptsM2(setup: Setup, parity: ParityGate, seen: Completed, vectors: Vectors)
    requires setup == StandardSetup(setup.binding, setup.authority, parity) && CampaignAllowed(setup)
    requires VectorsCorrect(vectors) && parity(vectors, vectors) && Holds(seen, Baseline(), HalfRuns(vectors))
    ensures !M2Accepted(setup, seen) && M2Accepted(setup, WithReference(setup, seen, CpuClaim(setup, vectors)))
    ensures RunsFor(seen, CpuReference) == []
  {
    var run := RunOf(setup, CpuClaim(setup, vectors));
    var after := WithReference(setup, seen, CpuClaim(setup, vectors));
    StartIsHalfDone(setup, seen, vectors);
    CandidateDecided(setup, parity, seen, vectors);
    AcceptedIs(setup, seen);
    CpuSettled(setup, vectors);
    ReferenceKeepsHalfDone(seen, run);
    ReferenceAdded(seen, run);
    BaselineHasNoReference();
    CandidateDecided(setup, parity, after, vectors);
    AcceptedIs(setup, after);
  }

  lemma SeenEarly(setup: Setup, parity: ParityGate, vectors: Vectors, last: seq<Claim>)
    requires setup == StandardSetup(setup.binding, setup.authority, parity) && CampaignAllowed(setup)
    requires VectorsCorrect(vectors) && parity(vectors, vectors)
    requires SameHistory(CampaignLedger(setup, vectors), last) && |last| == 9
    ensures Holds(SeenBy(setup, last, 6), Baseline(), HalfRuns(vectors))
  {
    M4Claimed(setup, parity, vectors);
    SameEvidence(setup, CampaignLedger(setup, vectors), last, 6);
  }

  lemma CampaignStranded(setup: Setup, parity: ParityGate, vectors: Vectors, last: seq<Claim>)
    requires setup == StandardSetup(setup.binding, setup.authority, parity) && CampaignAllowed(setup)
    requires VectorsCorrect(vectors) && parity(vectors, vectors)
    requires LedgerInv(setup, last) && SameHistory(CampaignLedger(setup, vectors), last) && |last| == 9
    requires last[6].cell == M4 && last[7] == Retimed(setup, CpuClaim(setup, vectors))
    ensures !M2Accepted(setup, SeenBy(setup, last, 6)) && M2Accepted(setup, SeenBy(setup, last, 8))
  {
    var seen := SeenBy(setup, last, 6);
    SeenEarly(setup, parity, vectors, last);
    ReferenceAcceptsM2(setup, parity, seen, vectors);
    SeenWithReference(setup, vectors, last, seen);
    AcceptanceAgrees(setup, WithReference(setup, seen, CpuClaim(setup, vectors)), SeenBy(setup, last, 8));
  }

  const BASE: Treatment := Plain(PostLoadHalf, Fixed32).treatment

  lemma BaseInForce(setup: Setup, parity: ParityGate, seen: Completed, vectors: Vectors)
    requires setup == StandardSetup(setup.binding, setup.authority, parity) && parity(vectors, vectors)
    requires Holds(seen, Baseline(), HalfRuns(vectors))
    ensures ActiveWith(setup, seen, BASE)
  {
    StartIsHalfDone(setup, seen, vectors);
    CandidateDecided(setup, parity, seen, vectors);
    ActiveThroughM3(setup, seen);
  }

  lemma TreatmentLost(setup: Setup, parity: ParityGate, vectors: Vectors, last: seq<Claim>)
    requires setup == StandardSetup(setup.binding, setup.authority, parity) && CampaignAllowed(setup)
    requires VectorsCorrect(vectors) && parity(vectors, vectors)
    requires LedgerInv(setup, last) && SameHistory(CampaignLedger(setup, vectors), last) && |last| == 9
    requires last[6].cell == M4
    requires !M2Accepted(setup, SeenBy(setup, last, 6)) && M2Accepted(setup, SeenBy(setup, last, 8))
    ensures ActiveWith(setup, SeenBy(setup, last, 6), BASE) && !ActiveWith(setup, SeenBy(setup, last, 8), BASE)
  {
    SeenEarly(setup, parity, vectors, last);
    BaseInForce(setup, parity, SeenBy(setup, last, 6), vectors);
    StandardSetupSingleVariable(setup.binding, setup.authority, parity);
    EarlyRunsStay(setup, last, 6, 8);
    SeenWellKeyed(setup, last, 6);
    SeenWellKeyed(setup, last, 8);
    AcceptanceChanges(setup, SeenBy(setup, last, 6), SeenBy(setup, last, 8), BASE);
  }

  lemma SeenWithReference(setup: Setup, vectors: Vectors, last: seq<Claim>, seen: Completed)
    requires LedgerInv(setup, last) && |last| == 9 && last[6].cell == M4
    requires last[7] == Retimed(setup, CpuClaim(setup, vectors))
    requires seen == SeenBy(setup, last, 6) && RunsFor(seen, CpuReference) == []
    ensures var a, b := WithReference(setup, seen, CpuClaim(setup, vectors)), SeenBy(setup, last, 8);
            && RunsFor(b, M0) == RunsFor(a, M0) && RunsFor(b, M1) == RunsFor(a, M1) && RunsFor(b, M2) == RunsFor(a, M2)
            && RunsFor(b, CpuReference) == RunsFor(a, CpuReference)
  {
    SeenLate(setup, last);
    RetimedRun(setup, vectors);
    ReferenceOnTop(setup, CpuClaim(setup, vectors), seen);
  }

  lemma SeenLate(setup: Setup, last: seq<Claim>)
    requires LedgerInv(setup, last) && |last| == 9 && last[6].cell == M4 && last[7].cell == CpuReference
    ensures var a, b := SeenBy(setup, last, 6), SeenBy(setup, last, 8);
            RunsFor(b, M0) == RunsFor(a, M0) && RunsFor(b, M1) == RunsFor(a, M1) && RunsFor(b, M2) == RunsFor(a, M2)
    ensures last[7].outcome.Finished?
    ensures RunsFor(SeenBy(setup, last, 8), CpuReference) == [RunOf(setup, last[7])]
  {
    EarlyRunsStay(setup, last, 6, 8);
    ReferenceSeen(setup, last, 7, 8);
  }

  lemma ReferenceOnTop(setup: Setup, reference: Claim, seen: Completed)
    requires reference.outcome.Finished? && RunsFor(seen, CpuReference) == []
    ensures RunsFor(WithReference(setup, seen, reference), CpuReference) == [RunOf(setup, reference)]
    ensures forall cell: Cell | cell != CpuReference ::
              RunsFor(WithReference(setup, seen, reference), cell) == RunsFor(seen, cell)
  {
    ReferenceAdded(seen, RunOf(setup, reference));
  }

  lemma RetimedRun(setup: Setup, vectors: Vectors)
    ensures RunOf(setup, Retimed(setup, CpuClaim(setup, vectors))) == RunOf(setup, CpuClaim(setup, vectors))
  {
  }

  /**
   Under the campaign's own acceptance gate, and any parity gate that passes one set of correct vectors
   against itself, some run from the initial state claims M0, M0, M0, M2, M2, M2, M4, the CPU reference
   and then M3_PROFILE. Its evidence is the given raw evidence. The acceptance of M2, and with it the
   treatment in force, has changed after M4, whose remaining replicates are therefore stranded.
   */
  lemma LateReferenceReopensM3(setup: Setup, parity: ParityGate, vectors: Vectors)
    returns (states: seq<State>, steps: seq<Step>)
    requires setup == StandardSetup(setup.binding, setup.authority, parity) && CampaignAllowed(setup)
    requires VectorsCorrect(vectors) && parity(vectors, vectors)
    ensures IsRun(setup, states, steps)
    ensures CellsOf(FinalLedger(states)) == [M0, M0, M0, M2, M2, M2, M4, CpuReference, M3Profile]
    ensures FinalLedger(states)[8].spec == PROFILE_SPEC
    ensures SameHistory(CampaignLedger(setup, vectors), FinalLedger(states))
    ensures var reference := FinalLedger(states)[7].outcome;
            reference.Finished? && reference.valid && reference.evidence == CpuEvidence(setup.binding, vectors)
    ensures !M2Accepted(setup, SeenBy(setup, FinalLedger(states), 6))
    ensures M2Accepted(setup, SeenBy(setup, FinalLedger(states), 8))
    ensures ActiveWith(setup, SeenBy(setup, FinalLedger(states), 6), BASE)
    ensures !ActiveWith(setup, SeenBy(setup, FinalLedger(states), 8), BASE)
  {
    var final;
    final, states, steps := CampaignReopens(setup, parity, vectors, CampaignLedger(setup, vectors));
    CellsKept(setup, vectors, final);
    RunKeepsInvariant(setup, states, steps, |states| - 1);
    CampaignStranded(setup, parity, vectors, RetimedAll(setup, final));
    TreatmentLost(setup, parity, vectors, RetimedAll(setup, final));
    assert FinalLedger(states) == RetimedAll(setup, final);
  }

  /** The same under the campaign's own parity gate, whatever norm-valid vectors the runs have. */
  lemma RealGateReopensM3(sqrt: real -> real, binding: Binding, authority: map<Key, set<CellSpec>>, vectors: Vectors)
    returns (states: seq<State>, steps: seq<Step>)
    requires VectorMath.IsSqrt(sqrt) && Parity.NormValid(sqrt, vectors)
    requires CampaignAllowed(StandardSetup(binding, authority, Parity.CampaignParity(sqrt)))
    ensures IsRun(StandardSetup(binding, authority, Parity.CampaignParity(sqrt)), states, steps)
    ensures CellsOf(FinalLedger(states)) == [M0, M0, M0, M2, M2, M2, M4, CpuReference, M3Profile]
    ensures FinalLedger(states)[8].spec == PROFILE_SPEC
  {
    Parity.SelfParityPasses(sqrt, vectors);
    Parity.CorrectIsNormValid(sqrt, vectors);
    var setup := StandardSetup(binding, authority, Parity.CampaignParity(sqrt));
    states, steps := LateReferenceReopensM3(setup, Parity.CampaignParity(sqrt), vectors);
  }
}
