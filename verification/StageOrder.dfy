/** The order in which any reachable ledger admits its cells. */
module StageOrder {
  import opened Basics
  import opened Contract
  import opened Evidence
  import opened Campaign
  import opened AcceptedChain
  import opened Ledger
  import opened LedgerInvariant

  // ---------------------------------------------------------------- evidence grows with the ledger

  /** The completed evidence the gate saw when it admitted entry `j`. */
  ghost function SeenBy(setup: Setup, ledger: seq<Claim>, j: int): Completed
    requires 0 <= j <= |ledger|
  {
    CompletedRuns(setup, ledger[..j])
  }

  ghost predicate Within(a: Completed, b: Completed) {
    forall k | k in a :: k in b && b[k] == a[k]
  }

  /** Everything before `j` is settled, so the gate can be asked about what comes at `j`. */
  ghost predicate Visible(setup: Setup, ledger: seq<Claim>, j: int) {
    0 <= j <= |ledger| && forall i | 0 <= i < j :: SettledClaim(setup, ledger[i])
  }

  lemma SeenStep(setup: Setup, ledger: seq<Claim>, j: int)
    requires Visible(setup, ledger, j) && 0 < j
    ensures SeenBy(setup, ledger, j)
            == SeenBy(setup, ledger, j - 1)[KeyOf(ledger[j - 1]) := RunOf(setup, ledger[j - 1])]
  {
    assert SettledClaim(setup, ledger[j - 1]);
    assert ledger[..j][..j - 1] == ledger[..j - 1];
  }

  /** Every claim before `j` is settled and seen with its own run. */
  lemma {:induction false} SeenHas(setup: Setup, ledger: seq<Claim>, i: int, j: int)
    requires Orderly(setup, ledger) && Visible(setup, ledger, j) && 0 <= i < j
    ensures SettledClaim(setup, ledger[i])
    ensures KeyOf(ledger[i]) in SeenBy(setup, ledger, j)
    ensures SeenBy(setup, ledger, j)[KeyOf(ledger[i])] == RunOf(setup, ledger[i])
  {
    SeenStep(setup, ledger, j);
    if i < j - 1 {
      SeenHas(setup, ledger, i, j - 1);
    }
  }

  /** Only claims before `j` are seen. */
  lemma {:induction false} SeenOnly(setup: Setup, ledger: seq<Claim>, j: int, key: Key) returns (i: int)
    requires Orderly(setup, ledger) && Visible(setup, ledger, j)
    requires key in SeenBy(setup, ledger, j)
    ensures 0 <= i < j && KeyOf(ledger[i]) == key
  {
    if j > 0 {
      SeenStep(setup, ledger, j);
      if KeyOf(ledger[j - 1]) == key {
        i := j - 1;
      } else {
        i := SeenOnly(setup, ledger, j - 1, key);
      }
    }
  }

  lemma SeenGrows(setup: Setup, ledger: seq<Claim>, i: int, j: int)
    requires Orderly(setup, ledger) && Visible(setup, ledger, j) && 0 <= i <= j
    ensures Within(SeenBy(setup, ledger, i), SeenBy(setup, ledger, j))
  {
    forall k | k in SeenBy(setup, ledger, i)
      ensures k in SeenBy(setup, ledger, j) && SeenBy(setup, ledger, j)[k] == SeenBy(setup, ledger, i)[k]
    {
      var n := SeenOnly(setup, ledger, i, k);
      SeenHas(setup, ledger, n, i);
      SeenHas(setup, ledger, n, j);
    }
  }

  lemma SeenWellKeyed(setup: Setup, ledger: seq<Claim>, j: int)
    requires Orderly(setup, ledger) && Visible(setup, ledger, j)
    ensures WellKeyed(SeenBy(setup, ledger, j))
    ensures forall k | k in SeenBy(setup, ledger, j) ::
              1 <= k.1 <= CellCap(k.0) && SeenBy(setup, ledger, j)[k].valid
    ensures j < |ledger| ==> KeyOf(ledger[j]) !in SeenBy(setup, ledger, j)
  {
    forall k | k in SeenBy(setup, ledger, j)
      ensures SeenBy(setup, ledger, j)[k].cell == k.0 && SeenBy(setup, ledger, j)[k].replicate == k.1
      ensures 1 <= k.1 <= CellCap(k.0) && SeenBy(setup, ledger, j)[k].valid
      ensures j < |ledger| ==> k != KeyOf(ledger[j])
    {
      var n := SeenOnly(setup, ledger, j, k);
      SeenHas(setup, ledger, n, j);
      assert ClaimInRange(ledger[n]);
    }
  }

  // ---------------------------------------------------------------- runs of one cell

  lemma RunsForSlots(completed: Completed, cell: Cell)
    ensures RunsFor(completed, cell) == Slot(completed, cell, 1) + Slot(completed, cell, 2) + Slot(completed, cell, 3)
    ensures |RunsFor(completed, cell)| == 3 <==>
              (cell, 1) in completed && (cell, 2) in completed && (cell, 3) in completed
    ensures RunsFor(completed, cell) == [] <==>
              (cell, 1) !in completed && (cell, 2) !in completed && (cell, 3) !in completed
  {
    assert RunsFrom(completed, cell, 4) == [];
    assert RunsFrom(completed, cell, 3) == Slot(completed, cell, 3);
    assert RunsFrom(completed, cell, 2) == Slot(completed, cell, 2) + Slot(completed, cell, 3);
  }

  lemma RunsElsewhere(completed: Completed, key: Key, run: Run, cell: Cell)
    requires cell != key.0
    ensures RunsFor(completed[key := run], cell) == RunsFor(completed, cell)
  {
    RunsForSlots(completed, cell);
    RunsForSlots(completed[key := run], cell);
  }

  /** Three runs of a cell are all it ever has. */
  lemma FullCellStays(a: Completed, b: Completed, cell: Cell)
    requires Within(a, b) && |RunsFor(a, cell)| == 3
    ensures RunsFor(b, cell) == RunsFor(a, cell)
  {
    RunsForSlots(a, cell);
    RunsForSlots(b, cell);
  }

  lemma SameSlotsSameRuns(a: Completed, b: Completed, cell: Cell)
    requires Within(a, b) && forall r | 1 <= r <= 3 :: (cell, r) in b ==> (cell, r) in a
    ensures RunsFor(b, cell) == RunsFor(a, cell)
  {
    RunsForSlots(a, cell);
    RunsForSlots(b, cell);
    assert forall r | 1 <= r <= 3 :: Slot(a, cell, r) == Slot(b, cell, r);
  }

  /** A cell that has run as often as it may is never admitted again. */
  lemma FullCellNotAdmitted(setup: Setup, ledger: seq<Claim>, i: int, j: int)
    requires Orderly(setup, ledger) && 0 <= i <= j < |ledger|
    ensures |RunsFor(SeenBy(setup, ledger, i), ledger[j].cell)| != 3
    ensures CellCap(ledger[j].cell) == 1 ==> RunsFor(SeenBy(setup, ledger, i), ledger[j].cell) == []
  {
    SeenGrows(setup, ledger, i, j);
    SeenWellKeyed(setup, ledger, i);
    SeenWellKeyed(setup, ledger, j);
    assert ClaimInRange(ledger[j]);
    FreeSlot(SeenBy(setup, ledger, i), SeenBy(setup, ledger, j), ledger[j].cell, ledger[j].replicate);
  }

  lemma FreeSlot(a: Completed, b: Completed, cell: Cell, replicate: int)
    requires Within(a, b) && (cell, replicate) !in b && 1 <= replicate <= CellCap(cell)
    requires forall k | k in a :: 1 <= k.1 <= CellCap(k.0)
    ensures |RunsFor(a, cell)| != 3
    ensures CellCap(cell) == 1 ==> RunsFor(a, cell) == []
  {
    RunsForSlots(a, cell);
  }

  lemma SeenCellEarlier(setup: Setup, ledger: seq<Claim>, j: int, cell: Cell) returns (i: int)
    requires Orderly(setup, ledger) && Visible(setup, ledger, j)
    requires RunsFor(SeenBy(setup, ledger, j), cell) != []
    ensures 0 <= i < j && ledger[i].cell == cell
  {
    var seen := SeenBy(setup, ledger, j);
    RunsForSlots(seen, cell);
    var r := if (cell, 1) in seen then 1 else if (cell, 2) in seen then 2 else 3;
    i := SeenOnly(setup, ledger, j, (cell, r));
  }

  lemma EarlierCellSeen(setup: Setup, ledger: seq<Claim>, i: int, j: int)
    requires Orderly(setup, ledger) && Visible(setup, ledger, j) && 0 <= i < j
    ensures RunsFor(SeenBy(setup, ledger, j), ledger[i].cell) != []
  {
    SeenHas(setup, ledger, i, j);
    assert ClaimInRange(ledger[i]);
    RunsForSlots(SeenBy(setup, ledger, j), ledger[i].cell);
  }

  // ---------------------------------------------------------------- what each gate says of the past

  function Rank(cell: Cell): int {
    match cell
    case M0 => 0
    case M1 => 1
    case M2 => 2
    case M3Profile => 3
    case M3A => 4
    case M3B => 5
    case M4 => 6
    case M5 => 7
    case CpuReference => 8
  }

  predicate Later(cell: Cell) {
    cell != CpuReference && Rank(cell) >= 2
  }

  lemma GateStopsAfterM5(setup: Setup, completed: Completed, replicate: int, spec: CellSpec)
    requires AuthorizeCellStart(setup, completed, replicate, spec) && spec.cell != M5
    ensures RunsFor(completed, M5) == []
  {
  }

  lemma GateM0(setup: Setup, completed: Completed, replicate: int, spec: CellSpec)
    requires AuthorizeCellStart(setup, completed, replicate, spec) && spec.cell == M0
    ensures AuthorizeM0(completed, replicate)
  {
  }

  lemma GateM1(setup: Setup, completed: Completed, replicate: int, spec: CellSpec)
    requires AuthorizeCellStart(setup, completed, replicate, spec) && spec.cell == M1
    ensures AuthorizeM1(completed, replicate)
  {
  }

  lemma GateNeedsBaseline(setup: Setup, completed: Completed, replicate: int, spec: CellSpec)
    requires AuthorizeCellStart(setup, completed, replicate, spec) && spec.cell != M0
    ensures ThreeValidRuns(RunsFor(completed, M0), false)
  {
  }

  lemma GateCpu(setup: Setup, completed: Completed, replicate: int, spec: CellSpec)
    requires AuthorizeCellStart(setup, completed, replicate, spec) && spec.cell == CpuReference
    ensures AuthorizeCpu(completed)
  {
  }

  lemma GateLater(setup: Setup, completed: Completed, replicate: int, spec: CellSpec)
    requires AuthorizeCellStart(setup, completed, replicate, spec) && Later(spec.cell)
    ensures CacheGate(setup, completed)
    ensures spec.cell != M2 ==> ThreeValidRuns(RunsFor(completed, M2), false)
    ensures spec.cell == M2 ==> replicate == |RunsFor(completed, M2)| + 1
    ensures spec.cell == M5 ==> replicate == |RunsFor(completed, M5)| + 1
    ensures spec.cell == M5 && replicate == 1 ==> AuthorizeFirstM5(setup, completed, spec)
  {
  }

  lemma GateM3Profile(setup: Setup, completed: Completed, replicate: int, spec: CellSpec)
    requires AuthorizeCellStart(setup, completed, replicate, spec) && spec.cell == M3Profile
    ensures M3OpeningSupported(setup, completed) == Ok(true)
  {
  }

  lemma GateM3Treatment(setup: Setup, completed: Completed, replicate: int, spec: CellSpec)
    requires AuthorizeCellStart(setup, completed, replicate, spec) && (spec.cell == M3A || spec.cell == M3B)
    ensures M3OpeningSupported(setup, completed) == Ok(true)
    ensures ProfileComplete(completed) && ObservedBackend(completed).Some?
    ensures OpenBackends(completed, spec.cell) != {}
    ensures replicate == |RunsFor(completed, spec.cell)| + 1
  {
    assert spec.controls.treatment.backend.value in OpenBackends(completed, spec.cell);
  }

  lemma GateM4(setup: Setup, completed: Completed, replicate: int, spec: CellSpec)
    requires AuthorizeCellStart(setup, completed, replicate, spec) && spec.cell == M4
    ensures M3TreatmentCompleted(setup, completed) == Ok(true)
    ensures M4OpeningSupported(setup, completed) == Ok(true)
  {
  }

  lemma GateSameControls(setup: Setup, completed: Completed, replicate: int, spec: CellSpec)
    requires AuthorizeCellStart(setup, completed, replicate, spec) && RunsFor(completed, spec.cell) != []
    ensures EffectiveControls(spec) == Some(RunsFor(completed, spec.cell)[0].controls)
  {
  }

  /** Past the checks common to all cells, the gate of a cell from M2 to M4 is the later gate. */
  lemma LaterGate(setup: Setup, completed: Completed, replicate: int, spec: CellSpec)
    requires Later(spec.cell) && spec.cell != M5 && RunsFor(completed, M5) == []
    requires RunsFor(completed, spec.cell) != [] ==> RunsFor(completed, spec.cell)[0].controls == spec.controls
    requires AuthorizeLater(setup, completed, replicate, spec, spec.controls)
    ensures AuthorizeCellStart(setup, completed, replicate, spec)
  {
  }

  // ---------------------------------------------------------------- stage order

  /** Once a baseline run showed the cache active, the cache gate waits for three M1 runs. */
  lemma CacheGateNeedsM1(setup: Setup, completed: Completed)
    requires CacheGate(setup, completed)
    requires AllCacheKnown(RunsFor(completed, M0)) && AnyCacheActive(RunsFor(completed, M0))
    ensures |RunsFor(completed, M1)| == 3
  {
    var r :| r in RunsFor(completed, M0) && r.cacheConfigEnabled && r.cacheWitness;
    assert AnyCacheEnabled(RunsFor(completed, M0)) && AnyCacheWitness(RunsFor(completed, M0));
  }

  lemma NoM1AfterM2(setup: Setup, ledger: seq<Claim>, i: int, j: int)
    requires LedgerInv(setup, ledger) && 0 <= i < j < |ledger|
    requires ledger[i].cell == M2
    ensures ledger[j].cell != M1
  {
    if ledger[j].cell == M1 {
      var a, b := SeenBy(setup, ledger, i), SeenBy(setup, ledger, j);
      assert GatedAt(setup, ledger, i) && GatedAt(setup, ledger, j);
      assert ClaimInRange(ledger[i]) && ClaimInRange(ledger[j]);
      GateLater(setup, a, ledger[i].replicate, ledger[i].spec);
      GateNeedsBaseline(setup, a, ledger[i].replicate, ledger[i].spec);
      GateM1(setup, b, ledger[j].replicate, ledger[j].spec);
      SeenGrows(setup, ledger, i, j);
      FullCellStays(a, b, M0);
      CacheGateNeedsM1(setup, a);
      FullCellNotAdmitted(setup, ledger, i, j);
    }
  }

  lemma NoM1AfterLater(setup: Setup, ledger: seq<Claim>, i: int, j: int)
    requires LedgerInv(setup, ledger) && 0 <= i < j < |ledger| && Later(ledger[i].cell)
    ensures ledger[j].cell != M1
  {
    if ledger[i].cell == M2 {
      NoM1AfterM2(setup, ledger, i, j);
    } else {
      assert GatedAt(setup, ledger, i) && ClaimInRange(ledger[i]);
      GateLater(setup, SeenBy(setup, ledger, i), ledger[i].replicate, ledger[i].spec);
      var m2 := SeenCellEarlier(setup, ledger, i, M2);
      NoM1AfterM2(setup, ledger, m2, j);
    }
  }

  lemma NoM0Later(setup: Setup, ledger: seq<Claim>, i: int, j: int)
    requires LedgerInv(setup, ledger) && 0 <= i < j < |ledger| && ledger[i].cell != M0
    ensures ledger[j].cell != M0
  {
    if ledger[j].cell == M0 {
      assert GatedAt(setup, ledger, j) && ClaimInRange(ledger[j]);
      GateM0(setup, SeenBy(setup, ledger, j), ledger[j].replicate, ledger[j].spec);
      SeenHas(setup, ledger, i, j);
    }
  }

  lemma NoneAfterM5(setup: Setup, ledger: seq<Claim>, i: int, j: int)
    requires LedgerInv(setup, ledger) && 0 <= i < j < |ledger| && ledger[i].cell == M5
    ensures ledger[j].cell == M5
  {
    if ledger[j].cell != M5 {
      assert GatedAt(setup, ledger, j) && ClaimInRange(ledger[j]);
      GateStopsAfterM5(setup, SeenBy(setup, ledger, j), ledger[j].replicate, ledger[j].spec);
      EarlierCellSeen(setup, ledger, i, j);
    }
  }

  /** A cell the gate of a later stage requires to be complete has no claim file left. */
  lemma CompletedStageClosed(setup: Setup, ledger: seq<Claim>, i: int, j: int)
    requires LedgerInv(setup, ledger) && 0 <= i < j < |ledger|
    requires ledger[i].cell in {M3Profile, M3A, M3B, M4}
    ensures ledger[j].cell != M2
    ensures ledger[i].cell in {M3A, M3B} ==> ledger[j].cell != M3Profile
    ensures ledger[i].cell == M3B ==> ledger[j].cell != M3A
  {
    var seen, spec := SeenBy(setup, ledger, i), ledger[i].spec;
    assert GatedAt(setup, ledger, i) && ClaimInRange(ledger[i]);
    GateLater(setup, seen, ledger[i].replicate, spec);
    if spec.cell in {M3A, M3B} {
      GateM3Treatment(setup, seen, ledger[i].replicate, spec);
    }
    FullCellNotAdmitted(setup, ledger, i, j);
  }

  /** Whatever stage `ledger[i]` is in, a cell of an earlier stage needs a free claim file it no longer has. */
  lemma EarlierStageClosed(setup: Setup, ledger: seq<Claim>, i: int, j: int)
    requires LedgerInv(setup, ledger) && 0 <= i < j < |ledger|
    requires ledger[i].cell != CpuReference && ledger[j].cell != CpuReference
    requires !(ledger[i].cell == M4 && ledger[j].cell in {M3Profile, M3A, M3B})
    ensures Rank(ledger[i].cell) <= Rank(ledger[j].cell)
  {
    if ledger[i].cell == M5 {
      NoneAfterM5(setup, ledger, i, j);
    } else if ledger[i].cell != M0 {
      NoM0Later(setup, ledger, i, j);
      if ledger[i].cell != M1 {
        NoM1AfterLater(setup, ledger, i, j);
        if ledger[i].cell != M2 {
          CompletedStageClosed(setup, ledger, i, j);
        }
      }
    }
  }

  // ---------------------------------------------------------------- re-derivation is stable

  /** The cells acceptance through a stage looks at. */
  predicate InScope(cell: Cell, through: nat) {
    cell == M0 || 1 <= TreatmentStage(cell) <= through
  }

  ghost predicate Agree(a: Completed, b: Completed, through: nat) {
    && (forall cell: Cell | InScope(cell, through) :: RunsFor(b, cell) == RunsFor(a, cell))
    && ReferenceRun(b) == ReferenceRun(a)
  }

  lemma CandidateAgree(setup: Setup, a: Completed, b: Completed, through: nat, cell: Cell, accepted: seq<Accepted>)
    requires Agree(a, b, through) && InScope(cell, through) && InScope(LastCell(accepted), through)
    ensures InForceCandidate(setup, b, cell, accepted) == InForceCandidate(setup, a, cell, accepted)
  {
  }

  lemma LastCellOfSum(accepted: seq<Accepted>, more: seq<Accepted>)
    ensures LastCell(accepted + more) == if more == [] then LastCell(accepted) else LastCell(more)
  {
    assert more == [] ==> accepted + more == accepted;
  }

  lemma CandidateCell(setup: Setup, completed: Completed, cell: Cell, accepted: seq<Accepted>)
    ensures InForceCandidate(setup, completed, cell, accepted) != [] ==>
              LastCell(InForceCandidate(setup, completed, cell, accepted)) == cell
  {
  }

  lemma M3Scope(setup: Setup, completed: Completed, accepted: seq<Accepted>)
    requires InScope(LastCell(accepted), 3)
    ensures InScope(LastCell(accepted + M3Candidates(setup, completed, accepted)), 3)
  {
    var one, two := InForceCandidate(setup, completed, M3A, accepted),
                    InForceCandidate(setup, completed, M3B, accepted);
    CandidateCell(setup, completed, M3A, accepted);
    CandidateCell(setup, completed, M3B, accepted);
    LastCellOfSum(one, two);
    LastCellOfSum(accepted, one + two);
  }

  lemma CandidateScope(setup: Setup, completed: Completed, cell: Cell, accepted: seq<Accepted>, through: nat)
    requires InScope(LastCell(accepted), through) && InScope(cell, through)
    ensures InScope(LastCell(accepted + InForceCandidate(setup, completed, cell, accepted)), through)
  {
    CandidateCell(setup, completed, cell, accepted);
    LastCellOfSum(accepted, InForceCandidate(setup, completed, cell, accepted));
  }

  lemma StageM1Scope(setup: Setup, completed: Completed, accepted: seq<Accepted>, next: seq<Accepted>)
    requires InScope(LastCell(accepted), 1) && StageM1(setup, completed, accepted) == Ok(next)
    ensures InScope(LastCell(next), 1)
  {
    LastCellOfSum(accepted, []);
    CandidateScope(setup, completed, M1, accepted, 1);
  }

  lemma StageM3Scope(setup: Setup, completed: Completed, accepted: seq<Accepted>, next: seq<Accepted>)
    requires InScope(LastCell(accepted), 3) && StageM3(setup, completed, accepted) == Ok(next)
    ensures InScope(LastCell(next), 3)
  {
    M3Scope(setup, completed, accepted);
  }

  /** A stage leaves the last accepted cell within its own scope. */
  lemma StageScope(setup: Setup, completed: Completed, stage: nat, accepted: seq<Accepted>, next: seq<Accepted>)
    requires 1 <= stage <= 4 && InScope(LastCell(accepted), stage)
    requires AddTreatmentStage(setup, completed, stage, accepted) == Ok(next)
    ensures InScope(LastCell(next), stage)
  {
    if stage == 1 {
      StageM1Scope(setup, completed, accepted, next);
    } else if stage == 3 {
      StageM3Scope(setup, completed, accepted, next);
    } else {
      CandidateScope(setup, completed, if stage == 2 then M2 else M4, accepted, stage);
    }
  }

  lemma StageAgree(setup: Setup, a: Completed, b: Completed, stage: nat, accepted: seq<Accepted>)
    requires 1 <= stage <= 4 && Agree(a, b, stage) && InScope(LastCell(accepted), stage)
    ensures AddTreatmentStage(setup, b, stage, accepted) == AddTreatmentStage(setup, a, stage, accepted)
  {
    if stage == 1 {
      StageM1Agree(setup, a, b, accepted);
    } else if stage == 2 {
      CandidateAgree(setup, a, b, stage, M2, accepted);
      assert InScope(M2, stage);
    } else if stage == 3 {
      StageM3Agree(setup, a, b, accepted);
    } else {
      CandidateAgree(setup, a, b, stage, M4, accepted);
      assert InScope(M4, stage);
    }
  }

  lemma StageM1Agree(setup: Setup, a: Completed, b: Completed, accepted: seq<Accepted>)
    requires Agree(a, b, 1) && InScope(LastCell(accepted), 1)
    ensures StageM1(setup, b, accepted) == StageM1(setup, a, accepted)
  {
    assert InScope(M0, 1) && InScope(M1, 1);
    assert RunsFor(b, M0) == RunsFor(a, M0);
    assert RunsFor(b, M1) == RunsFor(a, M1);
    CandidateAgree(setup, a, b, 1, M1, accepted);
  }

  lemma StageM3Agree(setup: Setup, a: Completed, b: Completed, accepted: seq<Accepted>)
    requires Agree(a, b, 3) && InScope(LastCell(accepted), 3)
    ensures StageM3(setup, b, accepted) == StageM3(setup, a, accepted)
  {
    CandidateAgree(setup, a, b, 3, M3A, accepted);
    CandidateAgree(setup, a, b, 3, M3B, accepted);
    StageM3Same(setup, a, b, accepted);
  }

  lemma StageM3Same(setup: Setup, a: Completed, b: Completed, accepted: seq<Accepted>)
    requires InForceCandidate(setup, b, M3A, accepted) == InForceCandidate(setup, a, M3A, accepted)
    requires InForceCandidate(setup, b, M3B, accepted) == InForceCandidate(setup, a, M3B, accepted)
    requires RunsFor(b, M3A) == RunsFor(a, M3A) && RunsFor(b, M3B) == RunsFor(a, M3B)
    ensures StageM3(setup, b, accepted) == StageM3(setup, a, accepted)
  {
  }

  lemma AgreeBelow(a: Completed, b: Completed, low: nat, high: nat)
    requires Agree(a, b, high) && low <= high
    ensures Agree(a, b, low)
  {
    forall cell: Cell | InScope(cell, low)
      ensures RunsFor(b, cell) == RunsFor(a, cell)
    {
      assert InScope(cell, high);
    }
  }

  lemma QualifiedScope(setup: Setup, completed: Completed, through: nat, accepted: seq<Accepted>)
    requires through <= 4 && QualifiedTreatments(setup, completed, through) == Ok(accepted)
    ensures InScope(LastCell(accepted), through)
    decreases through
  {
    if through > 0 && ThreeValidRuns(RunsFor(completed, M0), false) {
      var previous := QualifiedStep(setup, completed, through, accepted);
      QualifiedScope(setup, completed, through - 1, previous);
      StageScope(setup, completed, through, previous, accepted);
    }
  }

  lemma QualifiedAgreeStep(setup: Setup, a: Completed, b: Completed, through: nat,
                           previous: Result<seq<Accepted>, Refusal>)
    requires 0 < through <= 4 && Agree(a, b, through) && ThreeValidRuns(RunsFor(a, M0), false)
    requires QualifiedTreatments(setup, a, through - 1) == previous
    requires QualifiedTreatments(setup, b, through - 1) == previous
    ensures QualifiedTreatments(setup, b, through) == QualifiedTreatments(setup, a, through)
  {
    assert InScope(M0, through);
    assert RunsFor(b, M0) == RunsFor(a, M0);
    if previous.Ok? {
      QualifiedScope(setup, a, through - 1, previous.value);
      StageAgree(setup, a, b, through, previous.value);
      QualifiedUnfold(setup, a, through, previous.value);
      QualifiedUnfold(setup, b, through, previous.value);
    }
  }

  lemma AgreeOnBaseline(a: Completed, b: Completed, through: nat)
    requires Agree(a, b, through)
    ensures RunsFor(b, M0) == RunsFor(a, M0)
  {
    assert InScope(M0, through);
  }

  /** What is accepted through a stage depends on that stage's runs and the reference only. */
  lemma {:induction false} QualifiedAgree(setup: Setup, a: Completed, b: Completed, through: nat)
    requires through <= 4 && Agree(a, b, through)
    ensures QualifiedTreatments(setup, b, through) == QualifiedTreatments(setup, a, through)
    decreases through
  {
    AgreeOnBaseline(a, b, through);
    if through == 0 || !ThreeValidRuns(RunsFor(a, M0), false) {
      NothingQualified(setup, a, through);
      NothingQualified(setup, b, through);
    } else {
      AgreeBelow(a, b, through - 1, through);
      QualifiedAgree(setup, a, b, through - 1);
      QualifiedAgreeStep(setup, a, b, through, QualifiedTreatments(setup, a, through - 1));
    }
  }

  lemma NothingQualified(setup: Setup, completed: Completed, through: nat)
    requires through == 0 || !ThreeValidRuns(RunsFor(completed, M0), false)
    ensures QualifiedTreatments(setup, completed, through) == Ok([])
  {
  }

  lemma ActiveAgree(setup: Setup, a: Completed, b: Completed, through: nat)
    requires through <= 4 && Agree(a, b, through)
    ensures ActiveCondition(setup, b, through) == ActiveCondition(setup, a, through)
  {
    assert InScope(M0, through);
    assert RunsFor(b, M0) == RunsFor(a, M0);
    QualifiedAgree(setup, a, b, through);
    var qualified := QualifiedTreatments(setup, a, through);
    if qualified.Ok? {
      QualifiedScope(setup, a, through, qualified.value);
      assert RunsFor(b, LastCell(qualified.value)) == RunsFor(a, LastCell(qualified.value));
    }
  }
}
