/** What the accepted treatments of any completed evidence look like. */
module AcceptedChain {
  import opened Basics
  import opened Contract
  import opened Campaign

  /** Loading a claim checks that its evidence names the claim's own cell and replicate. */
  ghost predicate WellKeyed(completed: Completed) {
    forall k | k in completed :: completed[k].cell == k.0 && completed[k].replicate == k.1
  }

  /** The treatment stage a cell belongs to; 0 for the cells that accept nothing. */
  function TreatmentStage(cell: Cell): int {
    match cell
    case M1 => 1
    case M2 => 2
    case M3A => 3
    case M3B => 3
    case M4 => 4
    case _ => 0
  }

  /** The treatment in force after a list of accepted entries. */
  function InForce(base: Treatment, accepted: seq<Accepted>): Treatment {
    if accepted == [] then base else accepted[|accepted| - 1].treatment
  }

  /**
   Accepted entries of stages up to `limit`, at most one a stage and in stage order, each changing
   exactly the control its stage owns against the entry before it (or the baseline).
   */
  ghost predicate Chain(base: Treatment, accepted: seq<Accepted>, limit: int) {
    accepted == [] ||
    var rest, last := accepted[..|accepted| - 1], accepted[|accepted| - 1];
    && 1 <= TreatmentStage(last.cell) <= limit
    && ControlChange(last.cell).Some?
    && ChangesOnly(InForce(base, rest), last.treatment, ControlChange(last.cell).value)
    && Chain(base, rest, TreatmentStage(last.cell) - 1)
  }

  lemma {:induction false} ChainWeaken(base: Treatment, accepted: seq<Accepted>, low: int, high: int)
    requires Chain(base, accepted, low) && low <= high
    ensures Chain(base, accepted, high)
  {
  }

  /** The entry a stage adds, if it accepts its candidate. */
  ghost predicate StageEntry(base: Treatment, accepted: seq<Accepted>, one: seq<Accepted>, cell: Cell, runs: seq<Run>) {
    one == [] ||
    (&& runs != []
     && one == [Accepted(cell, runs[0].controls.treatment)]
     && ControlChange(cell).Some?
     && ChangesOnly(InForce(base, accepted), runs[0].controls.treatment, ControlChange(cell).value))
  }

  lemma AppendToChain(base: Treatment, accepted: seq<Accepted>, one: seq<Accepted>, cell: Cell, runs: seq<Run>)
    requires TreatmentStage(cell) >= 1 && ControlChange(cell).Some?
    requires Chain(base, accepted, TreatmentStage(cell) - 1)
    requires StageEntry(base, accepted, one, cell, runs)
    ensures Chain(base, accepted + one, TreatmentStage(cell))
  {
    if one == [] {
      assert accepted + one == accepted;
      ChainWeaken(base, accepted, TreatmentStage(cell) - 1, TreatmentStage(cell));
    } else {
      assert (accepted + one)[..|accepted + one| - 1] == accepted;
    }
  }

  lemma RunsForCell(completed: Completed, cell: Cell)
    requires WellKeyed(completed)
    ensures forall r | r in RunsFor(completed, cell) :: r.cell == cell
  {
  }

  /** An accepted candidate is a stage entry. */
  lemma CandidateEntry(setup: Setup, cell: Cell, baseline: seq<Run>, runs: seq<Run>, reference: Option<Run>,
                       base: Treatment, accepted: seq<Accepted>)
    requires SingleVariable(setup)
    requires forall r | r in runs :: r.cell == cell
    requires baseline != [] ==> baseline[0].controls.treatment == InForce(base, accepted)
    ensures StageEntry(base, accepted, QualifiedCandidate(setup, cell, baseline, runs, reference), cell, runs)
  {
    if setup.accepts(cell, baseline, runs, reference) {
      assert OneControlChanged(cell, baseline, runs);
    }
  }

  /** The treatment of the baseline condition. */
  function BaseTreatment(completed: Completed): Treatment
    requires RunsFor(completed, M0) != []
  {
    RunsFor(completed, M0)[0].controls.treatment
  }

  /** The last entry carries the controls of the first run of its own cell. */
  ghost predicate LastFromRuns(completed: Completed, accepted: seq<Accepted>) {
    accepted != [] ==>
      var last := accepted[|accepted| - 1];
      RunsFor(completed, last.cell) != [] && RunsFor(completed, last.cell)[0].controls.treatment == last.treatment
  }

  /** One stage compared with the condition in force keeps the chain. */
  lemma AddStage(setup: Setup, completed: Completed, accepted: seq<Accepted>, cell: Cell)
    requires SingleVariable(setup) && WellKeyed(completed) && RunsFor(completed, M0) != []
    requires TreatmentStage(cell) >= 1
    requires Chain(BaseTreatment(completed), accepted, TreatmentStage(cell) - 1)
    requires LastFromRuns(completed, accepted)
    ensures var one := InForceCandidate(setup, completed, cell, accepted);
            && Chain(BaseTreatment(completed), accepted + one, TreatmentStage(cell))
            && LastFromRuns(completed, accepted + one)
  {
    var base, runs := BaseTreatment(completed), RunsFor(completed, cell);
    var baseline := RunsFor(completed, LastCell(accepted));
    RunsForCell(completed, cell);
    assert baseline != [] ==> baseline[0].controls.treatment == InForce(base, accepted);
    CandidateEntry(setup, cell, baseline, runs, ReferenceRun(completed), base, accepted);
    var one := InForceCandidate(setup, completed, cell, accepted);
    AppendToChain(base, accepted, one, cell, runs);
    assert one == [] ==> accepted + one == accepted;
  }

  lemma AddM3(setup: Setup, completed: Completed, accepted: seq<Accepted>)
    requires SingleVariable(setup) && WellKeyed(completed) && RunsFor(completed, M0) != []
    requires Chain(BaseTreatment(completed), accepted, 2) && LastFromRuns(completed, accepted)
    requires |M3Candidates(setup, completed, accepted)| <= 1
    ensures Chain(BaseTreatment(completed), accepted + M3Candidates(setup, completed, accepted), 3)
    ensures LastFromRuns(completed, accepted + M3Candidates(setup, completed, accepted))
  {
    AddStage(setup, completed, accepted, M3A);
    AddStage(setup, completed, accepted, M3B);
    var a := InForceCandidate(setup, completed, M3A, accepted);
    var b := InForceCandidate(setup, completed, M3B, accepted);
    assert a + b == a || a + b == b;
  }

  lemma StageKeepsChain(setup: Setup, completed: Completed, stage: int, accepted: seq<Accepted>, next: seq<Accepted>)
    requires SingleVariable(setup) && WellKeyed(completed) && RunsFor(completed, M0) != []
    requires 1 <= stage <= 4
    requires Chain(BaseTreatment(completed), accepted, stage - 1) && LastFromRuns(completed, accepted)
    requires AddTreatmentStage(setup, completed, stage, accepted) == Ok(next)
    ensures Chain(BaseTreatment(completed), next, stage) && LastFromRuns(completed, next)
  {
    ChainWeaken(BaseTreatment(completed), accepted, stage - 1, stage);
    if stage == 1 {
      AddStage(setup, completed, accepted, M1);
    } else if stage == 2 {
      AddStage(setup, completed, accepted, M2);
    } else if stage == 3 {
      AddM3(setup, completed, accepted);
    } else {
      AddStage(setup, completed, accepted, M4);
    }
  }

  lemma QualifiedStep(setup: Setup, completed: Completed, through: nat, accepted: seq<Accepted>)
    returns (previous: seq<Accepted>)
    requires through > 0 && ThreeValidRuns(RunsFor(completed, M0), false)
    requires QualifiedTreatments(setup, completed, through) == Ok(accepted)
    ensures QualifiedTreatments(setup, completed, through - 1) == Ok(previous)
    ensures AddTreatmentStage(setup, completed, through, previous) == Ok(accepted)
  {
    previous := QualifiedTreatments(setup, completed, through - 1).value;
  }

  /** Every entry changes exactly its stage's control against its predecessor. */
  lemma {:induction false} AcceptedTreatmentsChain(setup: Setup, completed: Completed, through: nat,
                                                   accepted: seq<Accepted>)
    requires SingleVariable(setup) && WellKeyed(completed)
    requires ThreeValidRuns(RunsFor(completed, M0), false)
    requires through <= 4 && QualifiedTreatments(setup, completed, through) == Ok(accepted)
    ensures Chain(BaseTreatment(completed), accepted, through)
    ensures LastFromRuns(completed, accepted)
    decreases through
  {
    if through > 0 {
      var previous := QualifiedStep(setup, completed, through, accepted);
      AcceptedTreatmentsChain(setup, completed, through - 1, previous);
      StageKeepsChain(setup, completed, through, previous, accepted);
    }
  }

  lemma StageExtends(setup: Setup, completed: Completed, stage: int, accepted: seq<Accepted>, next: seq<Accepted>)
    requires AddTreatmentStage(setup, completed, stage, accepted) == Ok(next)
    ensures accepted <= next
  {
  }

  /** What is accepted through an earlier stage is a prefix of what is accepted through a later one. */
  lemma {:induction false} AcceptedTreatmentsPrefix(setup: Setup, completed: Completed, earlier: nat, later: nat,
                                                    accepted: seq<Accepted>)
    requires earlier <= later && QualifiedTreatments(setup, completed, later) == Ok(accepted)
    ensures QualifiedTreatments(setup, completed, earlier).Ok?
    ensures QualifiedTreatments(setup, completed, earlier).value <= accepted
    decreases later
  {
    if earlier < later && ThreeValidRuns(RunsFor(completed, M0), false) {
      var previous := QualifiedStep(setup, completed, later, accepted);
      AcceptedTreatmentsPrefix(setup, completed, earlier, later - 1, previous);
      StageExtends(setup, completed, later, previous, accepted);
    }
  }

  ghost predicate Owned(accepted: seq<Accepted>, key: ControlKey) {
    exists a | a in accepted :: ControlChange(a.cell) == Some(key)
  }

  /** The controls in force carry every accepted change against the baseline, and no other. */
  lemma {:induction false} AcceptedChangesAddUp(base: Treatment, accepted: seq<Accepted>, limit: int)
    requires Chain(base, accepted, limit)
    ensures var last := InForce(base, accepted);
            && (base.disableCache != last.disableCache <==> Owned(accepted, CacheKey))
            && (base.dtype != last.dtype <==> Owned(accepted, DtypeKey))
            && (base.backend != last.backend <==> Owned(accepted, BackendKey))
            && (base.batch != last.batch <==> Owned(accepted, BatchKey))
    ensures limit < 1 ==> !Owned(accepted, CacheKey)
    ensures limit < 2 ==> !Owned(accepted, DtypeKey)
    ensures limit < 3 ==> !Owned(accepted, BackendKey)
    ensures limit < 4 ==> !Owned(accepted, BatchKey)
  {
    if accepted != [] {
      var rest, last := accepted[..|accepted| - 1], accepted[|accepted| - 1];
      AcceptedChangesAddUp(base, rest, TreatmentStage(last.cell) - 1);
      assert forall a :: a in accepted <==> a in rest || a == last;
      forall key: ControlKey
        ensures Owned(accepted, key) <==> Owned(rest, key) || ControlChange(last.cell) == Some(key)
      {
        if Owned(rest, key) {
          var a :| a in rest && ControlChange(a.cell) == Some(key);
          assert a in accepted;
        }
      }
    }
  }

  /** `_qualified_treatments` as the source runs it: one list, extended stage by stage. */
  method CollectTreatments(setup: Setup, completed: Completed, through: nat)
    returns (result: Result<seq<Accepted>, Refusal>)
    requires through <= 4
    ensures result == QualifiedTreatments(setup, completed, through)
  {
    var qualified: seq<Accepted> := [];
    if !ThreeValidRuns(RunsFor(completed, M0), false) {
      return Ok(qualified);
    }
    for stage := 1 to through + 1
      invariant QualifiedTreatments(setup, completed, stage - 1) == Ok(qualified)
    {
      var extended := AddTreatmentStage(setup, completed, stage, qualified);
      QualifiedUnfold(setup, completed, stage, qualified);
      if extended.Err? {
        RefusalStays(setup, completed, stage, through);
        return extended;
      }
      qualified := extended.value;
    }
    return Ok(qualified);
  }

  lemma QualifiedUnfold(setup: Setup, completed: Completed, stage: nat, previous: seq<Accepted>)
    requires stage > 0 && ThreeValidRuns(RunsFor(completed, M0), false)
    requires QualifiedTreatments(setup, completed, stage - 1) == Ok(previous)
    ensures QualifiedTreatments(setup, completed, stage) == AddTreatmentStage(setup, completed, stage, previous)
  {
  }

  /** A refusal at one stage is the refusal at every later one. */
  lemma {:induction false} RefusalStays(setup: Setup, completed: Completed, stage: nat, through: nat)
    requires stage <= through && QualifiedTreatments(setup, completed, stage).Err?
    ensures QualifiedTreatments(setup, completed, through) == QualifiedTreatments(setup, completed, stage)
    decreases through
  {
    if stage < through {
      RefusalStays(setup, completed, stage, through - 1);
    }
  }
}
