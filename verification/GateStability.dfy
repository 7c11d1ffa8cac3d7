/** Gates stay as they were: what later ledger growth can and cannot re-open. */
module GateStability {
  import opened Basics
  import opened Contract
  import opened Campaign
  import opened AcceptedChain
  import opened Ledger
  import opened LedgerInvariant
  import opened StageOrder

  /** No entry from `i` up to `j` is a CPU reference. */
  predicate NoReferenceBetween(ledger: seq<Claim>, i: int, j: int)
    requires 0 <= i <= j <= |ledger|
  {
    forall n | i <= n < j :: ledger[n].cell != CpuReference
  }

  /** The parity reference cannot change between `i` and `j`: M0 supplies it, or no CPU reference arrives. */
  ghost predicate ReferenceSettled(setup: Setup, ledger: seq<Claim>, i: int, j: int)
    requires 0 <= i <= j <= |ledger|
  {
    FirstCorrect(RunsFor(SeenBy(setup, ledger, i), M0)).Some? || NoReferenceBetween(ledger, i, j)
  }

  /** Without a claim of the cell in between, its runs are unchanged. */
  lemma UntouchedCell(setup: Setup, ledger: seq<Claim>, i: int, j: int, cell: Cell)
    requires Orderly(setup, ledger) && Visible(setup, ledger, j) && 0 <= i <= j
    requires forall n | i <= n < j :: ledger[n].cell != cell
    ensures RunsFor(SeenBy(setup, ledger, j), cell) == RunsFor(SeenBy(setup, ledger, i), cell)
  {
    var a, b := SeenBy(setup, ledger, i), SeenBy(setup, ledger, j);
    SeenGrows(setup, ledger, i, j);
    forall r | 1 <= r <= 3 && (cell, r) in b
      ensures (cell, r) in a
    {
      var n := SeenOnly(setup, ledger, j, (cell, r));
      SeenHas(setup, ledger, n, i);
    }
    SameSlotsSameRuns(a, b, cell);
  }

  lemma BaselineStays(setup: Setup, ledger: seq<Claim>, i: int, j: int)
    requires LedgerInv(setup, ledger) && 0 <= i <= j < |ledger| && ledger[i].cell != M0
    ensures RunsFor(SeenBy(setup, ledger, j), M0) == RunsFor(SeenBy(setup, ledger, i), M0)
    ensures ThreeValidRuns(RunsFor(SeenBy(setup, ledger, i), M0), false)
  {
    assert GatedAt(setup, ledger, i) && ClaimInRange(ledger[i]);
    GateNeedsBaseline(setup, SeenBy(setup, ledger, i), ledger[i].replicate, ledger[i].spec);
    SeenGrows(setup, ledger, i, j);
    FullCellStays(SeenBy(setup, ledger, i), SeenBy(setup, ledger, j), M0);
  }

  lemma ReferenceStays(setup: Setup, ledger: seq<Claim>, i: int, j: int)
    requires LedgerInv(setup, ledger) && 0 <= i <= j < |ledger| && ledger[i].cell != M0
    requires ReferenceSettled(setup, ledger, i, j)
    ensures ReferenceRun(SeenBy(setup, ledger, j)) == ReferenceRun(SeenBy(setup, ledger, i))
  {
    BaselineStays(setup, ledger, i, j);
    if NoReferenceBetween(ledger, i, j) {
      UntouchedCell(setup, ledger, i, j, CpuReference);
    }
  }

  lemma AgreeThroughM2(a: Completed, b: Completed)
    requires RunsFor(b, M0) == RunsFor(a, M0) && RunsFor(b, M1) == RunsFor(a, M1) && RunsFor(b, M2) == RunsFor(a, M2)
    requires ReferenceRun(b) == ReferenceRun(a)
    ensures Agree(a, b, 2)
  {
    forall cell: Cell | InScope(cell, 2)
      ensures RunsFor(b, cell) == RunsFor(a, cell)
    {
      assert TreatmentStage(cell) <= 2;
      assert cell == M0 || cell == M1 || cell == M2;
    }
  }

  lemma M1Stays(setup: Setup, ledger: seq<Claim>, i: int, j: int)
    requires LedgerInv(setup, ledger) && 0 <= i <= j < |ledger|
    requires ledger[i].cell in {M3Profile, M3A, M3B, M4, M5}
    ensures RunsFor(SeenBy(setup, ledger, j), M1) == RunsFor(SeenBy(setup, ledger, i), M1)
  {
    forall n | i <= n < j
      ensures ledger[n].cell != M1
    {
      if i < n {
        NoM1Later(setup, ledger, i, n);
      }
    }
    UntouchedCell(setup, ledger, i, j, M1);
  }

  lemma M2Stays(setup: Setup, ledger: seq<Claim>, i: int, j: int)
    requires LedgerInv(setup, ledger) && 0 <= i <= j < |ledger|
    requires ledger[i].cell in {M3Profile, M3A, M3B, M4, M5}
    ensures RunsFor(SeenBy(setup, ledger, j), M2) == RunsFor(SeenBy(setup, ledger, i), M2)
    ensures ThreeValidRuns(RunsFor(SeenBy(setup, ledger, i), M2), false)
  {
    assert GatedAt(setup, ledger, i) && ClaimInRange(ledger[i]);
    GateLater(setup, SeenBy(setup, ledger, i), ledger[i].replicate, ledger[i].spec);
    SeenGrows(setup, ledger, i, j);
    FullCellStays(SeenBy(setup, ledger, i), SeenBy(setup, ledger, j), M2);
  }

  /** From the first cell after M2 on, everything acceptance through M2 depends on is fixed. */
  lemma EarlyStagesFixed(setup: Setup, ledger: seq<Claim>, i: int, j: int)
    requires LedgerInv(setup, ledger) && 0 <= i <= j < |ledger|
    requires ledger[i].cell in {M3Profile, M3A, M3B, M4, M5}
    requires ReferenceSettled(setup, ledger, i, j)
    ensures Agree(SeenBy(setup, ledger, i), SeenBy(setup, ledger, j), 2)
  {
    BaselineStays(setup, ledger, i, j);
    ReferenceStays(setup, ledger, i, j);
    M1Stays(setup, ledger, i, j);
    M2Stays(setup, ledger, i, j);
    AgreeThroughM2(SeenBy(setup, ledger, i), SeenBy(setup, ledger, j));
  }

  lemma NoM1Later(setup: Setup, ledger: seq<Claim>, i: int, n: int)
    requires LedgerInv(setup, ledger) && 0 <= i < n < |ledger|
    requires ledger[i].cell in {M3Profile, M3A, M3B, M4, M5}
    ensures ledger[n].cell != M1
  {
    if ledger[n].cell == M1 {
      EarlierStageClosed(setup, ledger, i, n);
    }
  }

  lemma OpeningAgree(setup: Setup, a: Completed, b: Completed)
    requires Agree(a, b, 2)
    ensures M3OpeningSupported(setup, b) == M3OpeningSupported(setup, a)
  {
    ActiveAgree(setup, a, b, 2);
  }

  /** The M3 opening verdict, once a later cell has run, is the verdict of every later claim. */
  lemma OpeningStable(setup: Setup, ledger: seq<Claim>, i: int, j: int)
    requires LedgerInv(setup, ledger) && 0 <= i <= j < |ledger|
    requires ledger[i].cell in {M3Profile, M3A, M3B, M4, M5}
    requires ReferenceSettled(setup, ledger, i, j)
    ensures M3OpeningSupported(setup, SeenBy(setup, ledger, j)) == M3OpeningSupported(setup, SeenBy(setup, ledger, i))
  {
    EarlyStagesFixed(setup, ledger, i, j);
    OpeningAgree(setup, SeenBy(setup, ledger, i), SeenBy(setup, ledger, j));
  }

  lemma ProfileStays(setup: Setup, ledger: seq<Claim>, i: int, j: int)
    requires LedgerInv(setup, ledger) && 0 <= i <= j < |ledger|
    requires ProfileComplete(SeenBy(setup, ledger, i))
    ensures RunsFor(SeenBy(setup, ledger, j), M3Profile) == RunsFor(SeenBy(setup, ledger, i), M3Profile)
    ensures EligibleBackends(SeenBy(setup, ledger, j)) == EligibleBackends(SeenBy(setup, ledger, i))
    ensures ObservedBackend(SeenBy(setup, ledger, j)) == ObservedBackend(SeenBy(setup, ledger, i))
  {
    forall n | i <= n < j
      ensures ledger[n].cell != M3Profile
    {
      FullCellNotAdmitted(setup, ledger, i, n);
    }
    UntouchedCell(setup, ledger, i, j, M3Profile);
    SameProfile(SeenBy(setup, ledger, i), SeenBy(setup, ledger, j));
  }

  lemma SameProfile(a: Completed, b: Completed)
    requires RunsFor(b, M3Profile) == RunsFor(a, M3Profile)
    ensures EligibleBackends(b) == EligibleBackends(a) && ObservedBackend(b) == ObservedBackend(a)
  {
  }

  /** A path that is open, and therefore resolved, when M4 is admitted is closed for good. */
  lemma ResolvedStaysClosed(setup: Setup, ledger: seq<Claim>, i: int, j: int)
    requires LedgerInv(setup, ledger) && 0 <= i < j < |ledger| && ledger[i].cell == M4
    requires M3OpeningSupported(setup, SeenBy(setup, ledger, i)) == Ok(true)
    ensures ledger[j].cell !in {M3Profile, M3A, M3B}
  {
    var a, b := SeenBy(setup, ledger, i), SeenBy(setup, ledger, j);
    if ledger[j].cell in {M3Profile, M3A, M3B} {
      assert GatedAt(setup, ledger, i) && ClaimInRange(ledger[i]);
      GateM4(setup, a, ledger[i].replicate, ledger[i].spec);
      PathResolvedWhenOpen(setup, a);
      FullCellNotAdmitted(setup, ledger, i, j);
      ProfileStays(setup, ledger, i, j);
      SeenGrows(setup, ledger, i, j);
      if ledger[j].cell != M3Profile {
        assert GatedAt(setup, ledger, j) && ClaimInRange(ledger[j]);
        GateM3Treatment(setup, b, ledger[j].replicate, ledger[j].spec);
        ResolvedPathIsClosed(setup, a, b, ledger[j].cell);
      }
    }
  }

  /** The gate of every M3 cell asks for the M3 opening. */
  lemma GateM3Opened(setup: Setup, ledger: seq<Claim>, j: int)
    requires LedgerInv(setup, ledger) && 0 <= j < |ledger| && ledger[j].cell in {M3Profile, M3A, M3B}
    ensures M3OpeningSupported(setup, SeenBy(setup, ledger, j)) == Ok(true)
  {
    var seen := SeenBy(setup, ledger, j);
    assert GatedAt(setup, ledger, j) && ClaimInRange(ledger[j]);
    if ledger[j].cell == M3Profile {
      GateM3Profile(setup, seen, ledger[j].replicate, ledger[j].spec);
    } else {
      GateM3Treatment(setup, seen, ledger[j].replicate, ledger[j].spec);
    }
  }

  /** What keeps an admitted M4 from being followed by an M3 cell at `j`. */
  ghost predicate M3Shut(setup: Setup, ledger: seq<Claim>, i: int, j: int)
    requires 0 <= i <= j <= |ledger|
  {
    ReferenceSettled(setup, ledger, i, j) || M3OpeningSupported(setup, SeenBy(setup, ledger, i)) == Ok(true)
  }

  /**
   Once M4 is admitted no M3 cell follows, if the M3 path was open then or the parity reference has
   not changed since.
   */
  lemma NoM3AfterM4(setup: Setup, ledger: seq<Claim>, i: int, j: int)
    requires LedgerInv(setup, ledger) && 0 <= i < j < |ledger|
    requires ledger[i].cell == M4 && M3Shut(setup, ledger, i, j)
    ensures ledger[j].cell !in {M3Profile, M3A, M3B}
  {
    if ledger[j].cell in {M3Profile, M3A, M3B} {
      if M3OpeningSupported(setup, SeenBy(setup, ledger, i)) != Ok(true) {
        GateM3Opened(setup, ledger, j);
        OpeningStable(setup, ledger, i, j);
      } else {
        ResolvedStaysClosed(setup, ledger, i, j);
      }
    }
  }

  lemma PathResolvedWhenOpen(setup: Setup, completed: Completed)
    requires M3TreatmentCompleted(setup, completed) == Ok(true) && M3OpeningSupported(setup, completed) == Ok(true)
    ensures M3PathResolved(setup, completed)
  {
  }

  /** A resolved M3 path leaves no backend to a cell that still has a free claim file. */
  lemma ResolvedPathIsClosed(setup: Setup, a: Completed, b: Completed, cell: Cell)
    requires M3PathResolved(setup, a) && Within(a, b)
    requires EligibleBackends(b) == EligibleBackends(a)
    requires cell == M3A || cell == M3B
    requires |RunsFor(a, cell)| != 3
    ensures OpenBackends(b, cell) == {}
  {
    if EligibleBackends(a) != {} {
      assert ThreeValidRuns(RunsFor(a, M3A), true);
      FullCellStays(a, b, M3A);
    }
  }
}
