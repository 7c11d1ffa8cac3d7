# Verified model of OfflineRAG's diagnostic campaign and its supporting tools

A Dafny 4.11 model of the parts of the repository where a wrong state is hardest to see, and proofs
of what they promise. `dafny verify dfyconfig.toml` checks everything.

**The R04 embedding-memory campaign.** A locked claim ledger admits one diagnostic process at a time.
`Contract`, `Evidence` and `Campaign` model the controls, the reduction of one evidence file and the
gate that re-derives the whole stage machine from all completed evidence; `Acceptance` is the gate a
treatment has to pass, `Parity` its vector and retrieval part. `Ledger` states claim and completion,
`CampaignLedger` is the ledger as the program keeps it, with its loops. `LedgerInvariant` defines runs
as any interleaving of authorized claims, completions and crashes; `LedgerTime`, `StageOrder`, `GateStability`,
`AcceptedChain`, `CampaignTheorems`, `Confirmation`, `LateReference` and `Stranding` prove what every run
keeps. A ledger is a sequence in claim order, and the invariant behind most proofs is that each entry
passed the gate on exactly the entries before it; `Reachability` proves that invariant exact.
`SampleEvidence`, `CampaignStart` and `LateCampaign` build runs from raw evidence.

**Batching.** `Packing` proves in-order next-fit optimal for any cost that parts of a batch inherit;
`TokenBatches` (padded tokens, and encoding through the partitions) and `UploadBatches` (files and
bytes) are its two instances.

**Corpus manifests.** `Manifest` is the independent validator, `ManifestBuilder` the builder and their
agreement, `RobustnessCases` the case specs, the evidence of a case and the matrix verdict.

**Smaller pieces.** `Spearman` and `Pearson` (rank correlation with ties, and linear correlation), `Workers` (worker ownership under
cancellation), `PdfText`, `PdfContent` and `PdfFile` (a PDF writer against a reader that follows
ISO 32000-1, sections 7.3.4.2, 7.3.8, 7.5.4, 7.5.5 and 7.7), `CandidateRecovery` (quarantine of abandoned
candidates), `DiskUsage` (nested roots and running extremes) and `StageTimes` (time per stage).
`Basics`, `Sorting` and `VectorMath` are shared.

What the proofs found:

- A CPU reference that arrives after M4 can make an earlier treatment accepted and re-open M3
  (`LateCampaign.LateReferenceReopensM3`; exactly when: `LateReference.M3ReopensExactly`). After
  any such late acceptance M4 cannot be completed, because its further replicates would need other
  controls than the first, and M5 waits for it (`Stranding.StrandedForGood`; exactly when M4 can
  continue: `Stranding.M4ContinuesExactly`).
- When some baseline run reports the cache enabled and another the activation witness, but none both,
  M1 is refused as not applicable while every later cell waits for M1, in this run and in every
  continuation (`Confirmation.CacheGateCanHalt`; exactly when: `Confirmation.BaselineGoesOnExactly`).
- M4 is the only sequenced cell whose gate ignores the replicate number
  (`CampaignTheorems.M4ReplicatesUnordered`).
- The budget check and the cumulative deadline never bind in a ledger the program itself has written.
- The builder compares media types and classes of equal bytes but not their sizes, which the validator
  does compare; on a real inventory the two always agree.
- The gate leaves the profiler flag of the first M0, M1 and M5 claim to the authority
  (`CampaignTheorems.ProfilerFree`).
- The wait in the except branch of `run_owned_worker` is not shielded, so a second cancellation there
  releases capacity while the thread runs; the last wait of its finally block is never needed before that.

## Model

| member | source | states |
|---|---|---|
| `CampaignTheorems.StagesInOrder` | scripts/diag_16k_r04_embedding_memory/campaign.py:500-680 | in every run of claims, completions and crashes the ledger is in the order M0, M1, M2, M3_PROFILE, M3_A, M3_B, M4, M5 (CPU reference apart); only an M3 cell after an M4 cell needs more: the M3 path was open when M4 was admitted, or the parity reference has not changed since |
| `CampaignTheorems.ReplicatesInOrder` | scripts/diag_16k_r04_embedding_memory/campaign.py:517-659 | M0, M1, M2, M3_A, M3_B and M5 replicates are admitted exactly as 1, 2, 3 |
| `CampaignTheorems.M4ReplicatesUnordered` | scripts/diag_16k_r04_embedding_memory/campaign.py:637-655 | the M4 gate never looks at the replicate, so M4 is the one cell without that order |
| `CampaignTheorems.ProfilerFree` | scripts/diag_16k_r04_embedding_memory/campaign.py:517-540 | the first claim of M0, M1 or M5 is admitted or not whatever its profiler flag says |
| `CampaignTheorems.ProfilerFixed` | scripts/diag_16k_r04_embedding_memory/campaign.py:566-655 | every claim of M2, M3_A, M3_B or M4 has it off and M3_PROFILE has it on |
| `CampaignTheorems.Prerequisites` | scripts/diag_16k_r04_embedding_memory/campaign.py:508-636 | what has completed when a cell is admitted: three valid M0, three valid M2 before M3/M4/M5, the profile before M3_A and M3_B, three successful M3_A before M3_B, an active cache before M1, an M0 OOM before the CPU reference, and nothing but M5 after an M5 |
| `CampaignTheorems.CellControlsFixed` | scripts/diag_16k_r04_embedding_memory/campaign.py:510-516 | any two claims of one cell in a reachable ledger carry the same effective controls |
| `CampaignTheorems.ReplicatesAgree` | scripts/diag_16k_r04_embedding_memory/campaign.py:100-108 | so the error for inconsistent replicate controls cannot arise from a reachable ledger |
| `CampaignTheorems.OnlyAmbiguityRefuses` | scripts/diag_16k_r04_embedding_memory/campaign.py:186-279 | on reachable evidence the accepted treatments fail to be derivable exactly when both M3 alternatives qualify; through M2 they always are derivable |
| `CampaignTheorems.EligibleMeans` | scripts/diag_16k_r04_embedding_memory/campaign.py:424-446 | a backend is eligible exactly if every profiled call could use it and the baseline did not already |
| `CampaignTheorems.M3BackendsSound` | scripts/diag_16k_r04_embedding_memory/campaign.py:597-636 | in every run an M3_A or M3_B cell forces a backend every profiled call could use, other than the baseline's, and M3_B another than M3_A |
| `StageOrder.EarlierStageClosed` | scripts/diag_16k_r04_embedding_memory/campaign.py:500-680 | a later cell in the ledger leaves no free claim file, or no open gate, for a cell of an earlier stage |
| `StageOrder.FullCellNotAdmitted` | scripts/diag_16k_r04_embedding_memory/runtime.py:260-265 | a cell whose runs are complete is never claimed again |
| `StageOrder.QualifiedAgree` | scripts/diag_16k_r04_embedding_memory/campaign.py:186-279 | the accepted treatments through a stage depend on the runs of M0, of the stages up to it, and on the parity reference only |
| `StageOrder.ActiveAgree` | scripts/diag_16k_r04_embedding_memory/campaign.py:282-299 | the same for the active condition |
| `GateStability.EarlyStagesFixed` | scripts/diag_16k_r04_embedding_memory/campaign.py:111-127 | from the first cell after M2 on, everything acceptance through M2 depends on is fixed, if the parity reference is settled |
| `GateStability.OpeningStable` | scripts/diag_16k_r04_embedding_memory/campaign.py:323-355 | the M3 opening verdict seen by such a cell is the verdict seen by every later claim |
| `GateStability.ProfileStays` | scripts/diag_16k_r04_embedding_memory/campaign.py:397-446 | observed and eligible attention backends never change once the profile is complete |
| `GateStability.ResolvedPathIsClosed` | scripts/diag_16k_r04_embedding_memory/campaign.py:459-487 | a resolved M3 path leaves no backend to any cell that may still run |
| `GateStability.ResolvedStaysClosed` | scripts/diag_16k_r04_embedding_memory/campaign.py:459-487 | if the M3 path is open when M4 is admitted, it is resolved, and no M3 cell follows whatever reference arrives |
| `GateStability.NoM3AfterM4` | scripts/diag_16k_r04_embedding_memory/campaign.py:579-655 | after an admitted M4 no M3_PROFILE, M3_A or M3_B is admitted if the M3 path was open then, or as long as no new CPU reference changes the parity reference |
| `LateReference.ReferenceStillOpen` | scripts/diag_16k_r04_embedding_memory/campaign.py:541-546 | before M5 the CPU reference can still be claimed exactly when it has not run and some M0 run ended in OOM |
| `LateReference.M4ClosesM3` | scripts/diag_16k_r04_embedding_memory/campaign.py:579-655 | in every run: unless M3 can re-open on the evidence that admits an M4 claim (an open reference, a closed M3, and a reference that would open it for a listed profile), no M3 cell is claimed after it |
| `LateReference.M3ReopensExactly` | scripts/diag_16k_r04_embedding_memory/campaign.py:500-655 | for every ledger that has just admitted M4: some run with these claims claims an M3 cell later if and only if the parity reference is not final, M3 is not open, and some reference the campaign would accept opens M3 for a condition whose M3_PROFILE spec the authority lists |
| `LateReference.ProfileAdmittedExactly` | scripts/diag_16k_r04_embedding_memory/campaign.py:579-596 | past the gates common to all later cells M3_PROFILE is admissible exactly when the condition in force through M2 opens M3 |
| `LateCampaign.LateReferenceReopensM3` | scripts/diag_16k_r04_embedding_memory/campaign.py:111-127 | given raw evidence of three M0 OOMs, three M2 successes and a CPU reference, a run from the initial state claims M0 x 3, M2 x 3, M4, the CPU reference and then M3_PROFILE, each with a spec the authority lists; the reference has made M2 accepted in between and M4 is stranded |
| `LateCampaign.RealGateReopensM3` | scripts/diag_16k_r04_embedding_memory/campaign.py:130-183 | the same run under the campaign's own parity gate, for any norm-valid vectors |
| `Stranding.M4ContinuesExactly` | scripts/diag_16k_r04_embedding_memory/campaign.py:510-655 | after an M4 claim a further M4 claim is admissible exactly when M4 is still due and the condition accepted through M3 still has the treatment it had at that claim |
| `Stranding.M4ClaimsAgree` | scripts/diag_16k_r04_embedding_memory/campaign.py:510-516 | at every M4 claim the condition accepted through M3 has the same treatment, so M1, M2 and M3 are accepted or not as they were at the first |
| `Stranding.TreatmentHeldBetween` | scripts/diag_16k_r04_embedding_memory/campaign.py:111-127 | a treatment that the condition has at an M4 claim and again later it has at every claim in between: it can be lost once, with the arrival of the reference |
| `Stranding.TreatmentNeedsReference` | scripts/diag_16k_r04_embedding_memory/campaign.py:111-127 | and it is lost only after a CPU reference that came when the parity reference was not final |
| `Stranding.M5NeedsM4` | scripts/diag_16k_r04_embedding_memory/campaign.py:656-667 | no M5 replicate, not only the checked first one, is claimed while M4 is open and has not succeeded three times |
| `Stranding.StrandedForGood` | scripts/diag_16k_r04_embedding_memory/campaign.py:510-667 | in every run, once the condition accepted through M3 has lost the treatment it had at an M4 claim (by a late acceptance of M1, M2 or an M3 alternative), M4 is never claimed again, and unless it had completed three runs no M5 is claimed while M4 is open |
| `AcceptedChain.AcceptedTreatmentsChain` | scripts/diag_16k_r04_embedding_memory/campaign.py:186-279 | each accepted entry changes exactly its own stage's control against the entry before it, or against M0 |
| `AcceptedChain.CollectTreatments` | scripts/diag_16k_r04_embedding_memory/campaign.py:186-279 | the list extended stage by stage, with its errors, is the recursive definition the theorems use |
| `AcceptedChain.AcceptedTreatmentsPrefix` | scripts/diag_16k_r04_embedding_memory/campaign.py:186-279 | what is accepted through an earlier stage is a prefix of what is accepted through a later one |
| `AcceptedChain.AcceptedChangesAddUp` | scripts/diag_16k_r04_embedding_memory/contract.py:464-509 | the last entry differs from the baseline in exactly the controls owned by the accepted stages |
| `Acceptance.AcceptedChangesOneControl` | scripts/diag_16k_r04_embedding_memory/campaign.py:130-183 | every gate between a treatment and its acceptance together imply a single-control change |
| `Confirmation.AcceptanceFixedAfterM5` | scripts/diag_16k_r04_embedding_memory/campaign.py:508-509 | between M5 claims nothing that acceptance depends on changes |
| `Confirmation.M5Selection` | scripts/diag_16k_r04_embedding_memory/campaign.py:656-679 | every M5 replicate, not only the checked first one, runs the last accepted treatment |
| `Confirmation.M5CarriesAcceptedChanges` | scripts/diag_16k_r04_embedding_memory/campaign.py:656-679 | in every run an M5 cell carries every accepted change against the baseline and no other |
| `Confirmation.CampaignProceedsPastBaseline` | scripts/diag_16k_r04_embedding_memory/campaign.py:525-564 | after three M0 runs some M1 or M2 claim is admissible exactly when the cache facts are resolvable |
| `Confirmation.NothingElseAfterBaseline` | scripts/diag_16k_r04_embedding_memory/campaign.py:548-564 | when they are not, no replicate 1 to 3 of anything but the CPU reference is admitted |
| `Confirmation.HaltedAt` | scripts/diag_16k_r04_embedding_memory/campaign.py:525-564 | nor ever later: once the cache facts of a complete baseline are unresolvable, every further claim is the CPU reference |
| `Confirmation.BaselineGoesOnExactly` | scripts/diag_16k_r04_embedding_memory/campaign.py:525-564 | for every ledger of a complete baseline: some run goes on from it with anything but the CPU reference if and only if the cache facts are resolvable and the authority lists an M1 or M2 spec that can follow |
| `Confirmation.CacheGateCanHalt` | scripts/diag_16k_r04_embedding_memory/campaign.py:531-556 | a run from the initial state completes a baseline, of given raw evidence, from which no run goes on |
| `LedgerInvariant.ClaimKeepsOrderly` | scripts/diag_16k_r04_embedding_memory/runtime.py:196-270 | a claim keeps claim files single-use and all earlier claims settled |
| `LedgerInvariant.CompletionKeepsInvariant` | scripts/diag_16k_r04_embedding_memory/runtime.py:273-371 | a completion always concerns the last claim and keeps the invariant |
| `LedgerInvariant.RunKeepsInvariant` | scripts/diag_16k_r04_embedding_memory/runtime.py:81-371 | the ledger invariant, with every entry gated on exactly the entries before it and permitted by the authority, holds in every run |
| `Reachability.InvariantIsReached` | scripts/diag_16k_r04_embedding_memory/runtime.py:143-371 | the invariant is exact: every ledger that satisfies it, settled but for a last open claim, is up to its clock readings the ledger of a run |
| `LedgerTime.LedgerSafety` | scripts/diag_16k_r04_embedding_memory/runtime.py:196-270 | in every run no cell replicate is claimed twice, only the last claim can be unfinished or invalid, and every cell cap and the 22/1/23 process caps hold |
| `LedgerTime.CapsHold` | scripts/diag_16k_r04_embedding_memory/contract.py:263-299 | single-use claim files alone imply the process caps |
| `LedgerTime.TimeAccounting` | scripts/diag_16k_r04_embedding_memory/runtime.py:219-371 | with a monotone clock claims never overlap, busy time fits into the wall time since the first claim, each deadline is the smaller of 900 s and the wall time left, and a valid completion took under 900 s and ended within 14400 s of the first claim |
| `LedgerTime.CumulativeNeverBinds` | scripts/diag_16k_r04_embedding_memory/runtime.py:70-78 | the cumulative term of the deadline is never the binding one |
| `LedgerTime.DurationWithinWall` | scripts/diag_16k_r04_embedding_memory/runtime.py:249-256 | the summed durations never exceed the wall time since the first claim |
| `LedgerTime.BudgetNeverBinds` | scripts/diag_16k_r04_embedding_memory/contract.py:263-299 | in a reachable ledger the budget check and the positive-deadline check follow from the other checks of a claim |
| `LedgerTime.ClaimsSeeIntactEvidence` | scripts/diag_16k_r04_embedding_memory/campaign.py:23-66 | a claim succeeds only while every earlier evidence file is unaltered and every claim names the same subject and workload |
| `LedgerTime.DeadEnds` | scripts/diag_16k_r04_embedding_memory/runtime.py:356-371 | after an overrun, invalid evidence or a crash no claim and no completion ever succeeds again |
| `LedgerTime.LedgerAppendOnly` | scripts/diag_16k_r04_embedding_memory/runtime.py:260-371 | nothing is removed or reordered, and a finished claim is never rewritten |
| `CampaignLedger.EnforceCellBudget` | scripts/diag_16k_r04_embedding_memory/contract.py:263-299 | the loop with its early exits accepts exactly the record lists within all caps |
| `CampaignLedger.Totals` | scripts/diag_16k_r04_embedding_memory/runtime.py:221-252 | the earliest claim instant and the summed durations |
| `CampaignLedger.LoadCompletedClaims` | scripts/diag_16k_r04_embedding_memory/campaign.py:23-66 | all completed evidence is returned, or nothing once one record, its binding, its evidence file or its validity is not as it was |
| `CampaignLedger.ClaimDirectory.constructor` | scripts/diag_16k_r04_embedding_memory/runtime.py:180-196 | a campaign starts with no claims |
| `CampaignLedger.ClaimDirectory.ClaimCell` | scripts/diag_16k_r04_embedding_memory/runtime.py:143-270 | a claim succeeds exactly when every check passes, appends one record with its deadline, and otherwise changes nothing |
| `CampaignLedger.ClaimDirectory.CompleteClaim` | scripts/diag_16k_r04_embedding_memory/runtime.py:273-371 | a completion fills in exactly its own record; an overrun is recorded as void and raised; anything else changes nothing |
| `Contract.EvaluateMechanismPairs` | scripts/diag_16k_r04_embedding_memory/contract.py:451-580 | the loop over the three pairs with its early exits computes the verdict |
| `Contract.MechanismPermutationInvariant` | scripts/diag_16k_r04_embedding_memory/contract.py:451-580 | the verdict does not depend on the order of the three pairs |
| `Contract.MechanismMonotone` | scripts/diag_16k_r04_embedding_memory/contract.py:536-580 | lowering any treatment peaks never takes back a SUPPORTED verdict |
| `Contract.QualifiedMeans` | scripts/diag_16k_r04_embedding_memory/contract.py:583-663 | a candidate is QUALIFIED exactly if it passes every gate: clean treatments, parity, a supported mechanism, usable baselines, held load peaks, and a median latency at most 10% above the baseline |
| `Evidence.ReducedRunMeaning` | scripts/diag_16k_r04_embedding_memory/evidence.py:79-420 | a valid reduced run is a complete correct success or a fully diagnosed OOM, ran exactly the controls its spec admits, and belongs to the campaign's subject and workload |
| `Evidence.PeakInWindow` | scripts/diag_16k_r04_embedding_memory/evidence.py:221-238 | the largest device sample inside the load window, and none exactly when there is no sample in it |
| `Parity.ParitySymmetric` | scripts/diag_16k_r04_embedding_memory/contract.py:677-764 | every metric and every error is the same with reference and candidate exchanged |
| `Parity.SelfParityPasses` | scripts/diag_16k_r04_embedding_memory/contract.py:677-764 | a norm-valid set of vectors passes against itself with every metric at its best value |
| `Parity.SelfParityNeedsNorms` | scripts/diag_16k_r04_embedding_memory/contract.py:743-763 | and only norm-valid sets do |
| `VectorMath.CosineSelf` | scripts/diag_16k_r04_embedding_memory/contract.py:666-674 | a vector of non-zero norm has cosine 1 with itself |
| `VectorMath.CosineSymmetric` | scripts/diag_16k_r04_embedding_memory/contract.py:666-674 | the cosine is symmetric |
| `VectorMath.CosineInRange` | scripts/diag_16k_r04_embedding_memory/contract.py:666-674 | no cosine leaves [-1, 1] |
| `Parity.CompareRankings` | scripts/diag_16k_r04_embedding_memory/contract.py:731-740 | the loop over the queries collects the overlaps and the agreements on the best document |
| `Parity.RankingDistinct` | scripts/diag_16k_r04_embedding_memory/contract.py:722-729 | the ten ranked documents are distinct |
| `Parity.RankingIsTop` | scripts/diag_16k_r04_embedding_memory/contract.py:722-729 | no document left out beats a ranked one |
| `Parity.NormOkIsTolerance` | scripts/diag_16k_r04_embedding_memory/evidence.py:35-76 | comparing squared norms is comparing norms with the tolerance |
| `Parity.CorrectIsNormValid` | scripts/diag_16k_r04_embedding_memory/evidence.py:35-76 | the vectors of a correct run are exactly the norm-valid ones |
| `Packing.GreedyPacks` | scripts/diag_16k_r04_embedding_memory/contract.py:244-260 | next-fit yields non-empty fitting batches that flatten back to the items |
| `Packing.GreedyStaysAhead` | scripts/diag_16k_r04_embedding_memory/contract.py:244-260 | with any open batch, next-fit needs no more further batches than any other in-order packing |
| `Packing.GreedyOptimal` | scripts/diag_16k_r04_embedding_memory/contract.py:244-260 | next-fit is optimal for every cost under which parts of a fitting batch fit |
| `TokenBatches.PartitionTokens` | scripts/diag_16k_r04_embedding_memory/contract.py:241-260 | the loop over any number of positive counts: None exactly when one item alone exceeds the budget, and otherwise the greedy packing |
| `TokenBatches.PartitionFrozenWorkload` | scripts/diag_16k_r04_embedding_memory/contract.py:236-260 | the same behind the 32-item guard and the frozen budget |
| `TokenBatches.P95Splits` | scripts/diag_16k_r04_embedding_memory/contract.py:218-228 | the nearest-rank p95 is one of the counts and splits the sorted counts at its rank |
| `TokenBatches.TokenPartitionsPack` | scripts/diag_16k_r04_embedding_memory/contract.py:236-260 | partitions are non-empty, cover 0..n-1 in order, and keep the item cap and the padded-token budget |
| `TokenBatches.TokenPartitionsOptimal` | scripts/diag_16k_r04_embedding_memory/contract.py:236-260 | no contiguous partition within the same limits uses fewer |
| `TokenBatches.TokenPackingExists` | scripts/diag_16k_r04_embedding_memory/contract.py:241-242 | a packing within the budget exists exactly when no single item exceeds it |
| `TokenBatches.FrozenPartitionsOptimal` | scripts/diag_16k_r04_embedding_memory/contract.py:236-260 | for the 32 frozen items the budget alone already makes the partitions optimal |
| `TokenBatches.PaddingNeverGrows` | scripts/diag_16k_r04_embedding_memory/campaign.py:381-394 | however the indices are partitioned, padding never exceeds that of one batch |
| `TokenBatches.M4PaddingNeverGrows` | scripts/diag_16k_r04_embedding_memory/campaign.py:381-394 | the M4 partitions never pad more than the fixed batch |
| `TokenBatches.EncodePartitions` | scripts/diag_16k_r04_embedding_memory/cell_executor.py:433-454 | encoding partition by partition and reassembling by index returns the vectors of one batch, for any pointwise encoder |
| `TokenBatches.EncodeWorkload` | scripts/diag_16k_r04_embedding_memory/cell_executor.py:423-455 | an M4 cell returns the ordered vectors of the fixed batch; it is refused exactly when the partitions do not exist |
| `UploadBatches.BatchSourcesPacks` | scripts/diag_16k_f/execution_harness.py:327-350 | batches are non-empty, within the file and byte envelope, and flatten back to the sources in order |
| `UploadBatches.BatchSourcesOptimal` | scripts/diag_16k_f/execution_harness.py:327-350 | no in-order split within the envelope uses fewer requests |
| `UploadBatches.BatchSourcesLoop` | scripts/diag_16k_f/execution_harness.py:327-350 | the loop computes that packing, and refuses exactly when one source alone exceeds the envelope |
| `Spearman.OrderSorts` | scripts/diag_16k_d_dense/regenerate_d1_analysis.py:51 | the sorted index list holds every index once, by rising value |
| `Spearman.Ranks` | scripts/diag_16k_d_dense/regenerate_d1_analysis.py:50-62 | the nested loops give every entry the average of the positions its ties take |
| `Spearman.RanksFollowValues` | scripts/diag_16k_d_dense/regenerate_d1_analysis.py:50-62 | ties share one rank, and larger values get strictly larger ranks |
| `Spearman.RanksTotal` | scripts/diag_16k_d_dense/regenerate_d1_analysis.py:50-62 | ranks add up to n(n+1)/2, ties or not |
| `Spearman.SpreadBound` | scripts/diag_16k_d_dense/regenerate_d1_analysis.py:64-67 | the squared deviations of the ranks never exceed those of 1..n |
| `Spearman.Coefficient` | scripts/diag_16k_d_dense/regenerate_d1_analysis.py:46-67 | the method computes the coefficient from the ranks, and nothing for unequal or short lists |
| `Spearman.CoefficientInRange` | scripts/diag_16k_d_dense/regenerate_d1_analysis.py:64-67 | the coefficient lies in [-1, 1] for every input, ties included |
| `Spearman.CoefficientIsOne` | scripts/diag_16k_d_dense/regenerate_d1_analysis.py:64-67 | it is 1 exactly when both lists induce the same weak order |
| `Pearson.PearsonInRange` | scripts/diag_16k_d_dense/regenerate_d1_analysis.py:70-80 | where it is defined the coefficient lies in [-1, 1] and is symmetric |
| `Pearson.PearsonDefined` | scripts/diag_16k_d_dense/regenerate_d1_analysis.py:70-80 | it is defined exactly for two lists of equal length of at least two, neither constant |
| `Pearson.PearsonSelf` | scripts/diag_16k_d_dense/regenerate_d1_analysis.py:70-80 | a list that is not constant correlates perfectly with itself |
| `Manifest.GroupRows` | scripts/diag_16k_f/prepare_corpus.py:159-203 | the validator's first loop checks every row and groups the rows by digest |
| `Manifest.CheckGroups` | scripts/diag_16k_f/prepare_corpus.py:205-232 | its second loop checks every byte identity |
| `Manifest.ValidateManifest` | scripts/diag_16k_f/prepare_corpus.py:118-361 | the validator accepts exactly the manifests that meet all its conditions, and returns the sources by path |
| `Manifest.DispositionsPartition` | scripts/diag_16k_f/prepare_corpus.py:143-157 | in an accepted manifest the four dispositions partition the paths and the counts are their sizes |
| `Manifest.OneEligiblePerIdentity` | scripts/diag_16k_f/prepare_corpus.py:249-251 | no byte identity has two eligible rows |
| `Manifest.DuplicateNamesEligible` | scripts/diag_16k_f/prepare_corpus.py:205-229 | every duplicate names the one eligible row with its bytes, of the same media type and size |
| `Manifest.SourcesAreEligible` | scripts/diag_16k_f/prepare_corpus.py:236-267 | the ingestion sources are exactly the eligible rows |
| `ManifestBuilder.ClassifyAll` | scripts/diag_16k_f/prepare_corpus.py:397-447 | the first loop classifies every item or fails exactly when one cannot be classified |
| `ManifestBuilder.MarkDuplicates` | scripts/diag_16k_f/prepare_corpus.py:458-464 | in an eligible group all rows but the one with the least path become duplicates of it |
| `ManifestBuilder.MarkGroups` | scripts/diag_16k_f/prepare_corpus.py:449-464 | the second loop reports the conflict of the first byte identity, in inventory order, that has one, media types before classes, and otherwise yields the final rows |
| `ManifestBuilder.BuildManifest` | scripts/diag_16k_f/prepare_corpus.py:380-624 | the builder delivers the assembled manifest of the final rows if the validator accepts it, and otherwise the first error: an empty inventory, an unclassifiable item, the first conflict of equal bytes, the validator's refusal |
| `ManifestBuilder.UnpairedAgrees` | scripts/diag_16k_f/prepare_corpus.py:498-502 | builder and validator look for an unpaired source in different lists and agree on whether there is one |
| `ManifestBuilder.BuilderMeetsValidator` | scripts/diag_16k_f/prepare_corpus.py:118-361 | for every inventory of unique paths and supported types on which the builder reaches its validation call, the independent validator accepts exactly if equal bytes have equal sizes |
| `ManifestBuilder.ClassConflictImpossible` | scripts/diag_16k_f/prepare_corpus.py:455-457 | with equal sizes and media types the builder's error for inconsistent classes cannot occur |
| `RobustnessCases.ExpectedCaseSpecs` | scripts/diag_16k_f/execution_harness.py:680-758 | the specs are derived exactly when the manifest is pinned, accepted and its counts and mixed identities are consistent; there is one for every case identifier |
| `RobustnessCases.IndividualNeverFails` | scripts/diag_16k_f/execution_harness.py:715-717 | the case counts re-checked here never differ from those the validator checked |
| `RobustnessCases.BuiltSpecsDerivable` | scripts/diag_16k_f/execution_harness.py:680-758 | for a built manifest the specs exist exactly if an unpaired eligible source and each of the three rejection kinds occur |
| `RobustnessCases.SummarizeCases` | scripts/diag_16k_f/execution_harness.py:955-957 | all records are valid, or the matrix is refused |
| `RobustnessCases.ObservedCount` | scripts/diag_16k_f/execution_harness.py:1102-1107 | with records in bijection with the cases, each scenario is observed as often as it has cases |
| `RobustnessCases.RetriesHold` | scripts/diag_16k_f/execution_harness.py:1085-1096 | the check for one successful retry per mixed case can never fail once reached |
| `RobustnessCases.CoverageHolds` | scripts/diag_16k_f/execution_harness.py:1098-1123 | nor can the comparison of scenario counts |
| `RobustnessCases.ValidateMatrix` | scripts/diag_16k_f/execution_harness.py:942-1123 | a matrix passes exactly if the specs exist, all records are valid and in bijection with the cases, and the queries pass |
| `Workers.CapacityHeldWhileRunning` | src/offline_rag/api/workers.py:18-67 | in every interleaving with at most one cancellation the worker is left only after its thread ended and its watcher is gone, capacity is released exactly once and never while the thread runs, and the last await is never needed |
| `Workers.EndedStays` | src/offline_rag/api/ingest.py:108-109 | once ended, a handler releases and starts nothing more |
| `Workers.HandlerProgresses` | src/offline_rag/api/query.py:55-90 | no such state is stuck: its own next step is enabled and brings the end nearer |
| `Workers.OwnedUntilLost` | src/offline_rag/api/workers.py:51-67 | with any number of cancellations nothing is lost until one hits an unshielded wait for an unfinished future |
| `Workers.LostMeansEarlyRelease` | src/offline_rag/api/workers.py:54-67 | and after that one the handler can release before its thread's future resolves |
| `Workers.SecondCancellationReleasesEarly` | src/offline_rag/api/workers.py:54-58 | a concrete run with two cancellations that releases while the thread runs |
| `PdfText.EscapeCons` | scripts/generate_pdf_fixture.py:14-15 | the three replacements act character by character |
| `PdfText.LiteralRoundTrip` | scripts/generate_pdf_fixture.py:14-15 | reading an escaped literal string gives the text up to its end-of-line markers |
| `PdfText.EolNormalFixed` | scripts/generate_pdf_fixture.py:14-15 | a text survives that exactly if it has no carriage return |
| `PdfText.PaddedOffset` | scripts/generate_pdf_fixture.py:110-111 | ten digits suffice for an offset below 10^10 and read back as it |
| `PdfContent.PageContent` | scripts/generate_pdf_fixture.py:18-27 | the command list is joined in order, with line moves between lines |
| `PdfContent.EncodeEscape` | scripts/generate_pdf_fixture.py:77 | encoding after escaping is escaping after encoding |
| `PdfContent.ContentRoundTrip` | scripts/generate_pdf_fixture.py:18-27 | the lines read from a content stream are the encoded lines |
| `PdfContent.LinePreserved` | scripts/generate_pdf_fixture.py:77 | a line is preserved exactly if it is Latin-1 without carriage return |
| `PdfFile.BuildObjects` | scripts/generate_pdf_fixture.py:65-99 | the objects in order, with the page tree filled in afterwards |
| `PdfFile.BuildPdf` | scripts/generate_pdf_fixture.py:62-118 | the loops write exactly that file, noting each offset as it goes |
| `PdfFile.TableFindsObjects` | scripts/generate_pdf_fixture.py:102-118 | below 10^10 bytes startxref and the 20-byte entries lead to every object, which ends where the next one begins |
| `PdfFile.ObjectsNumbered` | scripts/generate_pdf_fixture.py:65-111 | under entry k stands the object numbered k |
| `PdfFile.StreamRead` | scripts/generate_pdf_fixture.py:81-85 | /Length is the number of bytes of the stream |
| `PdfFile.PageTreeRead` | scripts/generate_pdf_fixture.py:65-115 | from the root named in the trailer, through the catalog, the page tree names every page object in order, and counts them |
| `PdfFile.PdfRoundTrip` | scripts/generate_pdf_fixture.py:66-118 | following startxref, the table, the root, the catalog, the page tree, /Contents and the stream length recovers the lines of every page, and finds no further page |
| `PdfFile.PdfPreservesLines` | scripts/generate_pdf_fixture.py:66-118 | unchanged exactly for Latin-1 lines without carriage returns |
| `PdfFile.FixtureRoundTrip` | scripts/generate_pdf_fixture.py:62-118 | the round trip for the fixture's own fixed texts |
| `CandidateRecovery.TargetsDiffer` | src/offline_rag/app/candidate_recovery.py:63-67 | different suffixes give different target names |
| `CandidateRecovery.FreshTarget` | src/offline_rag/app/candidate_recovery.py:63-67 | the suffix search ends, with the first free name |
| `CandidateRecovery.QuarantineCorpus` | src/offline_rag/app/candidate_recovery.py:54-71 | every visible candidate ends under a fresh distinct name with its content, hidden ones stay, and no abandoned entry is overwritten |
| `CandidateRecovery.CorporaDirectory.Recover` | src/offline_rag/app/candidate_recovery.py:22-72 | free visible corpora are quarantined; busy, faulty and hidden ones are untouched; the targets returned are exactly those moved |
| `CandidateRecovery.QuarantineConserves` | src/offline_rag/app/candidate_recovery.py:62-69 | as many entries are abandoned as candidates are gone |
| `CandidateRecovery.QuarantineIdempotent` | src/offline_rag/app/candidate_recovery.py:56-58 | a second recovery moves nothing |
| `DiskUsage.NonNestedRoots` | scripts/diag_large_source_capacity/common.py:341-350 | the selected roots are pairwise non-nested and every root lies under one of them |
| `DiskUsage.AggregateCountsOnce` | scripts/diag_large_source_capacity/common.py:271-276 | over non-nested roots every file below any of them is counted exactly once |
| `DiskUsage.AggregateSize` | scripts/diag_large_source_capacity/common.py:271-276 | so the aggregate is the size of all files below any given root |
| `DiskUsage.PeakIsGreatest` | scripts/diag_large_source_capacity/common.py:281-282 | a peak is the greatest sample, and one that was taken |
| `DiskUsage.LeastFreeIsLeast` | scripts/diag_large_source_capacity/common.py:283-288 | the minimum is the least successful reading of the free space |
| `DiskUsage.DiskUsageTracker.constructor` | scripts/diag_large_source_capacity/common.py:262-269 | the first measurement is baseline, peak and final at once |
| `DiskUsage.DiskUsageTracker.Sample` | scripts/diag_large_source_capacity/common.py:278-289 | a sample updates final, peaks and free space to those of the grown history |
| `DiskUsage.DiskUsageTracker.Extremes` | scripts/diag_large_source_capacity/common.py:291-325 | over any sequence of samples peak >= baseline, peak >= final, and minimum free <= free before and after |
| `StageTimes.StageTracker.constructor` | scripts/diag_large_source_capacity/common.py:172-179 | a tracker starts idle with no transitions |
| `StageTimes.StageTracker.SetStage` | scripts/diag_large_source_capacity/common.py:181-187 | a new stage is noted once, with its offset; repeating the current one changes nothing |
| `StageTimes.StageTracker.DurationSummary` | scripts/diag_large_source_capacity/common.py:222-241 | exactly the stages that occurred, each with the time of its segments; the current stage is never missing |
| `StageTimes.DurationsAddUp` | scripts/diag_large_source_capacity/common.py:222-241 | with offsets in order the stages share out the whole time from the first transition to the end |

## Left out

- File locks, atomic replacement and exclusive create: the locked section of a claim, and the final
  ledger update of a completion, are one step each; the clock reading of a step is an input.
- The order in which a directory lists claim files: the ledger is kept in claim order, and no check depends on it.
- SHA-256, JSON and paths: a digest is the value it identifies, so a cell spec, an evidence file or a
  manifest body stands for its own digest; malformed JSON and malformed digests are not modelled.
- Reasons of refusal inside one check: claim, completion and gate return whether they succeed, and which error where callers can tell.
- UTC timestamps of claims, and non-finite clock values, which the program also rejects.
- `verify_execution_authority` and `_validate_cell_spec`: their record and field checks; the authority is one binding and the set of exact specs per replicate, and a process claims only what it lists.
- Capturing evidence: model loading, PyTorch, allocator snapshots, device samplers and observers; evidence records are inputs.
- Header facts of an evidence file (schema, design subject, revision, chunk identities) and runtime versions: two flags of a record.
- Profiler operator names: each operator carries the set of backends its name marks, not the substring test.
- `classify_oom_diagnostics`, `compare_cold_warm`, `build_single_source_manifest`, `build_primary_manifest`: field checks and expressions of their own.
- Floating-point rounding: reals throughout; the square root is any function with the defining property of one.
- Re-reading the corpus while building a manifest: the files are taken to be as inventoried.
- The query, cold-cell and warm-cell evidence of the robustness matrix: one input that passes or not.
- Case identifiers as text: a scenario and an ordinal, without the three-digit rendering.
- What handlers do besides holding capacity: multipart spooling, staging cleanup, response bodies and error mapping.
- Concurrent changes to a corpus directory while its lease is held, and a failing move.
- Symbolic links: disk roots are resolved paths; files that vanish while being measured.
- `ProcessSampler` and its sample cap, and the stage reports of `StageTracker`: bookkeeping of single fields.
- PdfFile.PdfRoundTrip: the reader knows the fixture's own dictionary texts; it is no general PDF parser.
- Workers.HandlerProgresses: fairness of the event loop and the thread scheduler is not modelled, only that a step is always enabled.
- Workers.CapacityHeldWhileRunning: assumes at most one cancellation; `OwnedUntilLost` says exactly which later one breaks it.
- GateStability.NoM3AfterM4: needs an M3 path open at the M4 claim or an unchanged parity reference; without both it is false, as `LateReferenceReopensM3` shows, and `M3ReopensExactly` says when.
- Reachability.InvariantIsReached: the run it gives has all clock readings 0, so it says nothing of timing.
