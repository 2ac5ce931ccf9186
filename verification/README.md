# Verification of the durable execution core

This project models the parts of the repository that promise something about whole histories, and
proves those promises in Dafny 4.11. `dafny verify dfyconfig.toml` checks all of it.

**External actions.** `DurableExternalActionCoordinator` keeps one append-only stream of records for
each logical action. `_load` replays a stream into a state; every public method reads, checks, appends
with an expected head and reads again, while other workers do the same. `ExternalActions` holds the
records and the replay, `ProvenanceLog` the log and its compare-and-append. `ActionCalls` turns each
method into a machine that performs one store access per step, `ActionSystem` interleaves any number of
such calls, and `ActionTheorems` states what holds in every reachable state. `DurableCoordinator` has the
methods in the form the program has them, with their loops, over a store on which other workers act by
an arbitrary schedule; each method is proved equal to its machine for every schedule, which `Driving` runs to
its end. `Executions` says what `execute` promises its caller without reference to any of this: when it
delivers, replays, refuses, and what it leaves behind. `Undisturbed` and `Repeats` say what one call does when
nobody else writes to its stream, and which repeated and lost calls are still answered. `Histories` describes
the legal streams as a property of their records and proves that replay accepts exactly these.
`MethodsInRuns` joins the two views: what a call answers inside a run is what its method answers under the
schedule of the others' appends. `SafeCoordinator` is the in-process coordinator with its two dictionaries and
mutable records, and `Refinement` proves that the durable one refines it and accepts exactly what it accepts
and the repeats. `Witnesses` has the runs that show the hypothesis of the exactly-once theorem and the
contention bound to be exact.

**Periodic replay.** `PeriodicReplay` has the observation chain and the cadence evaluation, whose states are
shown to say which drills were missed and which will be.
`ReplayEvidence` connects an observation to the verified cross-environment report it was built from.

**Cross-environment reports.** `CrossEnvironment` has the documents and the builder of receipts and
reports, `CrossEnvironmentVerifier` the standalone verifier and the agreement of the two. `SampleReport`
gives an injective hash and a report that meets all hypotheses of that agreement.

**Escrow.** `ArtifactEscrow` has the content-addressed byte store, `DurableEscrow` replication between two
locations with restore checks and the aggregate report, whose verdict is shown to say which blobs are readable
where. `ArchiveExtraction` has the bounded ZIP preflight and extraction, which never leaves its destination.

**Survivability.** `Survivability` has the inventory loop and the tree walk of the offline verifier.

**Filing.** `Filing` has the two ledger appends that record a receipt and file a Case, over the same
provenance log with its stream heads; `FilingSystem` interleaves any number of filings with other ledger writers.

**Crypto migration.** `CryptoMigration` has attestations under a pinned trust set and the additive
ML-DSA-65 envelope.

A digest is injective throughout: either a free constructor over the value it covers or, for the
cross-environment documents, a hash function assumed injective where a lemma says so. Signatures are an
abstract sign and verify pair, which some lemmas assume to be ideal: nothing but a signature made with the private
key verifies. Clocks, generated names and everything that outside code returns are
parameters.

## Model

| member | source | states |
|---|---|---|
| ActionTheorems.ExactlyOnce | core/durable_external_action_v1.py:349-484 | In every interleaving in which the `execute` calls of one identity of a scope carry different dispatch references, the provider calls made through `execute` for that logical action never exceed one plus the confirmed no-effect records of its stream. Other actions, direct dispatches and `execute` calls with unacceptable arguments may carry any reference |
| Witnesses.ExactlyOnceExactlyWhen | core/durable_external_action_v1.py:422-484 | That condition is exact: for every list of `execute` calls, the bound holds in all runs with these calls if and only if no two acceptable ones of one identity of the scope share a reference |
| Witnesses.SharingInvokesTwice | core/durable_external_action_v1.py:432-484 | Any two acceptable `execute` calls of one identity that share a dispatch reference, whether their attempts are equal or not, can reach a state with two provider invocations for their action and no no-effect record |
| ActionTheorems.InvocationsAreRecorded | core/durable_external_action_v1.py:422-484 | With no hypothesis on references: when an execution invokes the provider, its stream was reserved for its own identity and holds a dispatch record with its own reference |
| ActionTheorems.NoDispatchAfterReceipt | core/durable_external_action_v1.py:422-484 | In every run, whatever references the calls carry, no dispatch record follows a success or recovery record |
| ActionTheorems.SplitReadsStayLegal | core/durable_external_action_v1.py:402-546 | Although the expected head and the ownership check come from different reads, every reachable stream is a legal history of at most 1,001 records; it loads exactly for the identity that reserved it first, exactly while it has at most 1,000 |
| ActionTheorems.AnswersAreSnapshots | core/durable_external_action_v1.py:193-323 | A call that returns was made with the identity its scope was first reserved with, and the state it returns was the stream's state at a moment during the call |
| ActionTheorems.ExecutionsAgree | core/durable_external_action_v1.py:702-729 | Any two executions of one identity that return give the same receipt; it proves success of that identity and names the owning attempt |
| ActionTheorems.DeliveredIsFinal | core/durable_external_action_v1.py:586-700 | Once a receipt was delivered, the stream is the same in every later state of the run |
| ActionTheorems.UnreachableBranches | core/durable_external_action_v1.py:702-729 | The errors for a confirmed replay without a receipt and for a disappeared record occur in no run |
| ActionTheorems.ContentionBound | core/durable_external_action_v1.py:349-400 | `reserve` gives up after repeated races only if its stream grew by at least seven records during the call |
| Witnesses.SevenRecordsSuffice | core/durable_external_action_v1.py:349-400 | Seven is exact: for every identity some run of rival reserve and give-up calls makes `reserve` give up when its stream has grown by exactly seven records since it began |
| ActionTheorems.ScopesAreIsolated | core/durable_external_action_v1.py:152-160 | A step of a call on one scope changes neither the records nor any load of another scope |
| ActionTheorems.ReplayUnderOtherIdentity | core/durable_external_action_v1.py:208-245 | A stream reserved for one identity replays to a conflict for every other identity of the scope |
| ActionSystem.RunKeepsInv | core/durable_external_action_v1.py:178-735 | The invariant behind these theorems holds in every reachable state of every interleaving |
| ActionCalls.StepUsesBudget | core/durable_external_action_v1.py:349-729 | Calls are wait-free: every step uses up budget whatever other workers did before it |
| ActionCalls.StartingBudget | core/durable_external_action_v1.py:349-729 | A direct call takes at most 9 store accesses and `execute` at most 19 steps |
| ExternalActions.Conservation | core/durable_external_action_v1.py:214-323 | In every replayable stream reservations, failures, dispatches and resolutions balance as the state says, with at most one success or recovery |
| ExternalActions.ReceiptExactlyWhenConfirmed | core/durable_external_action_v1.py:214-323 | A receipt is present exactly in the two confirmed states and names the owner and the stored identity |
| ExternalActions.ConfirmedAbsorbs | core/durable_external_action_v1.py:214-323 | No record extends a confirmed stream |
| ExternalActions.NothingFollowsReceipt | core/durable_external_action_v1.py:214-323 | A success or recovery record is the last of its stream |
| ExternalActions.DispatchBound | core/durable_external_action_v1.py:422-484 | Dispatch records exceed no-effect records by at most one |
| ExternalActions.ReplayFixesIdentity | core/durable_external_action_v1.py:208-232 | Only the identity stored in the first record replays the stream |
| ExternalActions.OpenWindowsAreTwoApart | core/durable_external_action_v1.py:356-400 | Between two different moments at which a stream can be reserved it grows by two records |
| ProvenanceLog.HeadPinsStream | core/enterprise/durability.py:199-311 | An unchanged stream head means an unchanged stream, whatever else was appended to the log |
| ProvenanceLog.StreamPinsHead | core/enterprise/durability.py:160-197 | A head moves only when its stream does |
| ProvenanceLog.DigestPinsHistory | core/enterprise/durability.py:141-158 | One record digest determines the whole history before it |
| ProvenanceLog.AppendIsolation | core/enterprise/durability.py:199-311 | An append leaves every other stream and its head alone |
| DurableCoordinator.DurableExternalActionCoordinator.Load | core/durable_external_action_v1.py:193-323 | The replay loop over state, owner, attempt count and receipt computes the replay function |
| DurableCoordinator.DurableExternalActionCoordinator.ApplyRecord | core/durable_external_action_v1.py:246-321 | One record of the loop fails or updates the four variables exactly as the transition function says |
| DurableCoordinator.DurableExternalActionCoordinator.Reserve | core/durable_external_action_v1.py:349-400 | Under every schedule of other workers the retry loop's result, log and remaining schedule are those of its machine; a disposition is given only with the state it names, INVOKE_ALLOWED only with this attempt's own reservation |
| DurableCoordinator.DurableExternalActionCoordinator.BeginDispatch | core/durable_external_action_v1.py:422-484 | The same for dispatch, with its several reads and the lost-append path |
| DurableCoordinator.DurableExternalActionCoordinator.MarkPreEffectFailed | core/durable_external_action_v1.py:486-515 | The same for giving an attempt up |
| DurableCoordinator.DurableExternalActionCoordinator.MarkOutcomeUnknown | core/durable_external_action_v1.py:517-546 | The same for an unknown outcome |
| DurableCoordinator.DurableExternalActionCoordinator.ConfirmNoEffect | core/durable_external_action_v1.py:548-584 | The same for reconciliation without effect |
| DurableCoordinator.DurableExternalActionCoordinator.ConfirmSuccess | core/durable_external_action_v1.py:586-640 | The same for a confirmed receipt |
| DurableCoordinator.DurableExternalActionCoordinator.RecoverReceipt | core/durable_external_action_v1.py:642-700 | The same for a recovered receipt |
| DurableCoordinator.DurableExternalActionCoordinator.Execute | core/durable_external_action_v1.py:702-729 | The same for the whole of reserve, dispatch, provider call and confirmation, and for whether the provider is invoked; under every schedule the execution keeps the promises of the next row |
| Executions.ExecutionsKeepPromises | core/durable_external_action_v1.py:702-729 | With writers of other streams only: on an open stream of at most 997 records an acceptable execution whose answer verifies invokes the provider, delivers that receipt and adds exactly its three records, one that the provider failed leaves OUTCOME_UNKNOWN. Under every schedule of legal writers: on a confirmed stream it delivers the stored receipt, and on a reserved or unknown one it is forbidden with that disposition, without invoking or appending. Unacceptable arguments and overlong or foreign streams are refused the same way |
| DurableCoordinator.ProvenanceStore.Append | core/enterprise/durability.py:313-330 | The append lands exactly when the stream's head is still the expected one |
| MethodsInRuns.MethodsAnswerAsInRuns | core/durable_external_action_v1.py:349-700 | A direct call that returns inside a run returns what its method returns under some schedule of the entries the others appended, and the method's log with the entries that came after it is the run's |
| MethodsInRuns.ExecutionsAnswerAsInRuns | core/durable_external_action_v1.py:702-729 | The same for `execute` and for whether it invoked the provider, so the theorems about runs are about the methods |
| Prelude.StripShortens | core/durable_external_action_v1.py:51-56 | Acceptable text is exactly the nonblank text that stripping leaves unchanged |
| Prelude.StripRemovesSpace | core/durable_external_action_v1.py:51-56 | Stripping removes the whitespace at both ends and nothing else |
| SafeCoordinator.ApplyKeepsConsistent | core/external_action_execution_v1.py:56-202 | Every operation keeps the two dictionaries matched, keeps the first identity of a scope as its only one, and leaves other actions alone |
| SafeCoordinator.SafeExternalActionCoordinator.Reserve | core/external_action_execution_v1.py:61-106 | The dictionaries and the mutable record afterwards are those of the specification function |
| SafeCoordinator.SafeExternalActionCoordinator.ConfirmNoEffect | core/external_action_execution_v1.py:139-154 | The same for reconciliation, which updates the record in place |
| SafeCoordinator.SafeExternalActionCoordinator.ConfirmSuccess | core/external_action_execution_v1.py:156-176 | The same for a confirmed receipt |
| SafeCoordinator.SafeExternalActionCoordinator.RecoverReceipt | core/external_action_execution_v1.py:178-196 | The same for a recovered receipt |
| Undisturbed.SequentialIsUndisturbedDrive | core/durable_external_action_v1.py:349-700 | Without interference every public method loads, decides, appends at most once and reports; `reserve` finishes in its first iteration |
| Undisturbed.OnlyOwnStreamMatters | core/durable_external_action_v1.py:349-729 | Writers of other streams change neither the answer of any call, nor whether it invokes, nor what it adds to its stream |
| Histories.ReplayExactlyWhenLegal | core/durable_external_action_v1.py:193-323 | Replay accepts exactly the streams in which every record fits the one before it, and its state, owner, count and receipt are what the records say |
| Repeats.RepeatsAreAnswered | core/durable_external_action_v1.py:422-700 | Repeating an undisturbed call that was answered gives the same answer (a reservation: its disposition after the first) and appends nothing |
| Repeats.LostConfirmations | core/durable_external_action_v1.py:548-700 | A confirmation whose append lost a race is answered exactly if the stream then has the state it was called for |
| Repeats.LostDispatches | core/durable_external_action_v1.py:463-480 | A dispatch whose append lost is answered exactly if the winning record is a dispatch with its own reference for the attempt that owns the action |
| Refinement.DurableAcceptsExactly | core/external_action_execution_v1.py:53-215 | On streams shorter than 1,000 records the durable coordinator accepts a call if and only if the in-process one does or the call repeats what the stream already records |
| Refinement.DurableRefinesMemory | core/external_action_execution_v1.py:53-215 | On streams shorter than 1,000 records the durable call gives every outcome the in-process one accepts; each further call it accepts repeats the stored action and appends nothing |
| Refinement.ScriptsRefine | core/external_action_execution_v1.py:53-215 | From empty stores and for every script under which each stream stays below 1,000 records: call by call the durable outcome is the one the in-process coordinator accepts, and a further accepted call repeats the stored action and appends nothing |
| Refinement.FewCallsStayShort | core/external_action_execution_v1.py:53-215 | Scripts with at most 1,000 calls for each logical action are of that kind, however many actions they serve |
| PeriodicReplay.VerifyChain | core/periodic_replay_revalidation_v1.py:354-386 | The loop accepts exactly the chains and returns the digest of their identities |
| PeriodicReplay.GrownChainsVerify | core/periodic_replay_revalidation_v1.py:277-319 | Every sequence grown by building each observation on the last is a chain that verifies |
| PeriodicReplay.ChainDigestPinsChain | core/periodic_replay_revalidation_v1.py:354-386 | Equal chain digests mean equal chains |
| PeriodicReplay.LatestDigestPinsChain | core/periodic_replay_revalidation_v1.py:277-319 | Chains that end in the same observation are equal |
| PeriodicReplay.HistoricalGapViolations | core/periodic_replay_revalidation_v1.py:527-543 | The loop reports exactly the initial and the later gaps over the maximum age |
| PeriodicReplay.Evaluate | core/periodic_replay_revalidation_v1.py:546-622 | An evaluation succeeds exactly for admissible chains, with the stated state, age, digests and reasons |
| PeriodicReplay.CurrentOrDueMeansNoMissedDrill | core/periodic_replay_revalidation_v1.py:546-622 | CURRENT or DUE means exactly: not empty, the last drill passed, and at no instant of the period more than the maximum age since the drill before it |
| PeriodicReplay.DueMeansMissedSoon | core/periodic_replay_revalidation_v1.py:608-613 | DUE means exactly that no drill was missed, the last one passed, and one will have been missed just after the due window that begins now; CURRENT that none will |
| PeriodicReplay.GrownObservationsAreEvidenced | core/periodic_replay_revalidation_v1.py:277-319 | Every observation of a grown chain records one of its drills: its case, time, evidence, verdict and violations |
| PeriodicReplay.DrillsAreRefusedExactlyWhen | core/periodic_replay_revalidation_v1.py:277-319 | A drill extends a grown chain exactly if its health report is for the case and not from after it, and it has the case and bundle of, and comes after, every observation |
| PeriodicReplay.OverdueMeansMissedDrill | core/periodic_replay_revalidation_v1.py:546-622 | OVERDUE means exactly: some instant was missed and a failed last drill does not hide it |
| PeriodicReplay.LastBeforeIsLatest | core/periodic_replay_revalidation_v1.py:527-622 | The drill before an instant, as these meanings use it, is the latest one strictly before |
| PeriodicReplay.OverdueIsPermanent | core/periodic_replay_revalidation_v1.py:527-622 | Once OVERDUE, a chain stays OVERDUE at every later time under every extension by observations from then on |
| ReplayEvidence.CrossEnvironmentRevalidation | core/periodic_replay_revalidation_v1.py:83-106 | Evidence is given exactly for reports the verifier accepts, with exactly the violations of their receipts |
| ReplayEvidence.AcceptableMeansReproduced | core/periodic_replay_revalidation_v1.py:23-29 | In a verified report a receipt's classification is acceptable exactly when it shows a compatible, complete run without semantic drift |
| ReplayEvidence.PassingMeansReproducedEverywhere | core/periodic_replay_revalidation_v1.py:277-319 | An observation passes exactly when the case was healthy and for every matrix environment the one receipt shows a compatible, complete run without semantic drift; it names that very report and bundle |
| CrossEnvironment.BuildReport | core/cross_environment_replay_v1.py:854-916 | A report is built exactly for accepted inputs, with the three inventories in digest order |
| CrossEnvironment.SupportedVersions | core/cross_environment_replay_v1.py:534-541 | The supported versions are exactly Python 3.11 to 3.14 |
| CrossEnvironment.ReceiptsAreBuiltExactlyWhen | core/cross_environment_replay_v1.py:730-811 | A receipt is built exactly for an environment the plan lists and agrees with, observed for this description, verifier and policy, with a status that neither contradicts the environment nor hides a failure |
| CrossEnvironment.EnvironmentsAreTakenExactlyWhen | core/cross_environment_replay_v1.py:462-531 | The builder takes exactly the descriptions and observations that are true to their digests, ordered and plain in every text |
| CrossEnvironment.MatrixByCounting | core/cross_environment_replay_v1.py:898-903 | The builder's set and count comparisons mean exactly one receipt for each matrix profile |
| CrossEnvironment.CountingIsSeeing | core/cross_environment_replay_v1.py:898-903 | Over receipts that name exactly the matrix profiles, the count is right exactly when no two share a profile |
| CrossEnvironment.SortingKeepsMembers | core/cross_environment_replay_v1.py:905-913 | Listing a duplicate-free inventory by digest keeps its members and their number |
| CrossEnvironmentVerifier.VerifyReport | core/cross_environment_replay_verifier_v1.py:165-351 | The verifier answers the report's digest exactly for the reports its conditions describe |
| CrossEnvironmentVerifier.InventoriesAreTakenExactlyWhen | core/cross_environment_replay_verifier_v1.py:237-255 | The verifier takes exactly the inventories of records with the four fields, a digest and a stripped, nonblank name and version |
| CrossEnvironmentVerifier.MatrixBySeeing | core/cross_environment_replay_verifier_v1.py:263-351 | The verifier's seen profiles decide the same matrix condition as the builder's counts |
| CrossEnvironmentVerifier.BuilderVerifierAgree | core/cross_environment_replay_verifier_v1.py:165-351 | A built report verifies exactly when its inventory records are well formed, its observed inventories are ones their profiles allow, and no status contradicts its environments |
| CrossEnvironmentVerifier.BuiltReceiptsAreCoherent | core/cross_environment_replay_v1.py:730-811 | Receipts from the receipt builder never have such a contradiction |
| CrossEnvironmentVerifier.BuiltReceiptsFit | core/cross_environment_replay_v1.py:814-851 | A built receipt enters a report exactly when its verifier is the one its profile names |
| CrossEnvironmentVerifier.BuiltReportsVerify | core/cross_environment_replay_v1.py:854-916 | Reports of built receipts over well-formed, allowed inventories verify under their own digest |
| CrossEnvironmentVerifier.ClassificationsMean | core/cross_environment_replay_verifier_v1.py:124-162 | What each classification in a verified report says of its run: complete or not, drift found, reference environment or not, and that a verified run's environment fits its description |
| CrossEnvironmentVerifier.VerifiedReportsCompareLikeWithLike | core/cross_environment_replay_verifier_v1.py:165-351 | A verified report has one receipt for each of at least two environments, the reference among them, all for the same plan, artifacts and policies, each run as its documents describe |
| SampleReport.ReportsExist | core/cross_environment_replay_v1.py:730-916 | Over every injective hash and for every supported version two environments and their built receipts meet all hypotheses of BuiltReportsVerify |
| SampleReport.DocumentNumberInjective | core/cross_environment_replay_v1.py:854-916 | The assumption of an injective hash over all documents can be met: an explicit one |
| CrossEnvironmentVerifier.VerifiedReportsRebuild | core/cross_environment_replay_verifier_v1.py:165-351 | Conversely a verified report with clean texts and ordered lists is accepted by the builder, and building it again gives the same report |
| CrossEnvironmentVerifier.PinAdmitsOneReport | core/cross_environment_replay_verifier_v1.py:172-175 | A pinned digest is met by one report only |
| ArtifactEscrow.FileSystemEscrowBackend.Read | core/artifact_escrow_v1.py:616-649 | The chunk loop returns a blob exactly when metadata, length and digest all match, and otherwise names the first mismatch |
| ArtifactEscrow.FileSystemEscrowBackend.Publish | core/artifact_escrow_v1.py:577-614 | Publishing stores exactly the new bytes under their digest, or confirms an intact existing copy, or changes nothing |
| ArtifactEscrow.ReadableExactlyWhen | core/artifact_escrow_v1.py:616-649 | A blob is readable exactly when the store holds under its digest the regular file that publishing would put there, of the declared size and within the limit |
| ArtifactEscrow.PublishedIsReadable | core/artifact_escrow_v1.py:577-614 | Publishing succeeds exactly for data within the limit without a bad copy; the data then reads back, everything else is as before and publishing again changes nothing |
| ArtifactEscrow.MigrateVerifiedBlob | core/artifact_escrow_v1.py:679-694 | Copying computes the specified result; copying a store onto itself changes nothing |
| ArtifactEscrow.MigrationMeaning | core/artifact_escrow_v1.py:679-694 | A copy succeeds exactly when the source has the blob and the target holds no bad copy; the target then has it and all it had before |
| ArtifactEscrow.ReadsAreFaithful | core/artifact_escrow_v1.py:616-649 | Two successful reads of one identity return the same bytes, from whatever stores |
| DurableEscrow.SeparationError | core/durable_escrow_v1.py:473-486 | Two locations count as separate exactly when storage profile, location, failure domain and credential domain all differ |
| DurableEscrow.Replicate | core/durable_escrow_v1.py:640-695 | The loop never changes the source, only adds missing blobs to the target even when it fails, and succeeds exactly when every blob is transferable and the byte total is the plan's |
| DurableEscrow.CopyMeaning | core/durable_escrow_v1.py:669-683 | The copying loop succeeds exactly when every blob is transferable; then every blob reads the same on both sides |
| DurableEscrow.VerifyLocationRestore | core/durable_escrow_v1.py:850-891 | The restore loop reports the restorable and the failing bindings of any store, and its report satisfies the report's own rules |
| DurableEscrow.RestoreConserves | core/durable_escrow_v1.py:850-891 | Verified bindings and violations add up to the bindings in every restore check |
| DurableEscrow.ReplicationIsRestorable | core/durable_escrow_v1.py:1031-1090 | After a replication that returned a receipt every blob is byte-identical on both sides, both restore checks pass with the plan's counts and bytes, and the aggregate is PASS |
| DurableEscrow.AggregateMeaning | core/durable_escrow_v1.py:1031-1090 | For any two stores, restore reports of them and a fitting receipt: the aggregate is PASS exactly if every blob is readable in both, and accuses each location exactly if a blob is unreadable there |
| DurableEscrow.SubstitutionIsRefused | core/durable_escrow_v1.py:1040-1066 | An aggregate is built exactly from a receipt that fits the plan and reports that name its case, manifest, blobs and the source and target location |
| DurableEscrow.ForeignReportsAreRefused | core/durable_escrow_v1.py:1052-1066 | Restore reports of another manifest or location, or exchanged ones, are refused whatever the stores hold |
| DurableEscrow.BuiltPlansReplicate | core/durable_escrow_v1.py:489-508 | A plan is built exactly for the expected case, a manifest that preserves something and two locations that differ in all four respects. Under a built plan replication checks nothing but the blobs, and its byte total is the plan's |
| ArchiveExtraction.JoinComponents | core/artifact_escrow_v1.py:162-174 | The components whose safety is checked are the text between slashes: joined they give the path back |
| ArchiveExtraction.SafePathsStayBelow | core/artifact_escrow_v1.py:162-174 | Where ".." climbs and "." stays, the safe paths are, for every root, exactly the plain texts that resolve to the root followed by their own components |
| ArchiveExtraction.ParentsStayBelow | core/artifact_escrow_v1.py:755-821 | So do the directories created above such a path |
| ArchiveExtraction.PlacesDiffer | core/artifact_escrow_v1.py:709-752 | Different names of this kind resolve to different places |
| ArchiveExtraction.ModeDecidesKind | core/artifact_escrow_v1.py:697-706 | Links, directories and regular files are told apart by the file type in the upper half of the attributes and the trailing slash |
| ArchiveExtraction.AcceptedExactlyWhenOrdinary | core/artifact_escrow_v1.py:709-752 | Exactly those archives are within bounds whose members are files and directories, unencrypted, with distinct plain names that stay below any root, within every size and the ratio |
| ArchiveExtraction.ValidateZipBytes | core/artifact_escrow_v1.py:709-752 | The preflight's single pass accepts exactly the archives within all bounds, and every accepted name lies below every root, in a place of its own |
| ArchiveExtraction.WriteMember | core/artifact_escrow_v1.py:793-812 | The chunk loop writes at most the declared size and succeeds exactly for a stream of that size |
| ArchiveExtraction.ExtractMembers | core/artifact_escrow_v1.py:778-813 | Extraction into an empty directory succeeds exactly when every member is complete and no file is in another's way, within the declared sizes and the total bound |
| ArchiveExtraction.ArchiveDirectory.ExtractVerifiedZip | core/artifact_escrow_v1.py:755-821 | The destination appears exactly when everything holds, with exactly the members; otherwise the directory is as before, and no more than the bound was ever written; every file and directory of a new destination lies strictly below it |
| ArchiveExtraction.ExtractedIsContained | core/artifact_escrow_v1.py:755-821 | A tree with exactly the members of an accepted archive and the directories above them stays below every root |
| ArchiveExtraction.RatioBoundsOutput | core/artifact_escrow_v1.py:748-751 | Whatever is written of an accepted archive is at most the ratio times its compressed size as a whole |
| ArchiveExtraction.WithinExpanded | core/artifact_escrow_v1.py:743-747 | Writing each member within its declared size keeps the total within the expanded size |
| Survivability.CheckInventory | core/offline_survivability_verifier_v1.py:499-534 | The inventory loop accepts exactly the matching inventories within bounds |
| Survivability.CheckTree | core/offline_survivability_verifier_v1.py:536-559 | The walk, with its own limits, accepts exactly the trees without links whose files are the inventory's |
| Survivability.SizeOfRemoves | core/offline_survivability_verifier_v1.py:536-553 | The byte total of the walk does not depend on the order of the walk |
| Survivability.VerifySurvivabilityBundle | core/offline_survivability_verifier_v1.py:463-576 | The verifier answers the pinned digest exactly for the accepted bundles |
| Survivability.AcceptedExactlyWhenIntact | core/offline_survivability_verifier_v1.py:463-576 | A tree is accepted exactly if its manifest is the pinned one, of the fixed schema and a clean case, lists each of the tree's regular files with its size and digest within the literal limits, and the required files are among them; links are refused |
| Survivability.OneDigestPinsTree | core/offline_survivability_verifier_v1.py:463-576 | Two trees accepted for one digest have the same decoded manifest, the same other files and the same bytes |
| Survivability.TamperingIsRejected | core/offline_survivability_verifier_v1.py:463-576 | A file added, removed or changed makes an accepted tree unacceptable under its digest |
| Filing.CanonicalCaseLedger.AppendEvent | core/case_ledger/ledger.py:170-221 | Under every schedule of other writers the append's result, log and remaining schedule are those of its machine |
| Filing.RecordReceiptAndFileCase | core/case_product_hardening_v1.py:1329-1392 | The two appends under every schedule; the Case is marked exactly when both succeeded |
| Filing.FilingSucceedsExactlyWhen | core/case_product_hardening_v1.py:1329-1392 | A filing succeeds exactly when the request is admissible, the stream readable at the expected head with room for two events, and nobody else appends to the case between its first and last read |
| Filing.FilingFate | core/case_ledger/ledger.py:170-221 | For every request, ledger and schedule: in each case in which a filing fails or succeeds, the events it added itself and the exact stream it leaves |
| Filing.FiledWithoutTheCase | core/case_ledger/ledger.py:213-221 | A filing's own CASE_FILED event lands if and only if the request is admissible, the stream ready with room for two events and nobody else appends to the case from the first append to the second; the call then succeeds if and only if nobody appends before its read-back either, and it never succeeds without having landed |
| Filing.FilingTimes | core/case_product_hardening_v1.py:321-341 | Under an approval a filing of an identity can land exactly if the five fields agree, at action times from its grant on, before any revocation and up to and including any expiry |
| Filing.OtherApprovalsFileNothing | core/case_product_hardening_v1.py:1346-1350 | An approval for another case, artifact, version, digest or action type files nothing: no event, an error, the Case as before |
| Filing.HeadPinsHistory | core/case_ledger/ledger.py:79-104 | The expected head pins the whole history: readable streams with the same head are equal and of the same case |
| Filing.HeadMovesWithStream | core/enterprise/durability.py:160-197 | Whatever others append to the ledger, the backend head of a case's stream is unchanged exactly when the stream is |
| Filing.ChainGrows | core/case_ledger/ledger.py:190-206 | Every appended event continues the chain it was built on |
| FilingSystem.FilingFollowsItsReceipt | core/case_product_hardening_v1.py:1329-1392 | In every interleaving each CASE_FILED event stands directly behind the recorded receipt of the same identity, which proves success, and names it as head and cause |
| FilingSystem.FilingsAreApproved | core/case_product_hardening_v1.py:1329-1392 | In every interleaving each CASE_FILED event was filed under an approval for the recorded action, in force at its recorded time and named by the receipt event before it |
| FilingSystem.FiledCaseIsOnLedger | core/case_product_hardening_v1.py:1386-1392 | A FILED Case has its filing and the receipt before it on the ledger |
| FilingSystem.OnlySuccessChangesACase | core/case_product_hardening_v1.py:1386-1392 | A Case changes only in the step in which its own filing returns successfully; every failed filing leaves it alone |
| FilingSystem.StreamsStayReadable | core/case_ledger/ledger.py:105-124 | No interleaving of ledger writers makes a case's stream unreadable |
| CryptoMigration.AttestationSignedExactlyWhen | core/crypto_agility_v1.py:435-472 | An attestation is signed exactly with the private key of an active listed key in its life and purpose, an expiry after the issue and a nonce that is not blank; it then verifies at once |
| CryptoMigration.AttestationIsValidUntilExpiry | core/crypto_agility_v1.py:395-472 | A freshly signed attestation verifies exactly from its issue until its expiry |
| CryptoMigration.AttestationVerifiesExactlyWhen | core/crypto_agility_v1.py:395-472 | With ideal signatures exactly those attestations verify that were signed with the private key of a listed key, not revoked, in its life and purpose, for this subject and payload and in force |
| CryptoMigration.EnvelopeVerifiesExactlyWhen | core/cross_algorithm_crypto_migration_v1.py:790-886 | With ideal signatures exactly those envelopes verify that name the presented evidence, were signed with the private key of a succeeding, not revoked key in its life, over a source in force at the issue, and not before the issue |
| CryptoMigration.OnlyActiveKeysSign | core/cross_algorithm_crypto_migration_v1.py:690-789 | An envelope is signed exactly with the private key of an active succeeding key in its life, over a source in force, under matching pins |
| CryptoMigration.IdealSignaturesExist | core/cross_algorithm_crypto_migration_v1.py:690-886 | The assumption of ideal signatures can be met: an explicit scheme |
| CryptoMigration.SignedEnvelopeVerifiesExactlyWhen | core/cross_algorithm_crypto_migration_v1.py:690-886 | A signed envelope verifies exactly with the signer's evidence and key material, matching pins, a key that is not revoked and whose life covers the issue time, a supported runtime and a time from the issue on |
| CryptoMigration.RotationKeepsAttestations | core/crypto_agility_v1.py:395-472 | After the signing key of a legal trust set was retired later and the new legal set pinned, an attestation verifies exactly from its issue until its expiry; after the key was revoked it never does |
| CryptoMigration.EvidenceOutlivesItsKey | core/cross_algorithm_crypto_migration_v1.py:790-886 | It stays accepted after the source attestation has expired and the key has retired, and is rejected once the key is revoked; the retired and revoked keys are legal when the key is |
| CryptoMigration.EnvelopePinsItsSource | core/cross_algorithm_crypto_migration_v1.py:790-886 | No envelope verifies for two different sources or key materials, and its source was valid when it was issued |

## Left out

- SQLite transactions, fsync, tampering with stored rows and the errors of a failing backend: the log is a sequence and a record digest covers its history.
- SHA-256, canonical JSON, base64, Ed25519 and ML-DSA-65 themselves: digests are injective and signatures an abstract pair.
- Symbolic-link chains above a path, resolution of roots, permissions, restore to a path, process isolation and the offline runner: a store is a map from digests to files and a tree a map from paths to entries.
- Fixed key sets, schema strings and self-digest checks of the frozen dataclasses, except where a property needs them: documents arrive as typed values.
- External actions: a receipt's provider reference, schema fields and control-character checks, and the default of `started_at` (the clock) are not modelled; the answer of the one provider call of an execution is fixed when the call begins, which loses no behaviour because every answer is considered.
- External actions: identities whose strings would make two scopes share a stream name; a scope is its case id and logical action id.
- Refinement: `dispatch_ref`, `started_at` and reconciliation references that only the durable methods take are assumed acceptable to them, because the in-process methods have no such arguments to compare.
- Refinement on a stream of 1,000 records and more: the durable coordinator stops there by design and the in-process one does not.
- Method results about the state read back under concurrency: another worker may have moved it, so these are stated for undisturbed calls only.
- Periodic replay: docs/LRD_01L_PERIODIC_REVALIDATION_V1.md calls a chain OVERDUE whenever the current age exceeds the bound; in the code a failed last observation makes such a chain UNVERIFIABLE first. The model follows the code, and OverdueMeansMissedDrill states its exact condition.
- Periodic replay: checking a stored observation against its evidence objects again, which repeats the checks of its construction.
- Cross-environment documents: provenance fields that no check compares (os release, locale, filesystem semantics and others), hard bounds, file counts and the fixed field-class table.
- Cross-environment versions: the integer reading of a version text is a parameter; its comparison with the supported range is modelled.
- ZIP: parsing of the container is a parameter; the compression ratio is compared exactly where the program divides in floating point, which agrees for sizes below 2^53. A member named "." ends in an index error in the program and counts as rejected here.
- ZIP: a case-insensitive file system, and a destination that another process creates between the check and the final rename.
- Escrow: durability capabilities of a location, which are validated on their own and never complete; and another process that changes a store during one operation, so the branches that detect it after a publish cannot be taken.
- Escrow: the aggregate, as in the program, compares the restore reports with the two locations it is given and not these with the ones its plan names, so the lemmas about it assume a plan for the given locations.
- Survivability: the checks inside the identity, escrow and supply-chain documents are one arbitrary further predicate; the pinning theorems hold for every such predicate. Empty folders and the layout of the manifest text are not pinned by the program either.
- Filing: identifier and envelope checks are left out, and closing, reopening and classification events appear as other ledger writers only. `touch` is not modelled.
- Crypto migration: encodings, key sizes and the performance probe; the runtime check is a parameter that is absent where the pinned backend is unavailable.
- Case replay, case exchange, product runtime, long-range health, agent workflow, governance closure, plugins and the command line: not part of this model.
