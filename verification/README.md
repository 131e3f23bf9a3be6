# Verified model of the finance core

A Dafny model of the parts of the finance core in which a single step is easy to read and the
property that matters is one of a whole run, a whole history or a whole encoding. Each part has a
specification (values and functions, or a step relation), the theorems about it, and, where the
program works by changing tables, fields or local variables, a class or a method with loops proved
against that specification.

| part | files | what it models |
|---|---|---|
| Corrections | `CorrectionLedger`, `CorrectionHistory`, `CorrectionSeal`, `CorrectionRuns`, `CorrectionConcurrency`, `CorrectionCalendar`, `CorrectionService` | the append-only, hash-linked correction ledger: preview, apply, replay, recover, lookup |
| Posting | `PostingResume`, `PostingRecovery`, `PostingStore` | the resumable posting attempt under crashes and concurrent workers |
| Reviews | `ReviewBook`, `ReviewRuns`, `ReviewStore` | review delivery, activation, conflict, supersession and the one-time Confirm |
| Delivery material | `DeliveryMaterial`, `DeliveryGrid` | the length-framed bytes that bind a delivered review |
| AI invocation | `AiJournal`, `AiRuns`, `AiChains`, `AiGuarantees`, `AiLimits`, `AiLongChain`, `AiInvocationService` | prepare, claim, dispatch, record, publish, follow-up chains and clarification questions |
| Snapshot bundle | `BundleReferences`, `BundleInventory`, `BundleEdge`, `BundleStage`, `BundleGuarantees`, `BundleStager` | collecting references, staging a tree with a manifest, independent readback |
| Gate | `GateMachine`, `ManagedStaging` | shared and exclusive leases around managed SQLite handles |
| Algorithms | `CanonicalDecimal`, `PlatformReach`, `ArchiveFrame` | canonical decimal text, breadth-first platform reachability, the archive frame |

`Prelude` and `Bytes` hold what the parts share.

## How to read it

* A transaction is a function from a state to a new state or a refusal. A refused transaction is
  rolled back: it changes nothing. `Run` folds any sequence of operations, including crashes,
  other workers' steps and clock values, over a state; the main theorems speak of every such run.
* SQL tables are maps and sequences. The uniqueness that the schema enforces is checked where a row
  is inserted.
* What the program calls and does not define is a function-valued parameter: SHA-256, canonical
  JSON, the source, reply, approval and provider authorities, the receipt calculator, the database
  reader, the content sniffer. What a theorem needs of it is a `requires`. No digest is assumed to
  be injective and of fixed length at once: where the length matters, only the values at hand are
  required not to collide.
* The AI operations and the resume steps take the answer of an external authority as an argument,
  so a theorem about every run covers every way those authorities can answer.

## Findings

Five statements that one would expect of the code are not true of it as they stand. The code is
modelled as it is; each has the exact condition and a case in which it fails.

* A clarification question that was written is expected to pass verification. It does exactly when
  fewer than 128 questions precede it: the write path verifies the questions that are there, not
  the one it adds (`AiGuarantees.WrittenQuestionVerifies`, `AiLimits.QuestionBeyondLimit`).
* A follow-up that was prepared is expected to be usable. The ancestor walk admits 128 ancestors,
  verification admits 127, so a follow-up to the 128th attempt of a chain can be prepared and never
  claimed, cancelled or published (`AiGuarantees.VerifiesWithinDepth`, `AiLimits.WalkSucceeds`,
  `AiLimits.FollowUpBeyondDepth`, `AiLongChain.FollowUpIsLost`).
* A finished financial effect is expected to be caught up. It is refused exactly when a concurrent
  worker moved the attempt to `needs_attention` first (`PostingRecovery.CatchUpRefusedExactlyAfterAttention`,
  `PostingRecovery.AttentionCanOvertakeFinalization`).
* Collecting references is expected not to depend on row order. Its result does not, but its success
  does in one case: the budget of 65,536 kept references is tested before a reference is known to be
  empty, so an empty one after the last that fits is refused and the same one earlier is not
  (`BundleInventory.RowOrderDecides`, `BundleInventory.EmptyClaimAtTheEdge`, `BundleEdge.BlankAtTheEdge`).
* A correction plan that was previewed is expected to be readable. It is exactly when its expiry is at
  most 253402300799: preview bounds the creation time, reading bounds the expiry too, so a plan made
  in the last 600 seconds before that limit is stored and refused ever after
  (`CorrectionConcurrency.StoredPlanIsSealed`, `CorrectionConcurrency.LatePlanIsRefused`,
  `CorrectionCalendar.PreviewAtAnyTime`, `CorrectionCalendar.LatePlanIsLost`).

## Model

| member | source | states |
|---|---|---|
| CorrectionHistory.VerifiedAt | finance_core/application/corrections.py:716-727 | reading a stored history version by version, entry i was checked as version i + 1 against the entries before it and its predecessor hash is the result hash of entry i - 1 |
| CorrectionHistory.LookupParts | finance_core/application/corrections.py:676-735 | a successful lookup has verified every stored version of the target and reports the last one's fields |
| CorrectionHistory.SameResultSameRow | finance_core/application/corrections.py:1335-1453 | two verified versions with one result hash are the same version, made by the same plan on the same predecessor |
| CorrectionHistory.SameTailSameHistory | finance_core/application/corrections.py:1335-1453 | by induction, two verified histories that end in one result hash have the same versions, plans and original fields |
| CorrectionHistory.LastResultHashFixesHistory | finance_core/application/corrections.py:531-563 | the last result hash fixes the whole history, across two databases read through different services |
| CorrectionSeal.FrameDeterminesParts | finance_core/application/corrections.py:231-234 | tag, NUL, length and payload can be read off the hashed bytes |
| CorrectionSeal.TaggedDigestsCollisionFree | finance_core/application/corrections.py:231-238 | the tagged digests do not collide within or across the plan, result and field domains when the bare digest does not |
| CorrectionRuns.PreviewKeeps | finance_core/application/corrections.py:801-904 | a preview adds a plan and at most an anchor and keeps every stored version verifiable |
| CorrectionRuns.CommittedRowVerifies | finance_core/application/corrections.py:1038-1170 | the version an apply writes passes every check lookup makes of it |
| CorrectionRuns.ConsumeKeeps | finance_core/application/corrections.py:986-1188 | consuming a plan keeps all targets' ledgers acceptable |
| CorrectionRuns.EveryRunIsAccepted | finance_core/application/corrections.py:676-735 | after any mix of previews, applies, replays, recoveries and crashes, lookup accepts; versions are 1..n, each starts from the one before, receipt snapshots link to their predecessor |
| CorrectionRuns.LedgerMeansFoldedEdits | finance_core/application/corrections.py:341-351 | the effective fields are the original fields with the committed edits folded in commit order, and the version counts them |
| CorrectionConcurrency.StaleForever | finance_core/application/corrections.py:1002-1036 | a plan whose predecessor version has been passed is refused after every later run, even if the old fields are restored |
| CorrectionConcurrency.CommitMakesRivalsStale | finance_core/application/corrections.py:1002-1036 | a commit makes every unconsumed plan on the same predecessor stale |
| CorrectionConcurrency.OneCommitPerPredecessor | finance_core/application/corrections.py:986-1188 | in every reachable ledger at most one plan per predecessor version was consumed |
| CorrectionConcurrency.HistoryOnlyExtends | finance_core/application/corrections.py:1216-1263 | later operations leave the entries of a history as they were |
| CorrectionConcurrency.ReplayReturnsOriginalEntry | finance_core/application/corrections.py:1002-1036 | replaying a consumed plan with its decision returns the original entry and adds no version; another decision is refused |
| CorrectionConcurrency.StoredPlanIsSealed | finance_core/application/corrections.py:424-462 | every plan a run has stored is bound to its key and correctly hashed, and reading it back succeeds exactly when created + 600 is at most 253402300799 |
| CorrectionConcurrency.LatePlanIsRefused | finance_core/application/corrections.py:424-462 | a plan that a preview stored later than that is refused by apply and recovery after every later run |
| CorrectionCalendar.PreviewAtAnyTime | finance_core/application/corrections.py:801-904 | a text preview that succeeds at one second succeeds at every other up to 253402300799, in any ledger, exactly when no stored plan has the hash it would then have |
| CorrectionCalendar.AppliedExactlyInTime | finance_core/application/corrections.py:424-462 | with concrete services and from the empty ledger, an edit is previewed at every second, and signed and applied at once it commits exactly when created + 600 is at most 253402300799 |
| CorrectionCalendar.LatePlanIsLost | finance_core/application/corrections.py:424-462 | a run from the empty ledger in each of the last 600 seconds: the plan is stored, and no apply and no recovery accepts it after any further run |
| CorrectionConcurrency.RecoveryReportsExactlyCommits | finance_core/application/corrections.py:1190-1214 | for every stored plan of every run, recovery answers exactly when created + 600 is at most 253402300799; it then reports an entry exactly for a committed plan, and it is the entry that replay returns |
| CorrectionServices.CorrectionService.ReadHistory | finance_core/application/corrections.py:716-727 | the loop that carries the previous fields and predecessor computes the verified history |
| CorrectionServices.CorrectionService.Read | finance_core/application/corrections.py:676-735 | lookup is the specified lookup, refusals included |
| CorrectionServices.CorrectionService.MakePreview | finance_core/application/corrections.py:801-904 | the stored plan is the returned one and the ledger stays acceptable and append-only |
| CorrectionServices.CorrectionService.MakeApply | finance_core/application/corrections.py:986-1188 | one consumption per plan; what was applied is in the returned history; an accepted consumption always returns |
| CorrectionServices.CorrectionService.MakeRecover | finance_core/application/corrections.py:1190-1214 | recovery changes nothing and returns the consumed plan's entry |
| PostingRecovery.EvidenceTracksStage | finance_core/posting_authority.py:2383-2421 | for any crash and worker schedule, `row_version` counts transitions, the stage is never ahead of its evidence and at most one record behind it, and the evidence is a prefix of the uninterrupted run's |
| PostingRecovery.StagesMoveForward | finance_core/posting_authority.py:2347-2421 | transitions are only appended and a terminal stage is final |
| PostingRecovery.CompletedEffectIsUninterrupted | finance_core/posting_authority.py:2558-2833 | a finalized attempt has exactly the records and the one transaction of an uninterrupted run |
| PostingRecovery.TransactionIsWrittenOnce | finance_core/posting_authority.py:2558-2833 | once written, the transaction is that of the uninterrupted run and never changes |
| PostingRecovery.ResumeTerminates | finance_core/posting_authority.py:2558-2833 | each own step of a resume brings it nearer its end, whatever others did: at most 18 steps |
| PostingRecovery.OthersDoNotInterfere | finance_core/posting_authority.py:2525-2555 | other workers' steps do not move a worker |
| PostingRecovery.CatchUpRefusedExactlyAfterAttention | finance_core/posting_authority.py:2462-2522 | catch-up is refused if and only if a transaction exists under an attempt that needs attention |
| PostingRecovery.AttentionCanOvertakeFinalization | finance_core/posting_authority.py:2424-2522 | a run from the accepted decision in which two workers leave a posted transaction under an attempt that needs attention |
| PostingStores.PostingStore.MoveFrom | finance_core/posting_authority.py:2383-2421 | a transition happens only from the expected stage |
| PostingStores.PostingStore.CatchUpFinalized | finance_core/posting_authority.py:2462-2522 | catch-up finalizes or refuses as specified |
| PostingStores.PostingStore.ResumePersonalReceipt | finance_core/posting_authority.py:2558-2833 | a lone resume ends in a terminal stage; it ends finalized, with the complete effect, exactly when its checks hold |
| ReviewRuns.RunGrows | finance_core/posting_authority.py:1449-1628 | activations, observations, conflicts, supersessions and acceptances are write-once over every run |
| ReviewRuns.BarredForever | finance_core/posting_authority.py:1821-1893 | a review superseded, or in conflict before acceptance, is never accepted |
| ReviewRuns.AcceptedNeverSuperseded | finance_core/posting_authority.py:1657-1761 | an accepted review is never superseded |
| ReviewRuns.SupersessionPathsAreSimple | finance_core/posting_authority.py:1657-1761 | supersession is a forest of simple paths, generations rise by one, and only the last review of a path can be accepted |
| ReviewRuns.EveryReviewHasItsPath | finance_core/posting_authority.py:1657-1761 | in every reachable book every review ends a path from a first review that is as long as its generation |
| ReviewRuns.AcceptedKeepsAuthority | finance_core/posting_authority.py:1821-1893 | an accepted review keeps valid delivery authority whatever conflicts arrive later |
| ReviewRuns.RedemptionsAreAcceptances | finance_core/posting_authority.py:2196-2250 | a redeemed Confirm reference belongs to exactly one acceptance |
| ReviewStores.ReviewStore.ObserveReceipt | finance_core/posting_authority.py:1449-1628 | the first provider message activates, any other is recorded as a conflict and refused |
| ReviewStores.ReviewStore.RecordDelivery | finance_core/posting_authority.py:1361-1628 | recording a receipt is the specified step; a token is credited once |
| ReviewStores.ReviewStore.ReplaceReview | finance_core/posting_authority.py:1631-1772 | replacement supersedes the predecessor by one successor or changes nothing |
| ReviewStores.ReviewStore.ConfirmReview | finance_core/posting_authority.py:2074-2344 | Confirm accepts the bound review once; a refused Confirm leaves the book unchanged |
| DeliveryMaterial.FieldCancels | finance_core/posting_authority.py:242-246 | a leading framed field can be read off: its value and what follows are determined |
| DeliveryMaterial.CallbackDetermined | finance_core/posting_authority.py:249-252 | the hashed callback material determines the callback value |
| DeliveryMaterial.MaterialInjective | finance_core/posting_authority.py:255-278 | the material bytes determine the text and the grid of captions and callback digests |
| DeliveryGrid.SortByColumn | finance_core/posting_authority.py:265-265 | a row's controls sorted by column, none lost or added |
| DeliveryGrid.Group | finance_core/posting_authority.py:257-259 | controls grouped by row in list order |
| DeliveryGrid.BuildGrid | finance_core/posting_authority.py:257-267 | accepted exactly when the controls fill a grid without gap or shared place; otherwise no grid matches them |
| DeliveryGrid.RowBytes | finance_core/posting_authority.py:270-277 | the inner loop appends the encoding of every button in column order |
| DeliveryGrid.DeliveryMaterialOf | finance_core/posting_authority.py:255-278 | the loops build the material of the grid the controls describe, or refuse when there is none or a length does not fit |
| DeliveryGrid.MaterialDeterminesControls | finance_core/posting_authority.py:255-278 | two accepted inputs have the same bytes exactly when they have the same text and the same set of row, column, label and callback, whatever the list order |
| AiRuns.PrepareEffect | finance_core/application/ai_invocation_v2.py:314-431 | a prepared attempt is on the pending target, its walk covers all unpublished attempts of the parent, and a follow-up consumes the last question of an unfollowed attempt |
| AiRuns.ClaimEffect | finance_core/application/ai_invocation.py:607-661 | a claim is new or changes nothing but an uncertainty event |
| AiRuns.PublishEffect | finance_core/application/ai_invocation.py:833-879 | publication needs no event, exactly one valid result and the current target |
| AiRuns.AskEffect | finance_core/application/ai_invocation_v2.py:759-834 | a question follows an expired unconsumed one and lasts 900 seconds |
| AiRuns.CancelEffect | finance_core/application/ai_invocation.py:881-910 | cancelling only adds events to the attempt |
| AiChains.FollowsLast | finance_core/application/ai_invocation_v2.py:321-337 | a follow-up whose ancestor walk covers a chain follows that chain's last attempt |
| AiChains.StepKeeps | finance_core/application/ai_invocation.py:607-1007 | every transaction keeps the invariant and only adds evidence |
| AiGuarantees.OneChainPerParent | finance_core/application/ai_invocation_v2.py:314-337 | in every reachable journal the attempts on a parent form one follow-up chain and only its last can be published |
| AiGuarantees.FollowedNeverPublishes | finance_core/application/ai_invocation.py:848-855 | a followed attempt is never published, whatever happens next |
| AiGuarantees.OnePublicationPerParent | finance_core/application/ai_invocation.py:833-879 | two published attempts differ in parent and in child |
| AiGuarantees.EventBarsPublication | finance_core/application/ai_invocation.py:844-847 | an unpublished attempt with a cancel or uncertainty event is never published |
| AiGuarantees.DispatchedAtMostOnce | finance_core/application/ai_invocation.py:694-718 | over every run, crashes included, an attempt reaches the provider at most once and only after its claim |
| AiGuarantees.VerifiedAncestry | finance_core/application/ai_invocation_v2.py:569-578 | on any journal, cyclic or not, verification accepts only a finite, repetition-free ancestry within the limit |
| AiGuarantees.AncestryVerifies | finance_core/application/ai_invocation_v2.py:569-578 | and every such ancestry |
| AiGuarantees.VerifiesWithinDepth | finance_core/application/ai_invocation_v2.py:569-578 | a reachable attempt verifies exactly when it has fewer than 128 ancestors |
| AiGuarantees.PublishedVerifies | finance_core/application/ai_invocation.py:833-879 | in every reachable journal every published attempt passes verification |
| AiGuarantees.PublishedIsCurrent | finance_core/application/ai_invocation.py:865-874 | a new publication reports PUBLISHED with its child and is current |
| AiGuarantees.LostForever | finance_core/application/ai_invocation.py:962-968 | a child that was replaced or revised is not current after any further run |
| AiGuarantees.OneCurrentPublication | finance_core/application/ai_invocation.py:947-969 | in every reachable journal at most one published attempt of an intake is current |
| AiGuarantees.PublishedForever | finance_core/application/ai_invocation.py:919-994 | a published attempt verifies and reports PUBLISHED with the same child after every later run; it is current then only if it was before |
| AiGuarantees.QuestionGenerations | finance_core/application/ai_invocation_v2.py:659-728 | generations have 900-second windows that do not overlap, only the last can be consumed, by one follow-up |
| AiGuarantees.AtMostOneOpen | finance_core/application/ai_invocation_v2.py:730-757 | in every reachable journal, at any clock value at most one question of an attempt is within its window, and only the last can be open |
| AiGuarantees.TooManyForever | finance_core/application/ai_invocation_v2.py:672-678 | once an attempt of a journal that satisfies the invariant has more than 128 questions, none of them passes verification after any run |
| AiGuarantees.WrittenQuestionVerifies | finance_core/application/ai_invocation_v2.py:672-678 | a written question passes verification exactly when fewer than 128 precede it; after the 129th none passes, whatever follows |
| AiLimits.WalkSucceeds | finance_core/application/ai_invocation_v2.py:321-335 | the ancestor walk succeeds exactly for up to 128 ancestors |
| AiLimits.FollowUpBeyondDepth | finance_core/application/ai_invocation_v2.py:569-578 | a follow-up prepared after the 128th attempt of a chain never verifies |
| AiLimits.QuestionBeyondLimit | finance_core/application/ai_invocation_v2.py:759-834 | a concrete run writes a question that no verification accepts after any later run |
| AiLongChain.LongChain | finance_core/application/ai_invocation_v2.py:276-436 | follow-up chains of every length up to 128 are reachable |
| AiLongChain.FollowUpIsLost | finance_core/application/ai_invocation_v2.py:321-335 | a concrete run prepares a follow-up that no later state can verify |
| AiInvocationServices.CheckGenerations | finance_core/application/ai_invocation_v2.py:672-728 | the loop over generations decides the specified checks |
| AiInvocationServices.AncestorWalk | finance_core/application/ai_invocation_v2.py:321-335 | the loop that grows `permitted` terminates on any links and computes the specified walk |
| AiInvocationServices.AiInvocationService.VerifyAttempt | finance_core/application/ai_invocation_v2.py:569-656 | the recursion decides verification and leaves its stack as it found it |
| AiInvocationServices.AiInvocationService.GetStatus | finance_core/application/ai_invocation.py:919-994 | a status, with its currency, is reported exactly for attempts that verify |
| AiInvocationServices.AiInvocationService.PrepareAttempt | finance_core/application/ai_invocation_v2.py:276-436 | preparing is the specified transaction and keeps the invariant |
| AiInvocationServices.AiInvocationService.ClaimAttempt | finance_core/application/ai_invocation.py:607-661 | claiming is the specified transaction; a new permission is the attempt's first |
| AiInvocationServices.AiInvocationService.RecordOutcome | finance_core/application/ai_invocation.py:740-780 | recording is the specified transaction; a repeated observation adds nothing |
| AiInvocationServices.AiInvocationService.PublishAttempt | finance_core/application/ai_invocation.py:833-879 | publishing is the specified transaction, succeeds only if the attempt is published, and leaves a new publication current |
| AiInvocationServices.AiInvocationService.CancelAttempt | finance_core/application/ai_invocation.py:881-910 | a cancelled attempt has an event and is not published |
| AiInvocationServices.AiInvocationService.RecoverAttempt | finance_core/application/ai_invocation.py:996-1007 | recovery is the specified transaction |
| AiInvocationServices.AiInvocationService.AskClarification | finance_core/application/ai_invocation_v2.py:759-834 | asking or refreshing is the specified transaction |
| AiInvocationServices.AiInvocationService.Invoke | finance_core/application/ai_invocation.py:694-718 | one call dispatches at most once, never an attempt that was claimed before, and leaves a state of some run |
| BundleInventory.RegistersExactly | finance_core/managed_snapshot_bundle.py:186-215 | the exact condition under which all claims are kept, as a count and the last claim |
| BundleInventory.Register | finance_core/managed_snapshot_bundle.py:186-215 | the loop keeps the non-empty claims or refuses, exactly as specified |
| BundleInventory.ResolveAll | finance_core/managed_snapshot_bundle.py:438-516 | the loop gives each claim its fact and each member its one value, or there is no such assignment |
| BundleInventory.CollectReferences | finance_core/managed_snapshot_bundle.py:156-524 | fails exactly when the claims have no inventory |
| BundleInventory.MemberNamesHash | finance_core/managed_snapshot_bundle.py:105-117 | a member's path holds its digest and the shard that starts it |
| BundleInventory.ClaimsAgreeOnMembers | finance_core/managed_snapshot_bundle.py:447-516 | every claim has one member, and each digest or size it asserts is the recorded one and the digest in the path |
| BundleInventory.RowOrderDoesNotMatter | finance_core/managed_snapshot_bundle.py:438-524 | rows in another order give the same members, the same facts up to order and the same digest |
| BundleInventory.RowOrderKeepsSuccess | finance_core/managed_snapshot_bundle.py:438-524 | among orders within the budget one succeeds exactly when the other does |
| BundleInventory.RowOrderDecides | finance_core/managed_snapshot_bundle.py:186-215 | another order of collected claims fails exactly when the budget is used up and an empty claim comes last |
| BundleInventory.EmptyClaimAtTheEdge | finance_core/managed_snapshot_bundle.py:198-210 | whatever claims fill the budget, an empty one before the last of them changes nothing and one after it leaves no inventory |
| BundleEdge.BlankAtTheEdge | finance_core/managed_snapshot_bundle.py:248-365 | 65,535 intake records and a payment record are collected, also with an intake record without attachment among them, and have no inventory with such a payment record after them |
| BundleInventory.SortSame | finance_core/managed_snapshot_bundle.py:519-523 | sorting the encoded facts erases their order |
| BundleGuarantees.CollectedIsSound | finance_core/managed_snapshot_bundle.py:447-518 | a collected inventory has what staging relies on |
| BundleGuarantees.ListedTreeIsExact | finance_core/managed_snapshot_bundle.py:929-975 | equal listings of the expected directories imply equality of the whole tree |
| BundleGuarantees.AcceptedTreeIsExact | finance_core/managed_snapshot_bundle.py:1193-1364 | an accepted tree is the manifest, the database, one correctly hashed file per referenced original, their directories and nothing else |
| BundleGuarantees.StageThenVerify | finance_core/managed_snapshot_bundle.py:1020-1190 | an untouched staged tree is accepted with the staged receipt |
| BundleGuarantees.OneTreePerReceipt | finance_core/managed_snapshot_bundle.py:1193-1364 | with one receipt at most one tree is accepted |
| BundleGuarantees.AlteredTreeIsRefused | finance_core/managed_snapshot_bundle.py:1193-1364 | a staged tree altered in contents, names, modes or extent is refused |
| BundleStager.SortMembers | finance_core/managed_snapshot_bundle.py:1077-1077 | the members in strict name order, all and only they |
| BundleStager.StageMembers | finance_core/managed_snapshot_bundle.py:1046-1111 | the copying loop builds the tree and the aggregate, or some copy or the budget fails |
| BundleStager.StageBundle | finance_core/managed_snapshot_bundle.py:1020-1190 | staging yields an acceptable bundle or there is none for these inputs |
| BundleStager.CheckTree | finance_core/managed_snapshot_bundle.py:929-975 | the loops over directories and files decide the exact tree |
| BundleStager.CheckCopies | finance_core/managed_snapshot_bundle.py:1325-1344 | the loop over the manifest decides every copied attachment |
| BundleStager.VerifyBundle | finance_core/managed_snapshot_bundle.py:1193-1364 | the reader decides the specified acceptance |
| GateMachine.LeaseOutlivesHandle | finance_core/managed_staging_profile.py:223-276 | over every interleaving a handle that is open or uncertain has its shared lease held; a finished operation keeps its lease exactly when it was retained |
| GateMachine.CutExcludesWriters | finance_core/profile_gate.py:225-310 | while the exclusive cut is held no ordinary writer handle is open or uncertain |
| GateMachine.UncertaintyBarsHandles | finance_core/profile_paths.py:50-80 | after an uncertain close no managed handle is opened again in that process |
| GateMachine.RetainedLeaseStays | finance_core/managed_staging_profile.py:50-75 | a retained lease is held until its process exits, so no cut begins before |
| ManagedStagings.ManagedStaging.CloseThenGate | finance_core/managed_staging_profile.py:50-75 | the handle closes before the lease; a failed close keeps both and marks the process |
| ManagedStagings.ManagedStaging.ManagedConnection | finance_core/managed_staging_profile.py:223-276 | on every exit path the lease is kept exactly when the close is uncertain, at every moment each live handle had its lease, and the call raises exactly when the gate was contended, a check, the body, the rollback or the close failed, or the profile did not revalidate |
| ManagedStagings.ManagedStaging.Bootstrap | finance_core/managed_staging_profile.py:157-220 | the same for enrolment: a registration exists exactly when its link followed a definite close, and at no moment beside a live handle |
| CanonicalDecimal.MinimalIsUnique | finance_core/money.py:397-408 | a value has one notation without redundant zeros |
| CanonicalDecimal.CanonicalTextIsUnique | finance_core/money.py:360-436 | canonical texts are equal exactly when the values they parse to are |
| CanonicalDecimal.ParseRender | finance_core/money.py:422-436 | a rendered notation parses back to itself |
| CanonicalDecimal.PlacedValue | finance_core/money.py:422-432 | placing the point or the zeros keeps the value |
| CanonicalDecimal.StrippedValue | finance_core/money.py:401-408 | stripping trailing zeros into the exponent keeps the value |
| CanonicalDecimal.CanonicalDecimalStr | finance_core/money.py:360-436 | returns the canonical text of the value, or refuses exactly when that text exists and exceeds the limit |
| CanonicalDecimal.LengthIsPredicted | finance_core/money.py:410-418 | the length computed before expansion is the length of the text |
| CanonicalDecimal.Print | finance_core/money.py:422-436 | the printed characters are the rendered notation |
| CanonicalDecimal.PrintingFollowsValue | finance_core/money.py:360-385 | of two results the printer may return, equal values give equal texts or two refusals, and equal texts come from equal values |
| PlatformReach.Search | scripts/check_application_dependencies.py:304-321 | the search terminates and finds exactly the platform modules reached with no platform module in between, each once, by a shortest path |
| PlatformReach.Frontier | scripts/check_application_dependencies.py:306-321 | every clean path ends at a node met within its length, unless the queue starts that early |
| PlatformReach.Inventory | scripts/check_application_dependencies.py:300-327 | reports exactly the pairs with a clean path; the application paths are real and shortest, and there are none exactly when no application module reaches a platform module at all |
| ArchiveFrame.UnframeOfFrame | finance_core/synthetic_archive_crypto.py:248-275 | unframing a frame returns its parts exactly when both are within their limits |
| ArchiveFrame.FrameOfUnframe | finance_core/synthetic_archive_crypto.py:259-275 | whatever is accepted is exactly the frame of what was returned |

## Left out

- SQL text, schema fingerprints, migration ledgers, row marshalling and connection handling; the model has tables with the uniqueness the schema enforces.
- File descriptors, ACLs, device and inode identity, fsync and link counts: a tree entry has a kind, a mode and bytes.
- HMAC, age encryption, key handling, SHA-256 itself and canonical JSON: parameters with the laws a theorem needs.
- The audit hash chain, the receipt split calculator, the finalization bridge and the proposal repository: parameters; the model keeps that a correction's audit rows match its versions.
- Which reason or message a refusal gives; only the places where the refusal decides a later step keep it.
- Historical v1 AI attempts, which are read-only, and the text of projections and prompts.
- The poll loop and the time bounds of acquiring a lease: acquiring is granted or not, and a cut is never granted while a lease is held.
- `_delegated_cut_source`: it takes no lease and opens its handle under the inherited exclusive one, so it is not an ordinary writer.
- Amendment, admission and the receipt and text posting authorizations, correction relationships, capture retries, `Money` arithmetic and rounding: field comparisons and library behaviour that would add only easy members.
- Which rows of which tables become references, including those inside stored JSON: the model starts from the list of claims that the tables yield. The row and memory budgets of reading one table are not in it.
- AiInvocationServices.AiInvocationService.Invoke: a single process; interleavings with other processes are covered by the theorems over runs.
- AiGuarantees.EventBarsPublication: from any journal that satisfies the invariant, which every reachable one does (`AiGuarantees.Reached`).
- AiGuarantees.LostForever: from any journal that holds the child.
- AiGuarantees.TooManyForever: from any journal that satisfies the invariant, likewise.
- GateMachine.RetainedLeaseStays: from any world that satisfies the invariant, which every reachable one does (`GateMachine.RunKeeps`).
- AiInvocationServices.AiInvocationService.AskClarification: one clock value per transaction; the program reads its clock twice.
- BundleGuarantees.OneTreePerReceipt: device and inode numbers in the receipt and the returned tree identity digest are not modelled.
- CanonicalDecimal.CanonicalDecimalStr: takes finite decimals only; the refusal of other types and of infinities is not modelled.
