# ZigbeeLens verification model

This project models the parts of ZigbeeLens whose correctness depends on many
functions working together, and proves what they promise. The models follow the
code: same branches, same constants, same error conditions. Code that changes
state in place is a class or a method with loops, proved against a
specification; what the source promises is then proved about that specification,
for every input or every run.

## What is modelled

**Home Assistant enrichment.** The registry reader (`RegistryReader`) and what it
lists (`RegistryMeaning`), the resolver that links registry devices to Core devices
(`Resolver`, `ResolverProperties`) and what its result says of registry and inventory
alone (`ResolverMeaning`), the request builder and Core's
validator (`CoreRequest`), and the publisher (`SyncProtocol`, `SyncManager`).
The publisher is a step machine whose steps are the stretches of code between
two awaits; registry, contract state, replies, timers and calls come in any
order. `SyncTheorems` states the scheduling promises. `SyncCache` keeps a book
of Core's replies and of the contract as new attempts see it, and proves the cache
against it. `SyncTruth` sets Core beside the publisher and says what the diagnostics
shown mean, `SyncStored` when that is certain although failed publishes may have been
stored, and `SyncLostCommit` is a run where it is wrong. `SyncReplies` says, told from each
reply, whether a retry is left, which snapshot is barred and what is shown;
`SyncVerdicts` lifts this to runs, up to exactly when an attempt publishes. `Manager` is the object
itself: it remembers its inputs, and each entry point keeps its state the one the
machine reaches by them, so the theorems hold of the object. A success may also be shown without counts, when a terminal failure
suppresses a publish and the success of the other rows is repeated
(enrichment_manager.py:702-708), so the claims are about successes that carry
counts.

**Mesh graph.** Selection of links under a budget (`MeshSelection`) and what the
links kept are best at (`MeshStrongest`), capped
greedy selection (`MeshMatching`), collapse of stored links (`MeshEvidence`),
assignment, weights and router seriation (`MeshSeriation`, `MeshOrdering`), which
routers it leaves over (`MeshLeftover`), and the layout: lists of placements and their geometry (`MeshGeometry`,
`MeshClusterMode`, `MeshCoverage`), the whole layout (`MeshLayout`), which cluster
layouts overlap (`MeshCellOverlap`), under which router an end device is drawn, told
from the edges (`MeshHomes`, `MeshUnder`), where routers, flagged devices and
coordinators stand (`MeshRows`), and the placers that write into one table of
positions (`MeshCanvas`).

**PNG structure checks.** Adam7 passes and scanlines (`PngPasses`), the chunk
language (`PngChunks`), the whole file (`PngFile`), and what a header says about the
size of the image data (`PngSizes`), after sections 2.3, 2.6, 3.2 and 6 of RFC 2083.

**Browser authentication.** Identity tuple and generations (`AuthState`), the
two stateful modules (`AuthRuntimeClass`), the retrying fetch
(`ProtectedFetch`), and the session protocol (`SessionProbes`,
`SessionSafety`, `SessionTheorems`), with its sign-outs (`SessionSignOut`), what is
shown as signed in (`SessionShown`), what failed probes leave behind
(`SessionOutage`), which probe each trigger starts and how sessions begin and end
(`SessionStarts`), and the object (`SessionProvider`), which
remembers what happened to it as `Manager` does.

**Contract validators.** Decision summaries (`DecisionSummary`) and snapshot
history: what is canonical (`SnapshotHistory`), the two validators as each is
written (`SnapshotCore`, `SnapshotUi`), and where they agree (`SnapshotValidators`).

## Where code and comments differ

- Router seriation says routers without evidence to the chain come last
  (meshGraphSmartLayout.ts:217-226); the code looks at the two ends of the chain
  only. `MeshLeftover.LeftoversUntiedExactly` says when it is so all the same: never
  wrong if no router joined to the seed has a third partner, and without rings of
  evidence only then. `MeshLeftover.InnerEvidenceIsIgnored` gives a star of four
  routers, `MeshLeftover.DroppedEvidence` what is dropped.
- The cluster layout says it assumes up to three satellite rows
  (meshGraphSmartLayout.ts:545); its cells hold four, that is eight members, and
  not nine. `MeshCellOverlap.EightIsTheBudget` is the exact bound for all layouts.
  For each, `MeshCellOverlap.ClusterModeExactly` has the condition, which is exact with
  nothing below the clusters and necessary otherwise; `MeshCellOverlap.ClusterModeClear`
  is a sufficient one for every layout.
- A neighbour entry is described as reported in both directions
  (meshEvidenceLive.ts:543-547) as soon as it is stored twice, in whichever
  direction. `MeshEvidence.CollapseNeighbours` states what the flag means.
- The list of forbidden PNG metadata types (validate-docs.py:280) refuses nothing
  the rule about ancillary chunks does not. `PngFile.TypeChecks`.
- Clamping the coordinator to the band (meshGraphSmartLayout.ts:393-398) never
  changes its place. `MeshLayout.ClampNeverBites`.

## What does not hold

- A page shown as signed in need not have somebody signed in. A sign-out clears the
  expiry timer; if its request fails after the session has run out, arming the timer
  anew locks the page, and the code then goes on to show it as signed in
  (BrowserAuthContext.tsx:221-230, 269-273). `SessionShown.HollowHappens` is such a
  run. Taking over a status can do the same (BrowserAuthContext.tsx:304-315), but the
  parser refuses an expiry already past (sessionStatus.ts:133-136), so only for a
  session that runs out between two readings of the clock.
  `SessionShown.HollowExactly` and `SessionShown.HollowOverRuns` are the exact
  condition, `SessionShown.OnlyReturnsHollow` what is left without the latter kind.
- The sign-out flag (BrowserAuthContext.tsx:706-714, 253, 765) does not keep two calls
  of `logout` apart by itself: a failed one gives it back before it returns. The
  buttons (AppShell.tsx:262-270, 302-310, SettingsPage.tsx:267-275), disabled until it
  has, do. `SessionSignOut.SignOutOwnsPage` for every run
  they allow, `SessionSignOut.EndReleasesExactly` and `SessionSignOut.WithoutTheGuard`
  for calls without them.
- A success shown with counts may be wrong if Core stored a publish whose reply was a
  failure. `SyncStored.SuccessCertainExactly` is the exact condition: the rows shown are
  certainly what Core stores if and only if every publish that failed since the last
  full one posted these very rows. `SyncLostCommit.LostCommitGoesUnnoticed` is a run.
- The UI refuses a document Core accepts exactly if an earlier snapshot without facts
  has an id that names an inherited property:
  `SnapshotValidators.UiAgreesWithCore` and `SnapshotValidators.InheritedIdDisagrees`.

## Assumptions

- `digest` stands for SHA-256 over the JSON of the rows and is injective where a
  theorem says so. `crc` and `inflate` stand for CRC-32 and zlib and may be any
  functions.
- `rank` stands for `localeCompare`: two texts compare as their ranks do, and
  texts that compare as equal have equal ranks. Different last-seen times compare as
  different, as timestamps do; where they did not, the source's comparator would tie
  without looking at the edge id (meshGraphDense.ts:329-330, 394-395). `valid` is the CSRF token grammar,
  `normalize` the address normalization of the UI.
- Device ids are unique, and hold no `|`, where a theorem says so: devices come
  from tables keyed by address, and addresses have no such character.
- Layout coordinates are exact numbers. All of them are halves except the
  coordinator's centre.
- The integer LQI values of the evidence are summed exactly.

## Model

| member | source | states |
|---|---|---|
| `EnrichmentTypes.NormalizeIeeeIdempotent` | apps/ha_integration/custom_components/zigbeelens/ha_enrichment.py:162-171 | a normalized address is canonical and normalizes to itself |
| `RegistryMeaning.NormalKeepsDigits` | apps/ha_integration/custom_components/zigbeelens/ha_enrichment.py:162-171 | normalizing keeps the sixteen digits of an address, after its prefix or with the colons left out |
| `RegistryReader.ExtractIeeeAddress` | apps/ha_integration/custom_components/zigbeelens/ha_enrichment.py:174-217 | the two loops decide by the distinct addresses found and whether any supported source was seen |
| `RegistryReader.ExactMeaning` | apps/ha_integration/custom_components/zigbeelens/ha_enrichment.py:181-217 | one address is extracted exactly when every address the device shows is that one, and it is canonical |
| `RegistryReader.ExtractPermuted` | apps/ha_integration/custom_components/zigbeelens/ha_enrichment.py:181-217 | the order of connections and identifiers does not matter |
| `RegistryReader.BuildRegistrySnapshot` | apps/ha_integration/custom_components/zigbeelens/ha_enrichment.py:255-320 | reads the devices in key order into one complete list, or makes the source unavailable |
| `RegistryReader.SnapshotMeaning` | apps/ha_integration/custom_components/zigbeelens/ha_enrichment.py:255-320 | a complete read is well-formed, and candidates plus ambiguous are exactly the devices showing an address source |
| `RegistryReader.SnapshotPermuted` | apps/ha_integration/custom_components/zigbeelens/ha_enrichment.py:255-320 | the order in which the registry lists devices does not matter when their keys differ |
| `RegistryMeaning.CandidateMeaning` | apps/ha_integration/custom_components/zigbeelens/ha_enrichment.py:220-310 | the fields of a candidate, from the device: the user's name before the original one, the device's own area or the only one of its entities if registered, the least entity id |
| `RegistryMeaning.ListedExactly` | apps/ha_integration/custom_components/zigbeelens/ha_enrichment.py:255-320 | a complete read lists exactly the candidates of the devices |
| `RegistryMeaning.ListedInOrder` | apps/ha_integration/custom_components/zigbeelens/ha_enrichment.py:314-320 | by address, then by device id |
| `RegistryMeaning.AvailableExactly` | apps/ha_integration/custom_components/zigbeelens/ha_enrichment.py:266-313 | a read is complete exactly if there are at most 20000 devices, each with one address has a usable id, and none of these is, in key order, past the 5000th that shows an address source |
| `RegistryReader.RegistryToCore` | apps/ha_integration/custom_components/zigbeelens/ha_enrichment.py:255-512 | from raw registries to Core: what is resolved from a complete read is passed on and accepted, and every addressed device is accounted for |
| `Resolver.IndexByIeee` | apps/ha_integration/custom_components/zigbeelens/ha_enrichment.py:366-368 | the address index lists, per address, exactly the inventory rows with it, in order |
| `Resolver.SelectIndexed` | apps/ha_integration/custom_components/zigbeelens/ha_enrichment.py:378-387 | the inline choice: the only row with the address, else the only one among several whose name is the candidate's original name |
| `Resolver.GroupCandidates` | apps/ha_integration/custom_components/zigbeelens/ha_enrichment.py:370-397 | groups hold exactly the claimants of each identity; the two counters count absent and undecided candidates |
| `Resolver.CountOwners` | apps/ha_integration/custom_components/zigbeelens/ha_enrichment.py:418-425 | owner counters say how many rows name each device and each representative entity |
| `Resolver.DropConflicts` | apps/ha_integration/custom_components/zigbeelens/ha_enrichment.py:418-433 | one pass keeps exactly the rows whose device and entity no other row names |
| `Resolver.Resolve` | apps/ha_integration/custom_components/zigbeelens/ha_enrichment.py:358-448 | the loops compute the declarative resolution: rows as a sequence and both counts |
| `ResolverProperties.OrderIndependent` | apps/ha_integration/custom_components/zigbeelens/ha_enrichment.py:358-448 | permuting candidates and inventory rows changes nothing in the result, row order included |
| `ResolverProperties.NamesAreNotEvidence` | apps/ha_integration/custom_components/zigbeelens/ha_enrichment.py:358-448 | erasing every Home Assistant device name erases just that field of the rows |
| `ResolverProperties.RenameBlind` | apps/ha_integration/custom_components/zigbeelens/ha_enrichment.py:358-448 | renaming devices changes no identity, no other field and no count |
| `ResolverProperties.Conservation` | apps/ha_integration/custom_components/zigbeelens/ha_enrichment.py:374-448 | submitted candidates are posted rows plus unmatched plus ambiguous, through grouping and conflict removal |
| `ResolverProperties.RowsUnique` | apps/ha_integration/custom_components/zigbeelens/ha_enrichment.py:418-433 | rows ascend strictly by identity, and no two share a device or an entity |
| `ResolverProperties.RowsMeaning` | apps/ha_integration/custom_components/zigbeelens/ha_enrichment.py:358-433 | a row is there exactly when one candidate claims its identity and no other sole claim names its device or entity |
| `ResolverMeaning.SelectMeaning` | apps/ha_integration/custom_components/zigbeelens/ha_enrichment.py:378-387 | told from the inventory alone, a candidate means a row exactly if it has the address and no other row has, or others have and it is the only one of them with the candidate's original name |
| `ResolverMeaning.SoleMeaning` | apps/ha_integration/custom_components/zigbeelens/ha_enrichment.py:389-397 | the rows before conflicts are dropped are those of candidates that mean their device alone |
| `ResolverMeaning.RowsExactly` | apps/ha_integration/custom_components/zigbeelens/ha_enrichment.py:358-433 | on that relation, with every field written out: which rows are posted, exactly |
| `ResolverMeaning.CountsExactly` | apps/ha_integration/custom_components/zigbeelens/ha_enrichment.py:374-448 | and both counts: candidates whose address is unknown; and those the registry could not address together with those of a known address that get no row |
| `CoreRequest.ParseInventory` | apps/ha_integration/custom_components/zigbeelens/ha_enrichment.py:323-355 | an accepted inventory is well-formed, sorted and free of repeated identities; anything else is refused |
| `CoreRequest.PayloadMeaning` | apps/ha_integration/custom_components/zigbeelens/ha_enrichment.py:488-512 | the builder's set-size comparisons are the three distinctness rules, and its result is the sorted rows |
| `CoreRequest.PayloadAccepted` | apps/ha_integration/custom_components/zigbeelens/ha_enrichment.py:451-512 | whatever the builder sends, Core accepts and keeps as sent |
| `CoreRequest.CheckOwners` | apps/core/src/zigbeelens/schemas.py:168-199 | Core's owner-map loop accepts exactly the requests whose identities, devices and present entities are each pairwise distinct |
| `CoreRequest.ValidateRequest` | apps/core/src/zigbeelens/schemas.py:105-199 | Core's request model stores the normalized rows exactly when fields, size and owners are in order |
| `CoreRequest.BuiltSnapshotAccepted` | apps/ha_integration/custom_components/zigbeelens/ha_enrichment.py:358-512 | for a well-formed registry and a parsed inventory neither the builder nor Core can raise on the resolved rows |
| `SyncOutcome.OutcomeExactlySelfConsistent` | apps/ha_integration/custom_components/zigbeelens/enrichment_manager.py:205-254 | for a conserved build the aggregate check succeeds exactly on self-consistent replies, the outcome balances, and it is fully converged exactly when Core kept every posted row |
| `SyncOutcome.MatchStateMeaning` | apps/ha_integration/custom_components/zigbeelens/enrichment_manager.py:183-203 | each match state says exactly what the balanced counts show |
| `SyncTheorems.SingleFlight` | apps/ha_integration/custom_components/zigbeelens/enrichment_manager.py:570-587 | at most one attempt is under way, and the lock is held exactly then |
| `SyncTheorems.NoLostRequest` | apps/ha_integration/custom_components/zigbeelens/enrichment_manager.py:456-587 | until stop, and while attempts return, every request has been followed by an attempt at least as strong or something leading to one exists |
| `SyncTheorems.IdleMeansServed` | apps/ha_integration/custom_components/zigbeelens/enrichment_manager.py:456-587 | with nothing scheduled, spawned or running, every request has been served |
| `SyncTheorems.NoStall` | apps/ha_integration/custom_components/zigbeelens/enrichment_manager.py:414-479 | after an attempt that asked for a retry, a timer, a spawned or a running reconcile exists until stop |
| `SyncTheorems.BackoffSchedule` | apps/ha_integration/custom_components/zigbeelens/enrichment_manager.py:801-818 | the k-th retry scheduled since the last full publish uses delay min(k, n-1) |
| `SyncTheorems.NoLeakedTimers` | apps/ha_integration/custom_components/zigbeelens/enrichment_manager.py:414-479 | there is at most one timer of each kind, always the one whose handle is kept, and none after stop |
| `SyncTheorems.StoppedForGood` | apps/ha_integration/custom_components/zigbeelens/enrichment_manager.py:414-479 | a stopped manager never gets another timer or spawned reconcile |
| `SyncProperties.StepSafe` | apps/ha_integration/custom_components/zigbeelens/enrichment_manager.py:385-818 | every step keeps the invariant of lock, pending flags, timers, spawned work and backoff ledger |
| `SyncProperties.RunSafe` | apps/ha_integration/custom_components/zigbeelens/enrichment_manager.py:385-818 | the invariant holds over every run |
| `SyncCache.NeverRaises` | apps/ha_integration/custom_components/zigbeelens/enrichment_manager.py:589-799 | with well-formed registries and parsed inventories no attempt raises |
| `SyncCache.CacheIsLastFullPublish` | apps/ha_integration/custom_components/zigbeelens/enrichment_manager.py:589-799 | fingerprint and result are set and cleared together, and are those of the last publish Core fully kept, exactly while no reply and no lost contract casts doubt on it; the book it is compared with notes replies and contract observations |
| `SyncCache.StepFaithful` | apps/ha_integration/custom_components/zigbeelens/enrichment_manager.py:589-799 | every step leaves cache, counts and waiting attempts fitting that book |
| `SyncCache.CacheHit` | apps/ha_integration/custom_components/zigbeelens/enrichment_manager.py:686-701 | a fingerprint that matches is that of the very rows just built, and the cached answer cannot raise |
| `SyncCache.CountsBalance` | apps/ha_integration/custom_components/zigbeelens/enrichment_manager.py:500-568 | diagnostics counts are absent together, or submitted = matched + unmatched + ambiguous and stored = matched with the fitting match state |
| `SyncTruth.SuccessIsTrue` | apps/ha_integration/custom_components/zigbeelens/enrichment_manager.py:500-799 | with one writer and failed publishes leaving Core alone, whenever the diagnostics show a success with counts, Core stores exactly the rows some settled attempt built, as many as counted, and neither has changed since |
| `SyncTruth.StepShows` | apps/ha_integration/custom_components/zigbeelens/enrichment_manager.py:589-799 | a step that ends with a success on display left it there or settled the snapshot it shows |
| `SyncTruth.DisplayIsTrusted` | apps/ha_integration/custom_components/zigbeelens/enrichment_manager.py:500-799 | over every run a success on display is that of the rows the book trusts, as many as counted, which some settled attempt built |
| `SyncStored.SuccessCertainExactly` | apps/ha_integration/custom_components/zigbeelens/enrichment_manager.py:686-799 | if failed publishes may have been stored, Core certainly stores the rows of a success on display exactly if every publish that failed since the last full one posted these rows |
| `SyncStored.TrustedCertainExactly` | apps/ha_integration/custom_components/zigbeelens/enrichment_manager.py:686-799 | the same for the rows the cache vouches for, on display or not |
| `SyncStored.StoredIsTrustedOrLost` | apps/ha_integration/custom_components/zigbeelens/enrichment_manager.py:710-799 | while rows are trusted Core stores these or rows whose publish failed since |
| `SyncStored.LostMayBeStored` | apps/ha_integration/custom_components/zigbeelens/enrichment_manager.py:710-799 | each of those may be what Core stores at the end of such a run |
| `SyncLostCommit.LostCommitGoesUnnoticed` | apps/ha_integration/custom_components/zigbeelens/enrichment_manager.py:686-728 | why that assumption is needed: in a run from the start Core stores a publish whose reply is lost, the registry goes back, and success is shown for the old rows while Core stores the new ones |
| `SyncLostCommit.LampIsLost` | apps/ha_integration/custom_components/zigbeelens/enrichment_manager.py:686-728 | such a run for one lamp: it is shown as stored while Core stores nothing |
| `SyncManager.Manager.CancelPendingRetry` | apps/ha_integration/custom_components/zigbeelens/enrichment_manager.py:801-805 | cancels the pending retry, if any, as the step machine does |
| `SyncManager.Manager.ScheduleNextRetry` | apps/ha_integration/custom_components/zigbeelens/enrichment_manager.py:807-814 | arms one retry with the next delay unless stopped, without delays or already armed |
| `SyncManager.Manager.SpawnReconcile` | apps/ha_integration/custom_components/zigbeelens/enrichment_manager.py:473-479 | spawns a reconcile unless stopped |
| `SyncManager.Manager.Report` | apps/ha_integration/custom_components/zigbeelens/enrichment_manager.py:500-568 | replaces the diagnostics, keeping the time of the last success unless a new one is given, and notifies exactly if observed, running and changed; with a balanced outcome or none, the counts shown balance |
| `SyncManager.Manager.ContractLost` | apps/ha_integration/custom_components/zigbeelens/enrichment_manager.py:590-617 | losing the contract forgets cache and terminal failure, and retries only when unavailable |
| `SyncManager.Manager.Begin` | apps/ha_integration/custom_components/zigbeelens/enrichment_manager.py:589-629 | an attempt up to its first wait |
| `SyncManager.Manager.HandleInventory` | apps/ha_integration/custom_components/zigbeelens/enrichment_manager.py:629-712 | from the inventory reply to the publish wait, in every branch; a failure leaves a retry exactly if it is one to be tried again |
| `SyncManager.Manager.UseBuild` | apps/ha_integration/custom_components/zigbeelens/enrichment_manager.py:678-712 | cache hit, doubtful cache, terminal failure or publish |
| `SyncManager.Manager.RepeatFailureOrPublish` | apps/ha_integration/custom_components/zigbeelens/enrichment_manager.py:702-713 | a known terminal failure is shown again, anything else is published |
| `SyncManager.Manager.HandlePublish` | apps/ha_integration/custom_components/zigbeelens/enrichment_manager.py:710-799 | from the publish reply to the end of the attempt, in every branch; told from the reply whether a retry is left and which snapshot is barred |
| `SyncManager.Manager.RefusedPublish` | apps/ha_integration/custom_components/zigbeelens/enrichment_manager.py:736-751 | status 429 leaves a retry and bars nothing, any other refusal bars the snapshot and leaves no retry |
| `SyncManager.Manager.TakeResult` | apps/ha_integration/custom_components/zigbeelens/enrichment_manager.py:763-799 | an inconsistent, a partial and a full result |
| `SyncManager.Manager.AsyncReconcile` | apps/ha_integration/custom_components/zigbeelens/enrichment_manager.py:570-587 | coalesces while the lock is held, else starts the loop |
| `SyncManager.Manager.ContinueLoop` | apps/ha_integration/custom_components/zigbeelens/enrichment_manager.py:579-587 | after an attempt: another turn with the pending force, or the release of the lock |
| `SyncManager.Manager.AsyncStart` | apps/ha_integration/custom_components/zigbeelens/enrichment_manager.py:385-412 | registers owners once and starts the first reconcile, reaching the state of the run so far with this input |
| `SyncManager.Manager.AsyncStop` | apps/ha_integration/custom_components/zigbeelens/enrichment_manager.py:414-441 | cancels every timer and task and stays stopped |
| `SyncManager.Manager.AsyncRequestSync` | apps/ha_integration/custom_components/zigbeelens/enrichment_manager.py:455-466 | drops the retry and restarts the debounce timer |
| `SyncManager.Manager.RunDebounced` | apps/ha_integration/custom_components/zigbeelens/enrichment_manager.py:468-471 | the debounce timer spawns a reconcile |
| `SyncManager.Manager.RunRetry` | apps/ha_integration/custom_components/zigbeelens/enrichment_manager.py:815-818 | the retry timer spawns a forced reconcile |
| `SyncManager.Manager.RunSpawned` | apps/ha_integration/custom_components/zigbeelens/enrichment_manager.py:473-479 | a spawned task runs its reconcile |
| `SyncManager.Manager.HandlePeriodicReconciliation` | apps/ha_integration/custom_components/zigbeelens/enrichment_manager.py:449-453 | the periodic timer spawns a forced reconcile |
| `SyncManager.Manager.ResumeInventory` | apps/ha_integration/custom_components/zigbeelens/enrichment_manager.py:589-712 | an attempt resumed by its inventory reply, and the loop after it |
| `SyncManager.Manager.ResumePublish` | apps/ha_integration/custom_components/zigbeelens/enrichment_manager.py:710-799 | an attempt resumed by its publish reply, and the loop after it |
| `SyncManager.ManagerKeepsOrder` | apps/ha_integration/custom_components/zigbeelens/enrichment_manager.py:405-479 | whatever has happened to a manager object, it runs one attempt at a time, holds a handle on every timer and is silent once stopped |
| `SyncManager.IdleManagerOwesNothing` | apps/ha_integration/custom_components/zigbeelens/enrichment_manager.py:570-587 | a manager object with nothing under way has served every request and owes no retry |
| `SyncManager.ManagerCacheIsTrusted` | apps/ha_integration/custom_components/zigbeelens/enrichment_manager.py:589-799 | the cache of a manager object is that of the last publish Core fully kept, and its counts balance |
| `SyncReplies.PublishLeaves` | apps/ha_integration/custom_components/zigbeelens/enrichment_manager.py:710-799 | told from the reply: a publish is tried again after a lost connection, a server failure, status 429 or a partial acceptance; any other refusal and any incredible reply bars the snapshot, a credible one lifts the bar; and what is shown |
| `SyncReplies.InventoryLeaves` | apps/ha_integration/custom_components/zigbeelens/enrichment_manager.py:630-676 | the same for a failed inventory request: all but lost authorization and refusals other than 429 are tried again |
| `SyncReplies.InventoryOkLeaves` | apps/ha_integration/custom_components/zigbeelens/enrichment_manager.py:677-713 | an inventory that arrives leaves a pending retry and a barred snapshot as they are |
| `SyncReplies.BeginLeaves` | apps/ha_integration/custom_components/zigbeelens/enrichment_manager.py:590-629 | a lost contract lifts the bar and is tried again only if unavailable; an incomplete registry is tried again |
| `SyncVerdicts.PublishSettles` | apps/ha_integration/custom_components/zigbeelens/enrichment_manager.py:579-799 | over runs: after a reply to a publish a retry is pending exactly if the reply calls for one, or the attempt that began at once met an unavailable contract or registry; and what is shown |
| `SyncVerdicts.InventorySettles` | apps/ha_integration/custom_components/zigbeelens/enrichment_manager.py:579-713 | over runs, the same after an inventory reply |
| `SyncVerdicts.TerminalIsBarred` | apps/ha_integration/custom_components/zigbeelens/enrichment_manager.py:589-799 | over runs the terminal fingerprint is that of the rows the replies bar, and none without such rows |
| `SyncVerdicts.PublishesExactly` | apps/ha_integration/custom_components/zigbeelens/enrichment_manager.py:677-713 | over runs an attempt publishes the rows it resolved exactly if it is forced, or these are neither known to be stored nor barred |
| `SyncVerdicts.RefusedIsNotSentAgain` | apps/ha_integration/custom_components/zigbeelens/enrichment_manager.py:702-751 | after a final refusal no unforced attempt for the same rows publishes until Core takes a snapshot, refuses another, or the contract is found lost |
| `SyncVerdicts.LastSuccessIsLastPush` | apps/ha_integration/custom_components/zigbeelens/enrichment_manager.py:500-568 | over runs the time of the last success shown is that of the last reply that Core took a snapshot |
| `SyncVerdicts.PeriodicWhileStarted` | apps/ha_integration/custom_components/zigbeelens/enrichment_manager.py:385-441 | over runs periodic reconciliation ticks exactly while the manager is started and not stopped |
| `SyncVerdicts.RequestRestartsDebounce` | apps/ha_integration/custom_components/zigbeelens/enrichment_manager.py:456-466 | over runs a request gives up the retry for one fresh debounce timer |
| `SyncVerdicts.TimersSpawn` | apps/ha_integration/custom_components/zigbeelens/enrichment_manager.py:449-479 | over runs the debounce timer leads to an attempt that is not forced, the retry and periodic timers to forced ones |
| `SyncVerdicts.TaskAttempts` | apps/ha_integration/custom_components/zigbeelens/enrichment_manager.py:570-587 | over runs a task's attempt has the task's force, or passes it on to the attempt under way |
| `SyncManager.ManagerBarsRefused` | apps/ha_integration/custom_components/zigbeelens/enrichment_manager.py:702-751 | the snapshot a manager object will not send again is the one its replies bar |
| `SyncManager.ManagerRetriesExactly` | apps/ha_integration/custom_components/zigbeelens/enrichment_manager.py:710-818 | a manager object with delays that has just got a reply to a publish has a retry pending exactly if the reply calls for one |
| `SyncManager.ManagerShowsLastPush` | apps/ha_integration/custom_components/zigbeelens/enrichment_manager.py:385-568 | the last success a manager object shows is the last push Core took, and its periodic timer runs exactly while it does |
| `MeshSelection.SelectBestNeighbourLinks` | apps/ui/src/lib/meshGraphDense.ts:204-233 | selects exactly the eligible links among the n strongest of one of their ends |
| `MeshSelection.BestGrows` | apps/ui/src/lib/meshGraphDense.ts:204-233 | a larger allowance selects no less |
| `MeshSelection.SelectAdaptive` | apps/ui/src/lib/meshGraphDense.ts:255-270 | the downward search returns the largest allowance of 1..4 that fits the budget |
| `MeshSelection.BudgetAlwaysFits` | apps/ui/src/lib/meshGraphDense.ts:255-270 | when every end is a device, one link per device always fits, so the fallback is never taken |
| `MeshSelection.CollectRouteCoveredPairs` | apps/ui/src/lib/meshGraphDense.ts:181-188 | collects exactly the pairs joined by a latest route |
| `MeshSelection.NobodyStranded` | apps/ui/src/lib/meshGraphDense.ts:429-494 | with route hints and best links on, every device touching a latest neighbour or route edge touches a visible edge |
| `MeshSelection.BestPermuted` | apps/ui/src/lib/meshGraphDense.ts:204-233 | the selection does not depend on the order of the edges |
| `MeshStrongest.LeftOutIsBeaten` | apps/ui/src/lib/meshGraphDense.ts:204-233 | a link is left out only if at each end as many links as are allowed are chosen, none of lower recorded LQI |
| `MeshStrongest.StrongestIsKept` | apps/ui/src/lib/meshGraphDense.ts:204-233 | so with an allowance each device keeps a link of its highest recorded LQI |
| `MeshStrongest.ChosenIsStrong` | apps/ui/src/lib/meshGraphDense.ts:204-233 | and a chosen link has fewer stronger ones than allowed at one of its ends |
| `MeshStrongest.SelectionReveals` | apps/ui/src/lib/meshGraphDense.ts:429-494 | everything at the selected device is visible |
| `MeshStrongest.OneLinePerPair` | apps/ui/src/lib/meshGraphDense.ts:429-494 | while route hints stand for their pairs, no ordinary neighbour line is drawn beside a drawn route |
| `MeshStrongest.AllOff` | apps/ui/src/lib/meshGraphDense.ts:429-494 | with every control off exactly what is selected or marked as an issue is drawn |
| `MeshStrongest.MoreControlsDrawMore` | apps/ui/src/lib/meshGraphDense.ts:429-494 | switching a control on hides nothing but neighbour lines that a drawn route stands for |
| `MeshMatching.TakeCapped` | apps/ui/src/lib/meshGraphDense.ts:303-345 | the capped loop keeps exactly the greedy choice and counts its degrees |
| `MeshMatching.GreedyWithinCaps` | apps/ui/src/lib/meshGraphDense.ts:303-345 | the choice respects the total and the per-node cap |
| `MeshMatching.Maximal` | apps/ui/src/lib/meshGraphDense.ts:303-345 | below the total cap every edge left out has a saturated end |
| `MeshMatching.LeftOutByEarlier` | apps/ui/src/lib/meshGraphDense.ts:303-345 | an edge is left out only because of edges before it |
| `MeshMatching.GreedyAtLeastHalf` | apps/ui/src/lib/meshGraphDense.ts:303-345 | below the total cap the choice is at least half as large as any choice of candidates within the per-node cap alone |
| `MeshMatching.HalfWithinCaps` | apps/ui/src/lib/meshGraphDense.ts:303-345 | at or below the total cap it is at least half as large as any choice within both caps |
| `MeshMatching.DroppedOnlyForPeers` | apps/ui/src/lib/meshGraphDense.ts:303-345 | when one kind comes first, its edges are dropped only for their own kind |
| `MeshMatching.SelectRecentMissing` | apps/ui/src/lib/meshGraphDense.ts:303-345 | the recent-missing selection is the greedy choice in relevance order |
| `MeshMatching.RelevantDroppedOnlyForRelevant` | apps/ui/src/lib/meshGraphDense.ts:287-345 | a relevant recent-missing edge is dropped only for caps filled by relevant edges |
| `MeshMatching.SelectPassiveHints` | apps/ui/src/lib/meshGraphDense.ts:367-410 | the passive-hint selection is the greedy choice in hint order |
| `MeshMatching.SelectedDroppedOnlyForSelected` | apps/ui/src/lib/meshGraphDense.ts:367-410 | a hint at the selected device is dropped only for hints at that device |
| `MeshMatching.LeftOutIsOlder` | apps/ui/src/lib/meshGraphDense.ts:287-345 | a recent-missing edge is left out only for chosen ones that go before it: relevant first, then at least as recent |
| `MeshMatching.LeftOutIsWeaker` | apps/ui/src/lib/meshGraphDense.ts:367-410 | a hint is left out only for chosen ones that go before it: selected, with an issue, at least as sure, at least as recent |
| `MeshEvidence.CollapseNeighbours` | apps/ui/src/lib/meshEvidenceLive.ts:514-532 | entries of one pair collapse to the first with a recorded LQI, else the first, and remember whether there were several |
| `MeshEvidence.ShownMeaning` | apps/ui/src/lib/meshEvidenceLive.ts:523-531 | the entry shown is one of the pair's, with an LQI whenever one was recorded |
| `MeshEvidence.EdgeShowsFirst` | apps/ui/src/lib/meshEvidenceLive.ts:514-575 | a pair's edge has the LQI of its first entry that recorded one, and none if none did |
| `MeshEvidence.BuildEdges` | apps/ui/src/lib/meshEvidenceLive.ts:534-646 | one edge per pair, one per route entry, then the stored others |
| `MeshEvidence.OneEdgePerPair` | apps/ui/src/lib/meshEvidenceLive.ts:514-575 | each usable entry's pair has exactly one neighbour edge, between its two devices |
| `MeshEvidence.CollectDeviceIds` | apps/ui/src/lib/meshEvidenceLive.ts:654-658 | the devices are inventory, nodes and edge ends, each once |
| `MeshEvidence.CollectedDevicesFitBudget` | apps/ui/src/lib/meshEvidenceLive.ts:654-658 | on these devices one link per device fits the link budget |
| `MeshSeriation.AssignEndDevices` | apps/ui/src/lib/meshGraphSmartLayout.ts:126-158 | each end device with router evidence gets its strongest claim: recorded LQI first and highest, then the smallest id |
| `MeshSeriation.BetterOrder` | apps/ui/src/lib/meshGraphSmartLayout.ts:144-151 | the comparison is a strict total order on claims |
| `MeshSeriation.AssignmentPermuted` | apps/ui/src/lib/meshGraphSmartLayout.ts:126-158 | the assignment does not depend on the order of the edges |
| `MeshSeriation.EvidencePairWeights` | apps/ui/src/lib/meshGraphSmartLayout.ts:195-215 | the weight table holds exactly the pair sums, keys in first-seen order |
| `MeshSeriation.PairWeightPermuted` | apps/ui/src/lib/meshGraphSmartLayout.ts:195-215 | pair sums do not depend on the order of the edges |
| `MeshSeriation.WeightMeaning` | apps/ui/src/lib/meshGraphSmartLayout.ts:195-215 | a pair weighs its recorded LQI, 60 where none is recorded, and 400 more for every route |
| `MeshSeriation.DeviceTotals` | apps/ui/src/lib/meshGraphSmartLayout.ts:239-244 | summing the table by split keys gives each device the evidence it takes part in |
| `MeshSeriation.SplitJoined` | apps/ui/src/lib/meshGraphSmartLayout.ts:239-241 | splitting a pair key at its separator gives the two ids back |
| `MeshOrdering.ScanChooses` | apps/ui/src/lib/meshGraphSmartLayout.ts:257-273 | the inner loops find the strongest positive link to an end of the chain: heaviest, then smallest id, then the tail |
| `MeshOrdering.FindLink` | apps/ui/src/lib/meshGraphSmartLayout.ts:257-273 | the scan over the weight table is that choice |
| `MeshOrdering.GrowConserves` | apps/ui/src/lib/meshGraphSmartLayout.ts:252-278 | growing the chain ends, and loses or repeats no router |
| `MeshOrdering.ChainFollowsEvidence` | apps/ui/src/lib/meshGraphSmartLayout.ts:227-289 | chain neighbours are tied by evidence, and what is left has none to either end |
| `MeshLeftover.LeftoversUntiedExactly` | apps/ui/src/lib/meshGraphSmartLayout.ts:217-289 | routers after the chain have no evidence to it exactly if the chain holds all that evidence joins to its seed; so whenever none of these has a third partner, and without rings of evidence only then |
| `MeshLeftover.DroppedEvidence` | apps/ui/src/lib/meshGraphSmartLayout.ts:256-289 | evidence is dropped only of a router inside the chain, to at least a third partner, and it is not stronger than to both chain neighbours |
| `MeshLeftover.InnerEvidenceIsIgnored` | apps/ui/src/lib/meshGraphSmartLayout.ts:217-289 | in a star of four routers, however ids compare, a router after the chain has evidence to it, unlike the comment says |
| `MeshOrdering.OrderRouters` | apps/ui/src/lib/meshGraphSmartLayout.ts:227-289 | the algorithm computes the specified order |
| `MeshOrdering.OrderingIsPermutation` | apps/ui/src/lib/meshGraphSmartLayout.ts:227-289 | the order is a permutation of the routers |
| `MeshOrdering.OrderingPermuted` | apps/ui/src/lib/meshGraphSmartLayout.ts:227-289 | the order depends on which routers and edges there are, not on how they are listed |
| `MeshOrdering.OrderingSame` | apps/ui/src/lib/meshGraphSmartLayout.ts:227-289 | for one list of routers the order of the edges never matters, whatever ids and names are |
| `MeshOrdering.SeedIsHub` | apps/ui/src/lib/meshGraphSmartLayout.ts:236-250 | the chain starts from a router with as much evidence as any, the first by id among equals |
| `MeshGeometry.GridLaidOut` | apps/ui/src/lib/meshGraphSmartLayout.ts:318-339 | grid nodes are apart and inside the rows and columns the caller reserves |
| `MeshGeometry.ColumnLaidOut` | apps/ui/src/lib/meshGraphSmartLayout.ts:474-491 | a router and its satellites are apart and inside the cluster's width |
| `MeshGeometry.RowLaidOut` | apps/ui/src/lib/meshGraphSmartLayout.ts:470-493 | the clusters of a row are apart, for any column rule |
| `MeshGeometry.BandsLaidOut` | apps/ui/src/lib/meshGraphSmartLayout.ts:457-494 | stacked rows are apart, each below the one before |
| `MeshGeometry.HierarchyApart` | apps/ui/src/lib/meshGraphSmartLayout.ts:441-520 | no two boxes of a hierarchy overlap, for any groups, any coordinator position, any column rule and any row length |
| `MeshGeometry.AttentionApart` | apps/ui/src/lib/meshGraphSmartLayout.ts:579-605 | moving flagged devices into the attention band keeps all boxes apart |
| `MeshGeometry.CeilSqrt` | apps/ui/src/lib/meshGraphSmartLayout.ts:505-517 | the least whole number whose square reaches n |
| `MeshClusterMode.ClusterModeApart` | apps/ui/src/lib/meshGraphSmartLayout.ts:523-571 | with at most eight members per router no two boxes of the cluster layout overlap |
| `MeshCellOverlap.ClusterModeExactly` | apps/ui/src/lib/meshGraphSmartLayout.ts:523-571 | a cluster layout without overlap has nobody with a ninth member above another router; with nothing below the clusters this is exactly the condition |
| `MeshCellOverlap.CellsApartExactly` | apps/ui/src/lib/meshGraphSmartLayout.ts:537-552 | cells keep apart exactly if no cluster with a ninth member has a router straight below, however large the others are |
| `MeshCellOverlap.ClusterModeClear` | apps/ui/src/lib/meshGraphSmartLayout.ts:523-571 | whatever stands below, a layout with that condition and clusters of at most ten members per row of cells left is clear |
| `MeshCellOverlap.ClusterLayoutExactly` | apps/ui/src/lib/meshGraphSmartLayout.ts:523-662 | both for the layout of given devices and edges |
| `MeshCellOverlap.NineMembersOverlap` | apps/ui/src/lib/meshGraphSmartLayout.ts:537-552 | of four routers the first with nine members overlaps the fourth |
| `MeshCellOverlap.EightIsTheBudget` | apps/ui/src/lib/meshGraphSmartLayout.ts:545-551 | a bound on cluster sizes keeps every cluster layout clear exactly when it is at most eight |
| `MeshCoverage.RowsCover` | apps/ui/src/lib/meshGraphSmartLayout.ts:457-466 | the rows, serpentine or not, hold every cluster |
| `MeshCoverage.ShowsHierarchy` | apps/ui/src/lib/meshGraphSmartLayout.ts:441-520 | the hierarchy places exactly what its groups hold |
| `MeshCoverage.ShowsClusterMode` | apps/ui/src/lib/meshGraphSmartLayout.ts:523-571 | so does the cluster layout |
| `MeshLayout.AssignedBest` | apps/ui/src/lib/meshGraphSmartLayout.ts:126-158 | the fold over the edges gives the best claims |
| `MeshHomes.BestIsStrongest` | apps/ui/src/lib/meshGraphSmartLayout.ts:126-158 | the strongest claim is by the highest recorded LQI, the first id among equals |
| `MeshHomes.MembersExactly` | apps/ui/src/lib/meshGraphSmartLayout.ts:346-388 | the members of a cluster are exactly the end devices whose strongest claim names its router, or names a coordinator and its router is the first listed |
| `MeshHomes.UnassignedExactly` | apps/ui/src/lib/meshGraphSmartLayout.ts:346-388 | unassigned are exactly the end devices under no router |
| `MeshHomes.ClaimDecides` | apps/ui/src/lib/meshGraphSmartLayout.ts:346-388 | told by the strongest claim: the router's cluster and no other; a coordinator's, the first listed router's; nowhere without routers or by an empty id |
| `MeshHomes.UnclaimedIsUnassigned` | apps/ui/src/lib/meshGraphSmartLayout.ts:346-388 | without evidence to a router or coordinator an end device is unassigned |
| `MeshHomes.GroupsSorted` | apps/ui/src/lib/meshGraphSmartLayout.ts:304-316 | members and unassigned stand in name order, coordinators and limited devices by neighbour degree |
| `MeshHomes.RestInOrder` | apps/ui/src/lib/meshGraphSmartLayout.ts:227-300 | two routers stand in id order; of more, those after the chain in name order |
| `MeshUnder.InOneGroup` | apps/ui/src/lib/meshGraphSmartLayout.ts:346-388 | each device is in one group, and there once |
| `MeshUnder.MemberPoint` | apps/ui/src/lib/meshGraphSmartLayout.ts:441-571 | in every mode member i of a cluster stands at point i of a grid centred below its router |
| `MeshUnder.DrawnUnderRouter` | apps/ui/src/lib/meshGraphSmartLayout.ts:346-662 | in every mode an end device is drawn below the router its evidence puts it under, within its columns; flagged ones of the health mode aside |
| `MeshRows.RoutersInRows` | apps/ui/src/lib/meshGraphSmartLayout.ts:457-494 | routers stand in evidence order, six or ten to a row, every other row turned round, each row below the one before |
| `MeshRows.AttentionExactly` | apps/ui/src/lib/meshGraphSmartLayout.ts:579-605 | the health mode draws above everything else exactly the flagged devices, coordinators aside |
| `MeshRows.CoordinatorsAmongRouters` | apps/ui/src/lib/meshGraphSmartLayout.ts:400-433 | the coordinators' row is centred between the middles of two routers, on the router if they are tied to one place only, at 0 without evidence |
| `MeshLayout.ClampNeverBites` | apps/ui/src/lib/meshGraphSmartLayout.ts:400-433 | the weighted mean lies between the outermost routers by itself, so clamping it changes nothing |
| `MeshLayout.GroupsHold` | apps/ui/src/lib/meshGraphSmartLayout.ts:89-111 | classification, assignment and clustering together keep every device and add none |
| `MeshLayout.EveryDevicePlaced` | apps/ui/src/lib/meshGraphSmartLayout.ts:616-662 | every mode places exactly the devices, so the safety net never fires |
| `MeshLayout.LayoutNeverOverlaps` | apps/ui/src/lib/meshGraphSmartLayout.ts:616-662 | no two boxes overlap in any mode, given at most eight members per router in the cluster mode |
| `MeshLayout.LayoutPermuted` | apps/ui/src/lib/meshGraphSmartLayout.ts:616-662 | listing the edges in another order draws the same picture |
| `MeshCanvas.NeighbourDegrees` | apps/ui/src/lib/meshGraphSmartLayout.ts:161-169 | the table counts, per device, the latest neighbour edges it is an end of |
| `MeshCanvas.StableSort` | apps/ui/src/lib/meshGraphSmartLayout.ts:304-315 | sorts by degree, then name, then id |
| `MeshCanvas.ClassifyDevices` | apps/ui/src/lib/meshGraphSmartLayout.ts:89-111 | the four lists are the devices of each role in listed order |
| `MeshCanvas.BuildClusters` | apps/ui/src/lib/meshGraphSmartLayout.ts:346-388 | clusters in band order with exactly the end devices whose home they are; the rest unassigned |
| `MeshCanvas.SplitRows` | apps/ui/src/lib/meshGraphSmartLayout.ts:457-466 | chunks of clusters with every other one reversed |
| `MeshCanvas.Canvas.PlaceGrid` | apps/ui/src/lib/meshGraphSmartLayout.ts:318-339 | writes exactly the centred grid and returns its bottom |
| `MeshCanvas.Canvas.PlaceRow` | apps/ui/src/lib/meshGraphSmartLayout.ts:470-493 | writes one row of clusters from a running cursor and returns its bottom |
| `MeshCanvas.Canvas.PlaceBands` | apps/ui/src/lib/meshGraphSmartLayout.ts:457-494 | writes all rows and returns where the next band would start |
| `MeshCanvas.Canvas.CoordinatorBarycenterX` | apps/ui/src/lib/meshGraphSmartLayout.ts:400-433 | computes the specified centre from the table of positions |
| `MeshCanvas.Canvas.PlaceHierarchy` | apps/ui/src/lib/meshGraphSmartLayout.ts:441-520 | writes exactly the hierarchy's placements |
| `MeshCanvas.Canvas.PlaceClusters` | apps/ui/src/lib/meshGraphSmartLayout.ts:523-571 | writes exactly the cluster layout's placements |
| `MeshCanvas.Canvas.PlaceAttention` | apps/ui/src/lib/meshGraphSmartLayout.ts:593-605 | writes exactly the attention band |
| `MeshCanvas.Canvas.PlaceStrays` | apps/ui/src/lib/meshGraphSmartLayout.ts:650-660 | gives a position to exactly the devices without one |
| `MeshCanvas.ComputeMeshLayout` | apps/ui/src/lib/meshGraphSmartLayout.ts:616-662 | computes the specified layout in all five modes |
| `PngPasses.ExactlyOnePass` | scripts/validate-docs.py:294-302 | every pixel lies in exactly one Adam7 pass |
| `PngPasses.ExtentMeaning` | scripts/validate-docs.py:346-353 | a pass extent counts exactly the positions inside the image |
| `PngPasses.CellsArePixels` | scripts/validate-docs.py:338-355 | the cells of a pass are its pixels, one to one |
| `PngPasses.PngPasses` | scripts/validate-docs.py:338-355 | lists the non-empty passes in order |
| `PngPasses.PassesCoverImage` | scripts/validate-docs.py:338-355 | interlaced or not, the pass areas add up to width times height |
| `PngPasses.StartsInside` | scripts/validate-docs.py:370-416 | filter bytes stand inside the decoded data, in increasing order |
| `PngPasses.WalkScanlines` | scripts/validate-docs.py:408-416 | accepts exactly data whose filter bytes are 0 to 4, reads only inside it and ends at its end |
| `PngPasses.ValidateScanlines` | scripts/validate-docs.py:358-416 | accepts exactly streams that inflate to the expected size within the limit, whole, with known filters |
| `PngSizes.ChannelsMeaning` | scripts/validate-docs.py:286-286 | the colour types accepted are the five that exist, and the table counts the samples their palette, colour and alpha flags call for |
| `PngSizes.DepthsMeaning` | scripts/validate-docs.py:287-293 | depths are powers of two up to 16; an index has at most 8 bits, one of several samples at least 8 |
| `PngSizes.LinesMeaning` | scripts/validate-docs.py:367-383 | a line of each pass is the least number of bytes that holds the samples of its pixels, and there are as many as the pass is high |
| `PngSizes.HeaderRoundTrip` | scripts/validate-docs.py:512-516 | reading a header gives what was written, and every 13 bytes are one header |
| `PngChunks.Be32RoundTrip` | scripts/validate-docs.py:435-447 | big-endian numbers decode to what was encoded |
| `PngChunks.HeadMeaning` | scripts/validate-docs.py:432-474 | an accepted chunk is the encoding of what was read |
| `PngChunks.ReadSerialized` | scripts/validate-docs.py:429-477 | reading what was written gives the chunks back |
| `PngChunks.ReadsExactlySerializations` | scripts/validate-docs.py:429-477 | the reader accepts exactly the serializations of framed chunk lists |
| `PngFile.TypeChecks` | scripts/validate-docs.py:453-474 | the three type checks together let through exactly the five known types |
| `PngFile.ReadChunk` | scripts/validate-docs.py:434-477 | one turn of the loop reads the chunk at the offset or refuses |
| `PngFile.ReadChunks` | scripts/validate-docs.py:426-477 | the loop ends, consumes the whole payload and computes the reader |
| `PngFile.ConsecutiveMeaning` | scripts/validate-docs.py:506-510 | the index comparison says that image data chunks stand together |
| `PngFile.OrderLanguage` | scripts/validate-docs.py:479-510 | the order checks accept exactly: header, optional rendering intent, optional palette, one or more data chunks, end |
| `PngFile.CheckImage` | scripts/validate-docs.py:512-552 | header, palette and image data checks |
| `PngFile.ParsePng` | scripts/validate-docs.py:419-555 | an image is returned exactly for files that encode a sound chunk list, with that list's size and types |
| `PngSizes.AcceptedInflatesExactly` | scripts/validate-docs.py:358-555 | the image data of an accepted file inflates to exactly the lines and filter bytes of its passes; without interlacing that is the height times one more than the bytes of a line |
| `PngSizes.ImageDataMeaning` | scripts/validate-docs.py:541-544 | the image data are the pieces of the image chunks in order, and of no others |
| `AuthState.GenerationsCountChanges` | apps/ui/src/lib/authRuntime.ts:119-201 | over every run the identity generation counts exactly the identity changes, and each also advances access |
| `AuthState.SameAccessMeansQuiet` | apps/ui/src/lib/authRuntime.ts:119-201 | an access generation seen unchanged was unchanged throughout, and so was the identity |
| `AuthState.AtMostOneAnnouncement` | apps/ui/src/lib/authRuntime.ts:224-240 | one access generation announces a lost session at most once unless the mark is released |
| `AuthState.WakesAreSpaced` | apps/ui/src/lib/authRuntime.ts:242-250 | under one access generation revalidation is announced at most once in 750 ms |
| `AuthState.RevisionNamesToken` | apps/ui/src/lib/sessionTransport.ts:38-63 | an unchanged credential revision means an unchanged token |
| `AuthRuntimeClass.AuthRuntime.Become` | apps/ui/src/lib/authRuntime.ts:119-173 | takes on a new identity; an equal tuple changes nothing |
| `AuthRuntimeClass.AuthRuntime.Clear` | apps/ui/src/lib/authRuntime.ts:175-189 | clears the identity, with the early return that ignores the expiry |
| `AuthRuntimeClass.AuthRuntime.AdvanceAccessGeneration` | apps/ui/src/lib/authRuntime.ts:196-201 | advances access without touching the identity |
| `AuthRuntimeClass.AuthRuntime.NotifyUnauthorized` | apps/ui/src/lib/authRuntime.ts:225-231 | announces once per access generation |
| `AuthRuntimeClass.AuthRuntime.NotifyRevalidate` | apps/ui/src/lib/authRuntime.ts:243-250 | debounces by 750 ms |
| `AuthRuntimeClass.SessionTransport.InstallCredentials` | apps/ui/src/lib/sessionTransport.ts:38-52 | installs a valid new token and advances the revision |
| `AuthRuntimeClass.SessionTransport.ClearCredentials` | apps/ui/src/lib/sessionTransport.ts:55-63 | clears the token and advances the revision if there was one |
| `AuthRuntimeClass.SessionTransport.StartCredentialedFetch` | apps/ui/src/lib/sessionTransport.ts:94-152 | a guarded unsafe request of a session goes out with the current valid token or not at all; no other request carries it |
| `ProtectedFetch.CoreFetch` | apps/ui/src/lib/api.ts:207-280 | one request: checks after every wait, refusals, and which failures may be tried again |
| `ProtectedFetch.FetchJsonOnce` | apps/ui/src/lib/api.ts:282-326 | a value is returned only if parsed and, when guarded, in the generation it started in |
| `ProtectedFetch.FetchJson` | apps/ui/src/lib/api.ts:328-370 | a guarded value means generation and identity were constant from start to last check over all retries; on a page where the generation stays, a protected idempotent call is tried again exactly after transient failures, up to four times, and ends with what its last try comes to: the k-th try's value if all before failed transiently; any other call is sent once |
| `ProtectedFetch.TransientMeaning` | apps/ui/src/lib/api.ts:90-280 | which failures are transient: none to reach Core and those with a retryable status, authentication and stale calls excepted |
| `SessionTheorems.ProbesApplyInOrder` | apps/ui/src/context/BrowserAuthContext.tsx:161-195 | over every run outcomes apply in issue order, none twice, each while newest, background ones under an unchanged identity, and during sign-out only the sign-out's own |
| `SessionTheorems.BackgroundNeverSupersedes` | apps/ui/src/context/BrowserAuthContext.tsx:344-354 | a background probe never supersedes one that owns a transition |
| `SessionTheorems.TransitionKeepsOwner` | apps/ui/src/context/BrowserAuthContext.tsx:344-572 | in every reachable state the background triggers, and the token refresh after a sign-out, leave an open transition's probe alone |
| `SessionTheorems.StaleProbesStaySilent` | apps/ui/src/context/BrowserAuthContext.tsx:161-195 | with no active probe, everything applied later was started later |
| `SessionTheorems.LockLeavesNothing` | apps/ui/src/context/BrowserAuthContext.tsx:197-219 | locking leaves nobody signed in, no token, a newer access generation and nothing in flight that could act |
| `SessionTheorems.SignOutHidesEverything` | apps/ui/src/context/BrowserAuthContext.tsx:706-774 | while a sign-out owns the page nothing protected is shown or connected |
| `SessionSignOut.SignOutOwnsPage` | apps/ui/src/context/BrowserAuthContext.tsx:706-774 | over every run whose sign-outs come from the buttons, which are disabled while one is under way, at most one is, and until Core has answered it owns the page and shows nothing protected |
| `SessionSignOut.OthersLeave` | apps/ui/src/context/BrowserAuthContext.tsx:161-789 | no step but a sign-out's own takes the page from it or changes the calls under way |
| `SessionSignOut.EndReleasesExactly` | apps/ui/src/context/BrowserAuthContext.tsx:764-774 | without that guard the end of a call takes the page from a waiting sign-out exactly when it is the end of another call |
| `SessionSignOut.WithoutTheGuard` | apps/ui/src/context/BrowserAuthContext.tsx:706-774 | a run with a second sign-out no button would start, which loses the page while it waits for Core |
| `SessionShown.RestoreSignsInExactly` | apps/ui/src/context/BrowserAuthContext.tsx:247-276 | giving the page back shows it as signed in unless a lost session was put off; nobody is signed in then exactly if nobody was or the session had run out |
| `SessionShown.ApplyStatusSignsInExactly` | apps/ui/src/context/BrowserAuthContext.tsx:278-324 | taking over a status shows the page as signed in exactly for an authenticated one; nobody is signed in then exactly if its session had run out |
| `SessionShown.HollowExactly` | apps/ui/src/context/BrowserAuthContext.tsx:161-789 | of all steps exactly two kinds leave the page shown as signed in with nobody signed in: taking over a late session, and giving back an empty page |
| `SessionShown.HollowOverRuns` | apps/ui/src/context/BrowserAuthContext.tsx:161-789 | over every run the page is so exactly if a step of those two kinds made it so and it has stayed so |
| `SessionShown.OnlyReturnsHollow` | apps/ui/src/context/BrowserAuthContext.tsx:221-276 | over every run in which no session runs out between two readings of the clock, a hollow page is one that a sign-out gave back empty |
| `SessionShown.HollowHappens` | apps/ui/src/context/BrowserAuthContext.tsx:247-276 | a run that ends there, connected: a session signs out and runs out before Core turns out to be unreachable |
| `SessionOutage.OutageKeepsPage` | apps/ui/src/context/BrowserAuthContext.tsx:418-457 | over every run, however many background probes fail to reach Core, a page shown as signed in keeps its identity, token, generations and what it shows |
| `SessionOutage.BackgroundFailureExactly` | apps/ui/src/context/BrowserAuthContext.tsx:395-464 | a background failure leaves such a page exactly if it says nothing about the session; otherwise it signs out |
| `SessionOutage.NobodyAnswered` | apps/ui/src/context/BrowserAuthContext.tsx:278-303 | what an answer that nobody is signed in locks the page as |
| `SessionOutage.FailureLocks` | apps/ui/src/context/BrowserAuthContext.tsx:395-464 | what each failure makes of the page, by failure, kind of probe and what is shown |
| `SessionStarts.TransitionSupersedes` | apps/ui/src/context/BrowserAuthContext.tsx:326-366 | a probe that owns a transition becomes the active one and nothing started before may act any more, unless a sign-out owns the page |
| `SessionStarts.BackgroundStarts` | apps/ui/src/context/BrowserAuthContext.tsx:326-366 | a background probe starts where no transition owns the page |
| `SessionStarts.FocusIsNotDoubled` | apps/ui/src/context/BrowserAuthContext.tsx:333-343 | while a focus probe of this access generation is active no other is started |
| `SessionStarts.TriggersStart` | apps/ui/src/context/BrowserAuthContext.tsx:515-585 | over every run, which probe each background trigger starts |
| `SessionStarts.TransitionsStart` | apps/ui/src/context/BrowserAuthContext.tsx:525-790 | over every run, which probe mounting, retrying and an opened sign-in start |
| `SessionStarts.SignOutIsConfirmed` | apps/ui/src/context/BrowserAuthContext.tsx:730-758 | over every run a sign-out Core carried out, or knew no session for, is confirmed by its own probe |
| `SessionStarts.RefusedSignIn` | apps/ui/src/context/BrowserAuthContext.tsx:663-701 | what a sign-in Core did not open shows, and whether it locks the page |
| `SessionStarts.LostSession` | apps/ui/src/context/BrowserAuthContext.tsx:494-513 | a lost session is checked again with nobody signed in; during a sign-out it is only noted |
| `SessionStarts.TakenOver` | apps/ui/src/context/BrowserAuthContext.tsx:278-323 | taking over a status installs who Core says it is: a session with token, expiry and timer, others without |
| `SessionStarts.ExpiryLocks` | apps/ui/src/context/BrowserAuthContext.tsx:221-245 | over every run a session that runs out locks the page and Core is asked at once |
| `SessionStarts.TimersArm` | apps/ui/src/context/BrowserAuthContext.tsx:515-572 | which timers coming back to the page and a wish to revalidate arm |
| `SessionStarts.LeavingQuiets` | apps/ui/src/context/BrowserAuthContext.tsx:535-612 | over every run, on a page hidden or left nothing in flight can act, no timer is armed and nothing is live; left it keeps no token |
| `SessionStarts.TokenHeldOverRuns` | apps/ui/src/lib/sessionTransport.ts:1-40 | over every run a session is active exactly while there is a token |
| `SessionTheorems.NextKeeps` | apps/ui/src/context/BrowserAuthContext.tsx:161-789 | every step keeps the invariant and applies at most the active probe's outcome |
| `SessionSafety.SettleKeeps` | apps/ui/src/context/BrowserAuthContext.tsx:366-476 | a reply keeps the invariant |
| `SessionProvider.Provider.IsProbeCurrent` | apps/ui/src/context/BrowserAuthContext.tsx:167-195 | decides the currency rule |
| `SessionProvider.Provider.LockUi` | apps/ui/src/context/BrowserAuthContext.tsx:197-219 | locks as the protocol does |
| `SessionProvider.Provider.StartProbe` | apps/ui/src/context/BrowserAuthContext.tsx:326-366 | starts, joins, refuses or supersedes a probe |
| `SessionProvider.Provider.ApplyStatus` | apps/ui/src/context/BrowserAuthContext.tsx:278-324 | applies a session status |
| `SessionProvider.Provider.RestoreAuthenticatedAccess` | apps/ui/src/context/BrowserAuthContext.tsx:247-276 | restores or re-probes after a failed sign-out |
| `SessionProvider.Provider.ApplyFailure` | apps/ui/src/context/BrowserAuthContext.tsx:400-468 | applies a failed probe, in every branch |
| `SessionProvider.Provider.ProbeReply` | apps/ui/src/context/BrowserAuthContext.tsx:367-468 | a reply acts only if its probe is current |
| `SessionProvider.Provider.ProbeEnds` | apps/ui/src/context/BrowserAuthContext.tsx:469-476 | cleans up after a probe |
| `SessionProvider.Provider.LogoutStarts` | apps/ui/src/context/BrowserAuthContext.tsx:706-728 | suspends the page for a sign-out |
| `SessionProvider.Provider.Protected401` | apps/ui/src/context/BrowserAuthContext.tsx:494-513 | handles a lost session, deferred during a sign-out |
| `SessionProvider.Provider.Mount` | apps/ui/src/context/BrowserAuthContext.tsx:525-534 | mounts and starts the first probe |
| `SessionProvider.Provider.Unmount` | apps/ui/src/context/BrowserAuthContext.tsx:535-550 | unmounts: stale work, no credentials, no probes |
| `SessionProvider.Provider.Render` | apps/ui/src/context/BrowserAuthContext.tsx:127-128 | notes the phase that is shown |
| `SessionProvider.Provider.Retry` | apps/ui/src/context/BrowserAuthContext.tsx:785-790 | asks Core again |
| `SessionProvider.Provider.RevalidateWanted` | apps/ui/src/context/BrowserAuthContext.tsx:515-522 | arms the revalidation timer unless a sign-out is under way |
| `SessionProvider.Provider.RevalidateFires` | apps/ui/src/context/BrowserAuthContext.tsx:518-521 | refreshes the token unless a sign-out is under way |
| `SessionProvider.Provider.SseProbe` | apps/ui/src/context/BrowserAuthContext.tsx:527-531 | a lost live connection asks Core, on a signed-in page alone |
| `SessionProvider.Provider.ExpiryFires` | apps/ui/src/context/BrowserAuthContext.tsx:232-237 | locks an expired session and asks Core |
| `SessionProvider.Provider.Focused` | apps/ui/src/context/BrowserAuthContext.tsx:574-590 | locks an overdue session at once, else arms the focus timer |
| `SessionProvider.Provider.FocusFires` | apps/ui/src/context/BrowserAuthContext.tsx:567-571 | starts a focus probe on a signed-in page |
| `SessionProvider.Provider.PageHide` | apps/ui/src/context/BrowserAuthContext.tsx:596-612 | suspends the page and makes its work stale |
| `SessionProvider.Provider.PageShow` | apps/ui/src/context/BrowserAuthContext.tsx:613-628 | asks Core after a return from the back-forward cache |
| `SessionProvider.Provider.LoginStarts` | apps/ui/src/context/BrowserAuthContext.tsx:650-660 | signing in supersedes every probe, once at a time |
| `SessionProvider.Provider.LoginSettles` | apps/ui/src/context/BrowserAuthContext.tsx:663-696 | every way Core can answer the token |
| `SessionProvider.Provider.LoginEnds` | apps/ui/src/context/BrowserAuthContext.tsx:697-700 | the end of signing in |
| `SessionProvider.Provider.LogoutSettles` | apps/ui/src/context/BrowserAuthContext.tsx:730-763 | every way Core can answer a sign-out |
| `SessionProvider.Provider.LogoutEnds` | apps/ui/src/context/BrowserAuthContext.tsx:764-774 | releases the page and refreshes a refused token |
| `SessionProvider.ProviderAppliesInOrder` | apps/ui/src/context/BrowserAuthContext.tsx:161-195 | whatever has happened to a provider object, its outcomes were applied in order and rightly |
| `SessionProvider.ProviderSignOutOwnsPage` | apps/ui/src/context/BrowserAuthContext.tsx:706-774 | a provider object whose sign-outs come from its buttons hides everything until Core has answered one |
| `DecisionSummary.CoreAccepts` | apps/core/src/zigbeelens/schemas.py:346-380 | Core's model accepts exactly well-typed documents without extra fields that fold |
| `DecisionSummary.ValidateDecisionCountSummary` | apps/ha_integration/custom_components/zigbeelens/compatibility.py:323-390 | the integration accepts exactly well-typed documents that fold |
| `DecisionSummary.ParseDecisionCountSummary` | apps/ui/src/lib/decisionContract.ts:285-367 | the UI accepts exactly well-typed documents whose totals fold |
| `DecisionSummary.UiAcceptsMore` | apps/ui/src/lib/decisionContract.ts:285-367 | the UI accepts what the integration does, and besides only empty summaries listing keys with count zero |
| `DecisionSummary.LeadingMeaning` | apps/ui/src/lib/decisionContract.ts:285-367 | the verdict is the key of its order with a positive count that no other one stands before, and the lowest only where there is none |
| `DecisionSummary.AcceptedMeansRealizable` | apps/core/src/zigbeelens/services/decision_summary.py:46-92 | a nonempty summary is accepted exactly when some list of badges folds to it |
| `SnapshotHistory.CountsAreRealizable` | apps/core/src/zigbeelens/schemas.py:941-952 | pair counts are accepted exactly when two finite keyed pair tables have them |
| `SnapshotHistory.StatusExactly` | apps/core/src/zigbeelens/schemas.py:985-1357 | a comparison passes the checks of its own and of its rows exactly if it counts both layouts rightly and its status fits: none without a difference, reviewing for a device with an issue, else changed or, for links or routes, watch |
| `SnapshotHistory.LatestFactsMeaning` | apps/core/src/zigbeelens/schemas.py:1232-1290 | the latest-fact checks hold exactly for the canonical facts, in any order |
| `SnapshotHistory.RowFactsMeaning` | apps/core/src/zigbeelens/schemas.py:1364-1458 | a row's fact checks hold exactly for its canonical facts, in any order |
| `SnapshotCore.ValidateComparison` | apps/core/src/zigbeelens/schemas.py:941-1005 | a comparison passes exactly with pair arithmetic, a true presence change and a fitting status |
| `SnapshotCore.ValidateEarlier` | apps/core/src/zigbeelens/schemas.py:1292-1357 | earlier rows pass exactly with fresh ids and fitting comparisons |
| `SnapshotCore.ValidateLatestFacts` | apps/core/src/zigbeelens/schemas.py:1226-1290 | accepts exactly one presence and one link fact, each the one the layout calls for |
| `SnapshotCore.ValidateRowFacts` | apps/core/src/zigbeelens/schemas.py:1362-1457 | accepts exactly one fact of each kind the comparison calls for, with its evidence |
| `SnapshotCore.ValidateSnapshotComparisons` | apps/core/src/zigbeelens/schemas.py:1208-1458 | Core accepts exactly documents whose rows are in order and whose facts are the canonical ones up to order |
| `SnapshotUi.ParseComparison` | apps/ui/src/lib/deviceSnapshotHistoryContract.ts:62-173 | a comparison passes exactly with pair arithmetic, a true presence change and a fitting status |
| `SnapshotUi.ParseRow` | apps/ui/src/lib/deviceSnapshotHistoryContract.ts:192-285 | a row passes exactly if in order, and without a comparison if it is the latest |
| `SnapshotUi.CheckSnapshots` | apps/ui/src/lib/deviceSnapshotHistoryContract.ts:692-747 | earlier rows pass exactly with fresh ids and fitting comparisons |
| `SnapshotUi.CheckLatestFacts` | apps/ui/src/lib/deviceSnapshotHistoryContract.ts:493-537 | accepts exactly one presence and one link fact, each the one the layout calls for |
| `SnapshotUi.CheckRowFacts` | apps/ui/src/lib/deviceSnapshotHistoryContract.ts:556-633 | accepts exactly one fact of each kind the comparison calls for, with its evidence |
| `SnapshotUi.ParseSnapshotHistoryDetail` | apps/ui/src/lib/deviceSnapshotHistoryContract.ts:487-767 | the UI accepts exactly documents in order with the canonical facts under its own property lookup |
| `SnapshotValidators.UiAgreesWithCore` | apps/ui/src/lib/deviceSnapshotHistoryContract.ts:487-634 | the UI accepts what Core accepts, except a snapshot without facts whose id names a property every object inherits |
| `SnapshotValidators.InheritedIdDisagrees` | apps/ui/src/lib/deviceSnapshotHistoryContract.ts:556-567 | such a document: a limited snapshot with the id `constructor`, which Core accepts and the UI does not |

## Left out

- HTTP, aiohttp, `fetch`, EventSource, Home Assistant registries and buses, local storage and React rendering: inputs in any order; the live connection is one boolean, and the phase last rendered is a field that any step may bring up to date.
- Home Assistant registry objects: devices, entities and areas are given as records, identifier domains trimmed and lower-cased, and the bridge name of an MQTT identifier compared in ASCII letters. A failing registry read is the unavailable registry.
- Unhandled exceptions: an attempt that raises ends the loop and drops what was pending, and the theorems on requests and retries say that they need attempts that return. Cancellation inside an attempt is only what stop does.
- The last-attempt timestamp of the diagnostics, the listener that reports them, and what such a listener might call.
- The branches for an unavailable build and a missing fingerprint (enrichment_manager.py:671-685): the resolver never returns either once the registry is complete.
- `SyncTheorems.NoLostRequest`: attempts that raise are excluded, because the code then drops the pending request. Requests from before a stop are void, also if the manager had not yet started and starts again.
- `SyncTruth.SuccessIsTrue`: needs that a failed or refused publish leaves Core unchanged and that nobody else writes; `SyncStored.SuccessCertainExactly` says what remains without the former.
- `MeshLayout.LayoutNeverOverlaps`: in the cluster mode it asks for clusters of at most eight; `MeshCellOverlap.EightIsTheBudget` shows that no larger bound would do, and `MeshCellOverlap.ClusterLayoutExactly` which layouts overlap. With devices below the clusters the exact condition is not stated, only a necessary and a sufficient one: what hangs below the last row may also meet them.
- `MeshOrdering.OrderingPermuted`: needs that ids of different routers rank differently, because ties in `localeCompare` fall back to the listed order.
- The layout for permuted devices: the first listed router takes over end devices whose strongest evidence is a coordinator, so device order matters there by design.
- Saved positions, presets, search, badges and the copy texts of edges: they add only easy members.
- The other graph statistics of `buildLiveMeshEvidence` and the builders of historical and passive edges: given as the stored other edges.
- Messages of errors: a refusal is a refusal, whatever its text.
- The PNG signature's file reading and the decoded pixels: only structure is checked.
- Listener re-entrancy in the auth runtime: a listener that calls back is the same as a later event.
- Changes of transport credentials while a protected call waits: only the first send of a call can carry a token, and it reads the token when it starts.
- `ProtectedFetch.FetchJson`: a body stream that breaks and a body that does not parse are one case, an error that is not tried again.
- Session status grammar, expiry dates and Core origin rules: a status arrives parsed, with a flag for an expiry that is past when the timer is armed. One that is past for the parser is a failure, an incomplete session.
- A second mounting of the provider with its own effects' order, and the focus promise as a value callers wait on.
- Field typing of snapshot-history documents (exact key sets, non-empty strings, stored reasons and checks) and JSON numbers with a zero fraction: documents are given after typing.
- A snapshot id or fact key equal to the name of the prototype property itself: the UI's table would change its prototype, which is not modelled.
- Repairs, panel summary, sensors, config flow, storage, collectors and decision rules: not part of this model.
