# Verified models of the rahi chassis

Dafny models of the parts of the rahi chassis whose correctness is an argument about many tasks, many nodes or many
inputs at once, with the promises those parts make proved about every run or every input.
`dafny verify dfyconfig.toml` checks the whole project.

## What is modelled

**The decision ledger** (`Chain`, `ChainLaws`, `Append`, `AppendSeals`, `AppendSafety`, `AppendLaws`, `AppendFork`,
`AppendSteps`, `AppendEnds`, `AppendRaces`, `AppendResident`, `Backoff`). The hot table, the archived segments and the
identity and collision rows are one `Store`; an append is one transaction that inserts a record and its identity row,
and a seal is one transaction that archives the oldest records, deletes their rows and accounts for them. On top
stands the append protocol: any number of calls on any number of nodes, each standing at the point where the source
awaits, with transactions that the store decides at once, later or never, acknowledgements that are lost, verdicts
that degrade, and any number of sealers, each counting the rows, reading the chain, reading the segments and
committing as separate steps, so that they overtake each other. Hashes are injective (a hash is the record it names,
linked to its parent); reads are linearizable. The walk that orders a resident table is proved against that relation
as a method, and the wait before a retry against its window.

**The denial queue** (`Queue`, `Denials`, `DenialSafety`, `DenialLaws`, `DenialClose`, `DenialEnds`, `DenialSilence`).
The queue is a class whose methods are what each critical section does; the machine runs any number of refused
operations, the appender, any number of drains, the close of the last kernel handle and the end of the runtime, over
the same functions. Unlocking and notifying are separate steps, and the notifier is its one stored permit and the
parked appender.

**The ceiling** (`Capability`, `Ceiling`, `CeilingLaws`, `Lexing`, `LexingLaws`, `SourceScan`, `SourceSites`,
`SourceLaws`, `SourceText`). The manifest's validation, the deny-by-default check of one request, the build-time check
of a crate's call sites, and the hand-written scanner that finds those call sites in source text, character by
character.

**Bearer admission and revocation** (`Bearer`, `BearerLaws`). The checked 64-bit lifetime rule, the durable revocation
tables, and `validate` reading them at three moments of one history of writes.

**Streams** (`Streams`, `StreamLaws`, `StreamEnds`) and **the ordered stop** (`Services`, `Stop`, `StopLaws`,
`StopSteps`, `StopEnds`). Every lock a stream takes is a step, so its producers, its body, the hub's drain and a
dropped response race freely; `serve` is a machine over its start, its early exits, its join loop and its stop.

**Decision ids** (`DecisionIds`) and **native-client provisioning** (`NativeClients`, `NativeLaws`).

## Where the code does less than its documentation says

Each of these is proved: a run that shows it, and exactly when the promise holds.

- *One record per parent.* `crates/rahi-ledger/src/append.rs:5-8` rests the chain on the unique parent index. That
  index covers resident rows only, and a seal deletes rows, so a transaction that read an old head can be admitted
  after its parent's child was archived. `AppendFork.TheChainCanFork` is such a run. A commit keeps the one list if
  and only if its parent is still the root or a resident record (`AppendFork.CommitKeepsTheChainIff`), a run keeps it
  if and only if no commit was stale (`AppendFork.OneListIffNoStaleCommit`), and a stale commit needs `hotWindow + 2`
  records to land while one transaction is in flight, less what was sealed between the last sealer's count and its
  commit (`AppendFork.StaleCommitNeedsAWindow`). That is 9,002 with the defaults when no sealer overtakes another
  (`AppendFork.AloneASealerCrowdsNothing`), and less when they do, because the count and the records sealed are
  separate reads. A fork is permanent (`AppendFork.ForkStays`): with two heads neither a head nor an order is read
  again (`ChainLaws.ForkStopsTheChain`), and a seal that read the chain before can still commit but takes neither head
  away (`ChainLaws.SealKeepsFork`). One record per id holds regardless.
- *Every refused operation lands or is counted once.* The guard that counts what a dead appender owed exists only once
  its task was polled, and it runs once (`crates/rahi-kernel/src/lib.rs:283-321`). A runtime that ends before the
  first poll leaves accepted denials neither written nor counted (`DenialLaws.AnUnpolledAppenderLosesInSilence`), and
  so does a push by another worker after the guard ran (`DenialSilence.AcceptedAfterTheGuardIsLostInSilence`). With
  the queue closed and the appender gone, a counted denial is lost in silence if and only if it was owed when a task
  that was never polled was dropped, or was accepted after the task ended, and no later drain took it back
  (`DenialSilence.LostInSilenceIff`).
- *A stream's place is given back when it closes.* `attach` counts, lists and hands over the attachment under three
  locks, and the hub's drain can close the stream between the second and the third. Its place then stays counted for
  good: `StreamLaws.ADrainCanStrandAPlace`; the open count is the promised one if and only if no stream was closed
  before its attachment was set (`StreamLaws.OpenCountIsUnclosedStreams`).
- *A service that returns `Ok` before the stop is a failure.* Its task reads the broadcast only after the service
  returned (`crates/rahi-cli/src/service.rs:216-222`), so a stop that falls between the two makes an early return pass
  for a completion: `StopLaws.AStopCanSlipIn` is such a run. A returned service is judged completed if and only if the
  stop had been broadcast in the very state its task looked in (`StopLaws.JudgedByTheMomentItLooked`), however late it
  is joined.
- *A wildcard asks for one more label.* `crates/rahi-kernel/src/capability.rs:243-249` says a host needs at least one
  more label than the wildcard's domain. The code also admits hosts whose further labels are all empty, as
  `.example.com` and `..example.com` (`Capability.DotsAreCovered`, `Capability.EmptyLabelsAreCovered`). A covered host
  has a further label that is not empty if and only if some character in front of the suffix is not a dot
  (`Capability.OneMoreLabelIff`).
- *A record appended just now is resident.* The comment at `crates/rahi-ledger/src/append.rs:141-142` says nothing has
  had the chance to seal it. Seals can run between the commit and the acknowledgement:
  `AppendResident.AppendedNowCanBeArchived` is a run that answers `appended_now` for an archived record. The record is
  resident if and only if the sealed prefix has not reached its position, and if it has, at least `hotWindow + 1`
  records landed behind it, less what was sealed since the last sealer's count
  (`AppendResident.AppendedNowIsResidentIff`).
- *Every governed call site is checked.* `crates/rahi-kernel/src/verify.rs:118-124` speaks of every site in a file,
  but the scan goes on behind the arguments of the call it just read. A call inside them is never looked at
  (`SourceText.NestedCallEscapes`), so a text with an opaque, unmarked call can be accepted
  (`SourceText.AnOpaqueCallEscapes`). The scan stops at exactly the places that no earlier stop's arguments reach over
  (`SourceSites.SiteIff`); in an accepted text it stops at every call if and only if none is nested in an earlier
  one's arguments (`SourceSites.EveryCallIsCheckedIff`).

## Model

| member | source | states |
|---|---|---|
| Chain.TipsDiffer | crates/rahi-ledger/src/verify.rs:34-67 | no two places of a hash-linked list offer the same parent |
| Chain.LinearHead | crates/rahi-ledger/src/chain.rs:807-828 | on one list the head query answers exactly the last record's hash, and there is one head |
| Chain.OrderIsUnique | crates/rahi-ledger/src/verify.rs:34-67 | two orders of one resident table from one root are the same list |
| Chain.FileByParent | crates/rahi-ledger/src/verify.rs:38-48 | files every record under its parent, and fails only when two records really claim one parent |
| Chain.OrderChain | crates/rahi-ledger/src/verify.rs:34-67 | returns the one list from the root exactly when the records form one, whatever order they came in |
| ChainLaws.InsertKeepsCoverage | crates/rahi-ledger/src/append.rs:257-269 | an admitted append leaves every record with its identity row, every row with its record, and no id spent twice |
| ChainLaws.StaleIsUnguarded | crates/rahi-ledger/src/chain.rs:51-52 | on one list, a parent's child is archived exactly when the parent is neither the root nor resident |
| ChainLaws.InsertOntoHead | crates/rahi-ledger/src/append.rs:247-269 | a commit onto the head extends the one list by one record |
| ChainLaws.InsertOntoStale | crates/rahi-ledger/src/chain.rs:51-52 | a commit onto a parent whose child is archived leaves two heads |
| ChainLaws.InsertKeepsFork | crates/rahi-ledger/src/append.rs:263-269 | no later commit takes a fork away |
| ChainLaws.ForkStopsTheChain | crates/rahi-ledger/src/chain.rs:807-828 | with two heads neither the head query nor the order of the table answers, so no append and no new seal can begin |
| ChainLaws.AccountingOnlyStamps | crates/rahi-ledger/src/seal.rs:432-446 | accounting for a sealed run stamps exactly the rows that name its records and records no collision |
| ChainLaws.AccountingOfOne | crates/rahi-ledger/src/identity.rs:691-733 | accounting for one record stamps its own row, files a free id, records a collision under a row that names another copy, and changes nothing the second time |
| ChainLaws.SealKeepsCoverage | crates/rahi-ledger/src/seal.rs:432-446 | a seal's transaction loses no record, renames none and spends no id |
| ChainLaws.OldestIsNext | crates/rahi-ledger/src/seal.rs:392-399 | the run a sealer holds is where the resident part of the one list begins, and never all of it |
| ChainLaws.SealKeepsLinear | crates/rahi-ledger/src/seal.rs:432-446 | a seal of the oldest run leaves the one list one list |
| ChainLaws.SealKeepsFork | crates/rahi-ledger/src/seal.rs:432-446 | a seal takes neither head of a fork away |
| AppendSeals.OldestAgree | crates/rahi-ledger/src/seal.rs:391-399 | two sealers that read one table hold the same records as far as both runs go |
| AppendSeals.RefusedIffOvertaken | crates/rahi-ledger/src/segment.rs:36-44 | the segment table's keys refuse a sealer exactly when another seal came between its read of the chain and its transaction; what they admit is the oldest run |
| AppendFork.ASealIsRefusedIffOvertaken | crates/rahi-ledger/src/seal.rs:365-369 | so it is at every point of every run, whatever overtook whom |
| AppendSafety.StepKeepsInv | crates/rahi-ledger/src/append.rs:182-388 | every step of every call, of the store and of every sealer keeps the protocol's invariant and takes nothing committed back |
| AppendSafety.RunKeepsInv | crates/rahi-ledger/src/append.rs:182-388 | so does every run, from any covered chain, ids with collision rows included |
| AppendLaws.OneRecordPerId | crates/rahi-ledger/src/append.rs:231-302 | at every point a record stands once, resident or in one segment, exactly when its id has a row, and no record that landed reused an id |
| AppendLaws.SuccessNamesTheOneRecord | crates/rahi-ledger/src/append.rs:353-382 | every success, by own commit, late landing or verified retry, names the one record of that id, holding that decision |
| AppendLaws.SuccessIsDurable | crates/rahi-ledger/src/append.rs:66-103 | and that record still holds it at every later state, alone under its id |
| AppendLaws.AppendedNowIsOwn | crates/rahi-ledger/src/append.rs:263-289 | `appended_now` is said only by the call whose own transaction committed the record |
| AppendResident.AppendedNowIsResidentIff | crates/rahi-ledger/src/append.rs:137-147 | the record a call says it appended now is resident if and only if no segment holds it, on one list exactly when the sealed prefix has not reached it; a window of records has landed behind it otherwise |
| AppendResident.AppendedNowCanBeArchived | crates/rahi-ledger/src/append.rs:140-147 | a run whose call answers `appended_now` when its record is in a segment, with the least gap the bound allows |
| AppendLaws.AppendedNowOncePerId | crates/rahi-ledger/src/append.rs:137-158 | over all calls at most one return per id says `appended_now` |
| AppendSteps.ACallBegins | crates/rahi-ledger/src/append.rs:182-200 | an append needs an id and a handle not opened for repair; the genesis append goes straight to the head |
| AppendSteps.RowsDecideADegradedAppend | crates/rahi-ledger/src/append.rs:322-342 | on a degraded node an id spent twice is ambiguous, one another decision holds is reused, one this decision holds is a success under its stored hash, and one the chain does not hold is unproven: each exactly then |
| AppendSteps.RowsDecideAFailedSend | crates/rahi-ledger/src/append.rs:353-379 | a failed send is decided by the same rows, each exactly then, and an id the chain does not hold sends the call to the head |
| AppendSteps.AMovedHeadIsRetried | crates/rahi-ledger/src/append.rs:379-387 | a moved head records the loss and the call tries again from its check, or gives up at the twelfth; a head that stands where it did is the store's error |
| AppendSteps.GivesUpExactlyAtTwelve | crates/rahi-ledger/src/append.rs:231-302 | a call answers that it lost every attempt exactly when it lost twelve |
| AppendSteps.StoreFailedMeans | crates/rahi-ledger/src/append.rs:359-387 | the store's error ends a call only after a read that failed or a head that answered the call's own parent |
| AppendSteps.LookUpSaysWhere | crates/rahi-ledger/src/append.rs:149-157 | what a record is said to be sealed in holds it, and nothing is said exactly when it is still resident |
| AppendRaces.ALoserSendsAgain | crates/rahi-ledger/src/append.rs:238-294 | an append whose transaction lost its race reads its rows and the moved head and has the next attempt in flight onto the new head, with that one loss charged |
| AppendRaces.ALoserLandsNext | crates/rahi-ledger/src/append.rs:238-294 | and, left alone, lands in that attempt, onto the head as it is then |
| AppendRaces.TwoRacersBothLand | crates/rahi-ledger/src/append.rs:231-302 | two appends that read one head both land, one behind the other, each `appended_now` |
| AppendEnds.AnAppendTakesAtMostSeventyTwoSteps | crates/rahi-ledger/src/append.rs:231-302 | over any run a call takes at most seventy-two steps, six for each attempt, and every step it takes brings it nearer to its answer |
| AppendEnds.ACallIsNeverStuck | crates/rahi-ledger/src/append.rs:182-302 | on one list a call that has not returned always has a step that brings it on |
| AppendEnds.AnAppendEnds | crates/rahi-ledger/src/append.rs:182-302 | and so every such call can come to its answer by its own steps and the store's decisions on what it sent |
| AppendLaws.EachLostAttemptIsCharged | crates/rahi-ledger/src/append.rs:238-295 | each lost attempt is charged to a later record of its own that landed during the call, claimed the very parent that attempt carried, and is another decision's unless it is the last |
| AppendLaws.GivingUpCostsTwelve | crates/rahi-ledger/src/append.rs:297-301 | giving up means twelve records landed meanwhile, eleven of them for other decisions |
| AppendLaws.NothingSentUnchecked | crates/rahi-ledger/src/append.rs:204-246 | every transaction an ordinary append sends was preceded, in the same attempt, by a check that saw a complete verdict |
| AppendLaws.DegradedNodeSendsNothing | crates/rahi-ledger/src/append.rs:322-342 | a call at its check on a degraded node sends nothing from then on, and its only success is the stored hash of an id whose digest matches and that has no collision row |
| AppendFork.CommitKeepsTheChainIff | crates/rahi-ledger/src/append.rs:1-8 | a commit keeps the one list, forks nothing and sits on the head if and only if its parent is the root or resident |
| AppendFork.StepKeepsTheChainIff | crates/rahi-ledger/src/append.rs:1-8 | any step keeps the one list if and only if it is no stale commit |
| AppendFork.OneListIffNoStaleCommit | crates/rahi-ledger/src/append.rs:1-8 | a whole run ends in one hash-linked list if and only if none of its commits was stale |
| AppendFork.ForkStays | crates/rahi-ledger/src/chain.rs:821-826 | once forked a run stays forked |
| AppendFork.StaleCommitNeedsAWindow | crates/rahi-ledger/src/seal.rs:383-399 | a stale commit's transaction was in flight while at least `hotWindow + 2` records landed, less those sealed between the last sealer's count and its commit |
| AppendFork.AloneASealerCrowdsNothing | crates/rahi-ledger/src/seal.rs:388-399 | with no seal since its count, that is the sealer's own run and nothing else |
| AppendFork.TheChainCanFork | crates/rahi-ledger/src/chain.rs:51-52 | a run of the protocol that forks a linear chain, with the least gap the bound allows |
| AppendFork.UncontendedAppendLands | crates/rahi-ledger/src/append.rs:238-289 | left alone, an append of a free id lands in its first attempt, on the head it read |
| Backoff.Fnv1a | crates/rahi-ledger/src/append.rs:439-446 | the running hash is the 64-bit FNV-1a of the id's bytes and the attempt's four |
| Backoff.KnownAnswers | crates/rahi-ledger/src/append.rs:439-446 | the hash of no bytes and of one letter are the published ones |
| Backoff.TheSaltReadsBack | crates/rahi-ledger/src/append.rs:428-434 | the attempt's four bytes are read back as the attempt, lowest byte first |
| Backoff.Backoff | crates/rahi-ledger/src/append.rs:428-436 | the wait lies in the upper half of its window and depends on the id and the attempt alone |
| Backoff.WindowDoublesToTheCap | crates/rahi-ledger/src/append.rs:428-432 | each window doubles the one before until the cap |
| Backoff.ElevenWaitsFitTheBudget | crates/rahi-ledger/src/append.rs:42-44 | all the waits of one append stay under two seconds, whatever its id |
| Queue.DenialQueue.Push | crates/rahi-kernel/src/lib.rs:218-227 | accepts behind everything owed, or refuses a full queue and changes nothing |
| Queue.DenialQueue.CountOwed | crates/rahi-kernel/src/lib.rs:231-234 | counts the waiting decisions and the one being written |
| Queue.DenialQueue.Take | crates/rahi-kernel/src/lib.rs:238-249 | the oldest waiting decision becomes the one being written and stays owed; closed and empty are told apart |
| Queue.DenialQueue.Settle | crates/rahi-kernel/src/lib.rs:258-266 | takes off the decision being written, and answers false exactly when a drain already did |
| Queue.DenialQueue.Abandon | crates/rahi-kernel/src/lib.rs:269-274 | returns everything owed, oldest first, and leaves nothing owed |
| Queue.DenialQueue.Close | crates/rahi-kernel/src/lib.rs:276-279 | marks the queue closed and touches nothing else |
| DenialSafety.StepKeepsInv | crates/rahi-kernel/src/lib.rs:216-321 | every step of every task keeps the queue a suffix of what was accepted, the wake-up owed, and every decision in one place |
| DenialLaws.NoLostWakeUp | crates/rahi-kernel/src/lib.rs:238-254 | a parked appender with work or a closed queue always has someone about to notify, and that step wakes it |
| DenialClose.ANotifyIsNotLost | crates/rahi-kernel/src/lib.rs:250-252 | a notify wakes the parked appender, or is kept as the one permit |
| DenialClose.AKeptPermitIsSpent | crates/rahi-kernel/src/lib.rs:250-252 | which the next wait spends instead of parking |
| DenialClose.APushIsAcceptedIffThereIsRoom | crates/rahi-kernel/src/lib.rs:218-227 | a push is accepted behind everything waiting exactly when fewer than the capacity wait, and owes a notify; otherwise it owes a report |
| DenialClose.AnAnswerIsSettled | crates/rahi-kernel/src/lib.rs:256-298 | an append that returned is counted as landed or failed exactly when no drain took its id back meanwhile |
| DenialClose.AReportNamesItsCause | crates/rahi-kernel/src/lib.rs:289-320 | every report names its decision under its own cause, and no other step reports one |
| DenialClose.ItEndsOnlyWhenNothingWaits | crates/rahi-kernel/src/lib.rs:238-254 | an appender whose task is not dropped ends only on a closed queue with nothing waiting, and hands nothing over |
| DenialClose.ACloseWritesEverythingOut | crates/rahi-kernel/src/lib.rs:236-298 | in a run without a dropped task or a drain that gave up, an appender that ended began the append of every accepted decision, and each landed or failed |
| DenialEnds.AClosedQueueCanBeWrittenOut | crates/rahi-kernel/src/lib.rs:236-298 | from every point of every run a closed queue whose appender has not begun to end can be written out to the last decision: no wake-up is missing |
| DenialLaws.CountersBalance | crates/rahi-kernel/src/observe.rs:167-186 | decisions counted = appended + failed + dropped + abandoned + owed + those in the hands of a task about to push or report them |
| DenialLaws.LostOnce | crates/rahi-kernel/src/lib.rs:629-640 | a lost decision is reported once, under one cause that says what befell it, was counted, and is neither appended nor owed |
| DenialLaws.AppendsBeginInOrder | crates/rahi-kernel/src/lib.rs:283-297 | appends begin in the order the queue accepted them, none twice |
| DenialLaws.DrainNamesOldestFirst | crates/rahi-kernel/src/lib.rs:685-703 | a drain returns its ids in accepted order, each reported as abandoned |
| DenialLaws.DrainLeavesNothingOwed | crates/rahi-kernel/src/lib.rs:655-703 | once a drain returned, nothing accepted while it waited is still owed |
| DenialLaws.OnlyTheOneBeingWrittenCanLand | crates/rahi-kernel/src/lib.rs:672-681 | of the decisions taken back, only the one being written can be in the chain at any later time |
| DenialLaws.OverstatedLosses | crates/rahi-kernel/src/lib.rs:672-681 | a decision both landed and reported lost had begun and was never reported as dropped |
| DenialLaws.EveryRefusalIsAccountedFor | crates/rahi-kernel/src/lib.rs:283-321 | after a guarded end behind the close, every counted decision is written or reported, never both, and nothing is owed |
| DenialLaws.AccountedExactlyWhenNothingIsOwed | crates/rahi-kernel/src/lib.rs:299-321 | however the appender ended, what is lost in silence is exactly what the queue still holds |
| DenialLaws.AnUnpolledAppenderLosesInSilence | crates/rahi-kernel/src/lib.rs:448 | a run that ends before the task's first poll loses a counted decision unreported |
| DenialSilence.OwedAfterTheEnd | crates/rahi-kernel/src/lib.rs:299-321 | once the task ended, the queue owes exactly what it was owed unpolled or accepted since, less what drains took back |
| DenialSilence.LostInSilenceIff | crates/rahi-kernel/src/lib.rs:283-321 | a counted decision is lost in silence if and only if it was stranded by the end of the task and no later drain took it back |
| DenialSilence.AcceptedAfterTheGuardIsLostInSilence | crates/rahi-kernel/src/lib.rs:218-227 | a run whose guard ran and which then loses a decision accepted behind it |
| Capability.KindsReadBack | crates/rahi-kernel/src/capability.rs:122-158 | a text names a kind exactly when it is that kind's dotted form, or its variant's name |
| Capability.SpellingsAgree | crates/rahi-kernel/src/capability.rs:70-139 | each kind's variant is the camel-case form of its dotted spelling |
| Capability.ConstraintsHoldTogether | crates/rahi-kernel/src/capability.rs:369-405 | constraints pass exactly when the request answers every declared predicate and each answer fits |
| Capability.RefusalIsTheFirstUnmet | crates/rahi-kernel/src/capability.rs:369-405 | a refusal names the first predicate, of key, table and host, that is not met, and tells silence from a wrong answer |
| Capability.WildcardCovers | crates/rahi-kernel/src/capability.rs:243-255 | a wildcard covers exactly the hosts that end in its suffix, and never its own domain |
| Capability.OtherPatterns | crates/rahi-kernel/src/capability.rs:250-255 | a name without a leading star covers itself alone, and a star without a dot covers nothing |
| Capability.ServiceNameRule | crates/rahi-kernel/src/capability.rs:293-318 | what a service name may be, letter by letter |
| Capability.OneMoreLabelIff | crates/rahi-kernel/src/capability.rs:243-249 | a covered host has the domain's labels and at least one more; one of the further ones is not empty if and only if some character before the suffix is not a dot |
| Capability.EmptyLabelsAreCovered | crates/rahi-kernel/src/capability.rs:250-255 | any number of dots in front of the suffix is covered, with no label that is not empty |
| Capability.DotsAreCovered | crates/rahi-kernel/src/capability.rs:250-255 | `*.example.com` covers `.example.com` and `..example.com` |
| Ceiling.ValidateResources | crates/rahi-kernel/src/manifest.rs:393-414 | accepts exactly when no family declares a name twice, else names one that does |
| Ceiling.ValidateCapabilities | crates/rahi-kernel/src/manifest.rs:417-451 | accepts exactly non-empty distinct ids over declared resources and tables, else names a real fault |
| Ceiling.ValidateServices | crates/rahi-kernel/src/manifest.rs:454-473 | accepts exactly when every grant is in the catalog and no service repeats one |
| Ceiling.ValidateGate | crates/rahi-kernel/src/manifest.rs:477-497 | accepts exactly rosters of known optional checks, once each, without the grant check |
| CeilingLaws.ARosterIs | crates/rahi-kernel/src/manifest.rs:477-497 | which leaves two rosters: none, and the one optional check |
| Ceiling.Validate | crates/rahi-kernel/src/manifest.rs:351-358 | its resource, capability, service and gate rules together accept exactly the validated manifests |
| Ceiling.Evaluate | crates/rahi-kernel/src/adjudicate.rs:227-289 | deny by default: which of the five denials is given, exactly when each is, and none exactly when some covering grant's constraints hold; a constraint denial speaks for the nearest capability |
| Ceiling.VerifyUsage | crates/rahi-kernel/src/verify.rs:188-206 | lists exactly the call sites outside the ceiling |
| CeilingLaws.Adjudicate | crates/rahi-kernel/src/adjudicate.rs:154-172 | a typed request is never malformed or of unknown kind, and lacks a grant exactly when the build-time question is answered no |
| CeilingLaws.RunAcceptedUsage | crates/rahi-kernel/src/verify.rs:188-206 | a call site the build accepted can be refused at run time only by a constraint |
| CeilingLaws.AdmittedByTheCatalog | crates/rahi-kernel/src/manifest.rs:702-731 | over a validated manifest a request passes exactly when its service holds the id of some catalog entry that covers it and admits it |
| CeilingLaws.AdmittedInTheCatalogsFields | crates/rahi-kernel/src/adjudicate.rs:227-289 | a request passes exactly when its service was granted a catalog entry of the very kind it asks for, on that resource (a host its pattern matches for egress), whose three constraints it meets |
| CeilingLaws.CoveredInTheCatalogsFields | crates/rahi-kernel/src/verify.rs:188-206 | a call site is within the ceiling exactly when its service is a service name that was granted an entry of that very kind on that resource |
| CeilingLaws.NearestIsTheFirst | crates/rahi-kernel/src/adjudicate.rs:264-288 | the capability a constraint denial speaks for is the first granted one of that kind on that resource |
| CeilingLaws.AdmittedIsDeclared | crates/rahi-kernel/src/manifest.rs:417-451 | whatever is admitted lies in the declared resources of its kind's family |
| CeilingLaws.AdmittedIsDeclaredByKind | crates/rahi-kernel/src/capability.rs:162-171 | kind by kind, which declared list that is |
| CeilingLaws.GrantOrderDoesNotMatter | crates/rahi-kernel/src/manifest.rs:696-716 | the verdict depends on which grants a service holds, not on their order |
| CeilingLaws.OneMoreGrant | crates/rahi-kernel/src/adjudicate.rs:251-280 | one more grant admits what was admitted and what its capability admits for that service, and nothing else |
| Lexing.Balanced | crates/rahi-kernel/src/verify.rs:331-364 | finds the span from the first parenthesis to the first one that closes it outside string literals, exactly when there is one |
| Lexing.SplitArgs | crates/rahi-kernel/src/verify.rs:367-404 | returns the trimmed pieces between top-level commas, the last only when not blank |
| LexingLaws.SplitIsExact | crates/rahi-kernel/src/verify.rs:367-404 | the pieces join back to the text, each is one argument, and no other such list does |
| LexingLaws.SplitArgsUndoesJoin | crates/rahi-kernel/src/verify.rs:367-404 | any list of trimmed closed arguments comes back from its joined text |
| LexingLaws.PairShields | crates/rahi-kernel/src/verify.rs:388-397 | round, square and curly pairs alike: a comma inside one separates nothing |
| LexingLaws.CommaSeparates | crates/rahi-kernel/src/verify.rs:392-395 | a comma outside them does |
| SourceScan.MarkerUsage | crates/rahi-kernel/src/verify.rs:248-282 | reads a marker's last value per key, refusing other keys first, then missing fields, then unknown kinds |
| SourceLaws.AMarkerIsRefusedFor | crates/rahi-kernel/src/verify.rs:248-282 | a marker is refused for another key exactly when it gives one, then for a field exactly when one of the three has no value, then for its kind |
| SourceLaws.TheLastFieldSpeaks | crates/rahi-kernel/src/verify.rs:252-260 | a key given twice has its last value |
| SourceScan.ScanMarkers | crates/rahi-kernel/src/verify.rs:129-143 | every marker it stops at is read and its line known, or one that is wrong is named |
| SourceScan.ScanCalls | crates/rahi-kernel/src/verify.rs:145-176 | every call it stops at is read or has a marker above it, or one that is wrong is named |
| SourceScan.ScanSource | crates/rahi-kernel/src/verify.rs:125-180 | accepts exactly the texts whose every stop is a marker or a call that names its triple, or a call under a marker at most five lines above; reports exactly those triples; otherwise names a wrong stop |
| SourceSites.SiteIff | crates/rahi-kernel/src/verify.rs:129-158 | the scan stops at exactly the places that no earlier stop's arguments reach over |
| SourceSites.LinesAreCounted | crates/rahi-kernel/src/verify.rs:321-328 | a line is one more than the line breaks before it |
| SourceSites.AMarkerCoversFiveLines | crates/rahi-kernel/src/verify.rs:161-164 | a call is marked exactly by a marker on its own line or at most five above |
| SourceSites.AcceptedCallsAreAccounted | crates/rahi-kernel/src/verify.rs:145-176 | in an accepted text every call not nested in an earlier one's arguments is reported with its triple, or is marked |
| SourceSites.AcceptedMarkersAreReported | crates/rahi-kernel/src/verify.rs:129-143 | and every marker not nested in an earlier one is reported |
| SourceSites.EveryCallIsCheckedIff | crates/rahi-kernel/src/verify.rs:118-124 | in an accepted text the scan stops at every call if and only if none is nested in an earlier one's arguments |
| SourceLaws.LiteralCallReadsBack | crates/rahi-kernel/src/verify.rs:288-309 | arguments with any white space around them, service and resource plain literals and the kind a path to its variant or its dotted literal, are read as exactly their triple, with or without a trailing comma |
| SourceLaws.LiteralIff | crates/rahi-kernel/src/verify.rs:312-318 | a literal is exactly a quoted text without quotes inside |
| SourceLaws.EscapedReadsBack | crates/rahi-kernel/src/verify.rs:312-318 | a text whose backslashes are doubled is read back |
| SourceLaws.AKindIsSpelled | crates/rahi-kernel/src/verify.rs:301-309 | what is read as a kind is its dotted literal or a path that ends in its variant |
| SourceLaws.MarkerReadsBack | crates/rahi-kernel/src/verify.rs:248-282 | a marker that gives its three keys, in any order and with any white space, is read as exactly its triple |
| SourceText.LiteralCallInText | crates/rahi-kernel/src/verify.rs:145-163 | such a call with its parentheses paired, wherever it stands in a file's text, reads as its triple at its line and no other; an accepted text reports it unless it is nested |
| SourceText.MarkerInText | crates/rahi-kernel/src/verify.rs:129-142 | and so does such a marker |
| SourceText.NestedCallEscapes | crates/rahi-kernel/src/verify.rs:146-158 | a call as the first argument of a literal call is never stopped at, and the text is accepted |
| SourceText.AnOpaqueCallEscapes | crates/rahi-kernel/src/verify.rs:118-124 | an accepted text with a call that names no triple and has no marker |
| Bearer.Revocations.RecordToken | crates/rahi-store/src/store.rs:428-439 | stores an instant the column can hold, keeping the first row of a token |
| Bearer.Revocations.RecordSubject | crates/rahi-store/src/store.rs:448-459 | a subject's instant only rises |
| Bearer.Revocations.Raise | crates/rahi-store/src/store.rs:411-419 | the floor only rises |
| Bearer.Counters.Count | crates/rahi-idp/src/bearer.rs:494-509 | admits exactly while the identity had fewer than its ceiling in this window, and says when the next window starts |
| BearerLaws.NeverAboveTheCeiling | crates/rahi-idp/src/bearer.rs:494-509 | in any history an identity is admitted the lesser of its ceiling and what it asked for, per window |
| BearerLaws.CheckedRuleIsTheRule | crates/rahi-idp/src/bearer.rs:453-486 | the checked rule admits exactly what the unbounded rule does while both sums fit in 64 bits, and nothing otherwise |
| BearerLaws.LifetimeRefusalIsTheFirst | crates/rahi-idp/src/bearer.rs:453-486 | a lifetime refusal names the first of its nine checks the token fails, and there is one exactly when one fails |
| BearerLaws.FirstFailedCheckSpeaks | crates/rahi-idp/src/bearer.rs:352-429 | signature, lifetime, floor, audience, subject, client, token and subject revocation are checked in that order and the first that fails speaks |
| BearerLaws.DenylistOutlivesTheToken | crates/rahi-idp/src/revoke.rs:101-107 | a token issued by a minute after r is admitted at no time from r + `denylist_ttl` on |
| BearerLaws.DenylistIsTight | crates/rahi-idp/src/revoke.rs:101-107 | and one second earlier some such token is |
| BearerLaws.TablesSayWhatWasWritten | crates/rahi-idp/src/revoke.rs:139-182 | a token or subject is refused by the tables exactly when some write of the history revoked it |
| BearerLaws.AnUndatedTokenIsDenied | crates/rahi-idp/src/revoke.rs:173-182 | a token without an issue time is denied exactly while any revocation of its subject stands |
| BearerLaws.RevokedIsForGood | crates/rahi-idp/src/revoke.rs:50-57 | once refused for its row, its subject or the floor, a token is refused by every later validation, whatever the clock and ceiling |
| BearerLaws.AcknowledgedRevocationHolds | crates/rahi-idp/src/bearer.rs:381-429 | a revocation acknowledged before a validation began holds against it |
| BearerLaws.LaterTokensAreSpared | crates/rahi-idp/src/revoke.rs:173-182 | a token issued after every revocation of its subject is never refused for its subject |
| BearerLaws.AdmittedMeans | crates/rahi-idp/src/bearer.rs:352-442 | what admission amounts to, both ways: genuine, addressed here, in its lifetime, and revoked by nothing each table held when it was read |
| BearerLaws.TheCallerIsTheTokens | crates/rahi-idp/src/bearer.rs:431-441 | an admitted caller has the token's subject, client and id, and is a service exactly when the client is the subject |
| BearerLaws.ACeilingIsADayAtMost | crates/rahi-idp/src/bearer.rs:255-260 | a server's lifetime ceiling is the one it was given, a day at most |
| Streams.Shared.Close | crates/rahi-edge/src/stream.rs:266-295 | however many close it, one call at most walks away with the attachment |
| Streams.StreamHub.CountIn | crates/rahi-edge/src/stream.rs:619-627 | raises that identity's count by one and no other |
| Streams.StreamHub.Release | crates/rahi-edge/src/stream.rs:661-675 | lowers that identity's count by one, not below zero, and drops an empty entry |
| StreamLaws.PlacesAreGivenBackOnce | crates/rahi-edge/src/stream.rs:266-295 | each identity's count is its streams counted in and not given back; no place is given back twice, and a closed stream's, with nothing in flight, exactly once unless it was closed before its attachment was set |
| StreamLaws.OpenCountIsUnclosedStreams | crates/rahi-edge/src/stream.rs:592-613 | between steps in flight the count is the attached, unclosed streams, if and only if none was closed before its attachment was set |
| StreamLaws.StrandedForGood | crates/rahi-edge/src/stream.rs:651-658 | such a stream holds its place in every later state of the run |
| StreamLaws.ADrainCanStrandAPlace | crates/rahi-edge/src/stream.rs:679-707 | a run in which the hub's drain does that |
| StreamLaws.BodyIsAPrefix | crates/rahi-edge/src/stream.rs:433-468 | a body is a prefix of the accepted events in order and at most one terminal event, and the channel stays within its capacity |
| StreamEnds.TerminalMeans | crates/rahi-edge/src/stream.rs:437-452 | a body that ends with the shutdown event looked after a drain had told its stream; one that ends with the overflow event looked after a send was refused by a full channel and before any such telling |
| StreamEnds.ALookEndsTheBody | crates/rahi-edge/src/stream.rs:437-452 | a poll that looks after either ends the body with that event, shutdown first |
| StreamEnds.AFinishedPollSaysWhy | crates/rahi-edge/src/stream.rs:447-462 | and records the outcome of the same name, unless the stream was closed before |
| StreamEnds.OtherClosersSayWhy | crates/rahi-edge/src/stream.rs:266-274 | a dropped body closes as a client gone and a drain's deadline as a shutdown |
| StreamEnds.OnlyClosersClose | crates/rahi-edge/src/stream.rs:266-274 | nothing else gives a stream an outcome, and none changes |
| StreamEnds.ADeadlineCloses | crates/rahi-edge/src/stream.rs:679-707 | the drain's deadline closes any listed stream, its attachment held or not |
| StreamEnds.APassEndsAWaitingBody | crates/rahi-edge/src/stream.rs:437-452 | a pass of the drain ends a listed body at its next poll, whatever its channel holds |
| StreamEnds.AnEmitIsAcceptedIffThereIsRoom | crates/rahi-edge/src/stream.rs:320-332 | an emit is accepted exactly when the stream was not cancelled, its receiver is there and its channel has room; a full one owes the overflow signal |
| StreamEnds.AReceiveCarriesTheOldest | crates/rahi-edge/src/stream.rs:453-467 | a poll carries the oldest accepted event; an empty channel is complete exactly when its last producer is gone |
| StreamLaws.CompleteDeliveredEverything | crates/rahi-edge/src/stream.rs:458-462 | outcome complete means every accepted event was delivered and none can follow |
| Services.Validate | crates/rahi-cli/src/service.rs:155-182 | accepts exactly distinct well-formed names, else names a real fault |
| Services.Cancel.Broadcast | crates/rahi-cli/src/service.rs:115-121 | only the first call sets the instant and tells anyone, and it says it was first |
| Services.Running.Join | crates/rahi-cli/src/service.rs:248-273 | says how the task ended (completed only when it returned `Ok` after the broadcast; an early `Ok`, an error and a panic each by their own reason under its name; a cancellation as aborted), whether it was pending, and removes it alone, the others keeping their order |
| Services.Running.AbortRemaining | crates/rahi-cli/src/service.rs:278-288 | names exactly the unfinished ones in declaration order |
| StopLaws.StoreShutOnceAfterTheDrain | crates/rahi-cli/src/serve.rs:1277-1328 | on every path after boot the store is shut once, last, and right after the one denial drain when a kernel was composed |
| StopLaws.ListeningStopsInOrder | crates/rahi-cli/src/serve.rs:1416-1522 | on the listening path both come after the server ended or was cut, once, and every service was joined, each once |
| StopSteps.EveryCauseBroadcasts | crates/rahi-cli/src/serve.rs:1428-1442 | a stop signal, a storage fault, a failed service and a failed listener each leave the stop broadcast; a server that returns by itself broadcasts nothing |
| StopSteps.AJoinSays | crates/rahi-cli/src/serve.rs:1450-1470 | a join records the reason of that service and no other; the first failure broadcasts the stop and is its cause, and a later one changes nothing else |
| StopSteps.TheBoundNamesTheUnfinished | crates/rahi-cli/src/serve.rs:1471-1479 | the join bound passes once, after the broadcast, and names and aborts exactly the services not yet finished |
| StopSteps.AFailedStartIsUndone | crates/rahi-cli/src/serve.rs:1277-1328 | a start that fails answers the error of the phase it failed in and undoes exactly what had been brought up |
| StopSteps.AListeningStopAnswers | crates/rahi-cli/src/serve.rs:1523-1547 | which error a listening stop answers, and when: the listener's unless a service's failure was the first cause, else the store's |
| StopEnds.ARunIsBounded | crates/rahi-cli/src/serve.rs:1411-1547 | no run of `serve` takes more than twelve steps and three for each service |
| StopEnds.ABroadcastStopEnds | crates/rahi-cli/src/serve.rs:1416-1522 | once the stop was broadcast `serve` ends by its own steps and deadlines, though services never return, connections never close and the store never answers |
| StopLaws.BroadcastAtMostOnce | crates/rahi-cli/src/service.rs:113-121 | the stop is broadcast at most once, and the server never ends before it |
| StopLaws.EarlyOkIsJudgedFailed | crates/rahi-cli/src/service.rs:216-258 | a service whose task ended with `Ok` before the broadcast is judged failed and named, however late it is joined |
| StopLaws.JudgedByTheMomentItLooked | crates/rahi-cli/src/service.rs:216-222 | a returned service is judged completed if and only if the stop had been broadcast in the state its task looked in |
| StopLaws.AStopCanSlipIn | crates/rahi-cli/src/service.rs:216-222 | a run in which a stop between the return and the look makes an early `Ok` pass as completed, with no reason recorded |
| StopLaws.ServiceCausedStopIsNamed | crates/rahi-cli/src/serve.rs:1450-1469 | a stop whose first cause was a service's failure was broadcast over joining that very service, and carries that failure's own reason |
| StopLaws.CleanExactlyWhenNothingWentWrong | crates/rahi-cli/src/serve.rs:1523-1547 | a listening stop is `Ok` with no reason exactly when the server ended by itself, both drains finished in time, the store confirmed and every service returned `Ok` after the broadcast unaborted |
| DecisionIds.Counter.NextId | crates/rahi-kernel/src/lib.rs:721-727 | the id of the n-th call names the nonce, the node and n modulo 2^64 |
| DecisionIds.AnIdIs | crates/rahi-kernel/src/lib.rs:721-727 | an id is its four parts between colons, the number padded with zeros to twelve digits |
| DecisionIds.TheNonceIsTheTail | crates/rahi-kernel/src/lib.rs:731-738 | the nonce is the last sixteen characters of the head, or all of a shorter one |
| DecisionIds.IdsAreDistinct | crates/rahi-kernel/src/lib.rs:710-727 | ids are equal only for the same nonce, node and number, whatever the nonces look like |
| DecisionIds.OneKernelRepeatsOnlyByWrapping | crates/rahi-kernel/src/lib.rs:721-727 | one kernel mints 2^64 distinct ids before it repeats one |
| DecisionIds.DenialReadsBack | crates/rahi-edge/src/error.rs:47-53 | parsing `id: reason` gives the id back for every reason, for precisely the nonces without white space |
| DecisionIds.ADenialHasAnIdIff | crates/rahi-edge/src/error.rs:47-53 | an id is read from a message exactly when the message begins with it, a colon and a space, and it has a colon of its own and no white space |
| NativeClients.ForClient | crates/rahi-idp/src/native.rs:87-102 | gives the base scopes first, then exactly the declared ones beyond them, each once and in the order they are first declared |
| NativeClients.ScopesOfClient | crates/rahi-idp/src/native.rs:87-102 | so are the scopes every declared client is provisioned with |
| NativeLaws.SettingsAreTheClients | crates/rahi-idp/src/native.rs:87-102 | the id, flows and redirects are the client's and the audience and lifetime the caller's |
| NativeLaws.DeclaredIff | crates/rahi-idp/src/native.rs:106-112 | a scope is declared exactly when the settings hold it and it is not one of the three base scopes |
| NativeClients.Provision | crates/rahi-idp/src/native.rs:226-299 | one pass leaves the IdP as settling each declared client in turn does, and reports for each, in order, whether it was new and which scopes it lacked |
| NativeClients.ProvisionOne | crates/rahi-idp/src/native.rs:243-296 | one client's turn creates what is missing, writes only on a mismatch, and reports what it found |
| NativeClients.ProvisionScopes | crates/rahi-idp/src/native.rs:246-254 | creates and reports exactly the declared scopes the IdP lacked, once each and in order |
| NativeLaws.NoMismatchIff | crates/rahi-idp/src/native.rs:172-210 | there is no mismatch exactly for an object with the fixed flags, algorithms, challenge and lifetime, whose five lists hold the settings' values as sets |
| NativeLaws.SettledIff | crates/rahi-idp/src/native.rs:213-218 | a client is settled exactly when its document conforms so and each of its scopes beyond the base ones exists |
| NativeLaws.MissingIs | crates/rahi-idp/src/native.rs:246-254 | the scopes created are exactly the declared ones the IdP lacked, once each and in order |
| NativeLaws.ANewClientIsNamed | crates/rahi-idp/src/native.rs:121-128 | a client created bears its id as its name |
| NativeLaws.UpdateHasNoMismatch | crates/rahi-idp/src/native.rs:132-210 | what an update sends has no mismatch, for exactly the documents that are objects |
| NativeLaws.UpdateKeepsTheRest | crates/rahi-idp/src/native.rs:132-162 | and keeps every field it does not fix |
| NativeLaws.PassSettles | crates/rahi-idp/src/native.rs:226-299 | over distinct clients a pass settles each, creates each missing scope once and touches no other client |
| NativeLaws.PassConforms | crates/rahi-idp/src/native.rs:226-299 | after a pass every declared client's document conforms in those fields and its scopes exist |
| NativeLaws.SecondPassWritesNothing | crates/rahi-idp/src/native.rs:226-299 | a second pass writes nothing |

## Left out

- The store client, Raft and SQLite: transactions are atomic and reads linearizable; a transaction may be decided late
  or never.
- Signatures, hashing and token cryptography: hashes are injective, and a token's signature, key and issuer are one
  oracle bit.
- Every sealer follows one policy, an archive write that fails is a sealer that never commits, and bodies are not
  modelled; neither are writers that insert no identity row, `reindex`, and the epochs and manifests a segment header
  names.
- The head query and the two counts around it are one read; the test seams between them are not modelled.
- A commit that reports other than one changed row, which the source turns into an integrity error.
- A queued decision is its id: payloads, wall time and the observers' own code are not modelled, and the four
  process-wide counters do not wrap.
- Ceiling.Validate: leaves out the schema version, policy and auth rules that the source's `validate` also runs,
  because they bound single fields and the ceiling does not read them.
- The gate library around the grant check, and its optional secrets check.
- The scanner works on characters, with ASCII delimiters; walking directories and sorting the result are left out, and
  the reported call sites are a set.
- Bearer routes, the login and session paths, and the grant a subject revocation ends at the IdP.
- Stream wake-ups, keep-alive, first-byte timeouts, metrics and the admission check before `attach`, which is no hard
  ceiling.
- Durations: deadlines are steps that may happen once armed, and stop phases are not timed.
- Provisioning requests that fail: a pass cut short is a prefix of the modelled one, and a later pass settles from any
  state.
