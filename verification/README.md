# Alert and watcher registries, verified

A Dafny model of two Soroban contracts that watch other contracts: the AlertRegistry, which stores alert
configurations and finds them again through hand-maintained indexes, and the WatcherRegistry, which keeps
the set of nodes allowed to query it; with them the per-owner registration rate limiter.

`dafny verify dfyconfig.toml` checks the whole project.

## How it is built

**The stored state.** The AlertRegistry keeps a record `Alert(id)`, a second copy of its `active` field
`AlertActive(id)`, one list of ids per owner and one per target, and a counter. Each persistent entry carries
the last ledger at which it can be read (`Host.Entry`). `extend_ttl(k, T, T)` makes that the maximum of its old
value and `now + T` and traps on an absent key; `set` keeps the lifetime of an existing key. An expired entry
reads as absent and is never restored, so the step `Advance` drops it. Records, flags and lists expire independently.

**Calls as plans.** `AlertModel.Plan` says which error a call returns, or which storage effects it performs in
order; `Do` gives each effect its meaning; `Exec` is the state as the call leaves it; `Apply` adds the host's
rollback of a call that returned an error; `Run` is a whole history of calls, admin changes and passing time.

**Contracts as classes.** `AlertRegistry`, `WatcherRegistry` and `RateLimiter` hold the stored entries as fields.
Their methods have the loops and the order of checks of the source and are proved against `Exec` (for the
limiter, against the history of calls): same result, same error, same new state, also after an error.

**Where the main results are.** Index agreement and queries: `AlertInvariant`, `Refinement`. Counting and ids:
`Accounting`. What the event log tells: `Accounting`, `Replay`. The cap: `Cap`. Lifetimes: `Lease`, `Flags`. Incremental
sync: `Sync`. Batches: `Batch`. Webhook rotation: `Mailbox`, `Hashes`. The pause flag: `Pause`. Paged queries:
`Paging`. Rate limiter: `RateLimiter.dfy`. Watchers: `WatcherProofs`, `WatcherLaws`.

**Laws over all calls.** Independently of `Plan` and `Do`, one law per kind of stored data says what every successful
call leaves of it: fields of records (`Fields`, `Enrolment`), lifetimes (`Lifetimes`), lists, flags, settings and events
(`Entries`), and which calls fail with which error (`Refusals`); for the watcher registry all of these are in
`WatcherLaws`. `Rows` and `Loops` hold the steps towards them.

**Bounds taken from the host.** A host vector is at most `u32::MAX` long; the paging lemmas and `Cap.CapSafety`
name that bound for the list they are about. The id counter is exhausted at `u64::MAX`, as in the source.

## Where the code says something else than its comments

The model follows the code.

- `docs/ttl.md` says that reads do not extend a lifetime; `get_alert` extends the record, and only the record, exactly
  when less than a default lifetime is left (`Lease.ReadWritesExactly`). `Lease.ReadingCanOrphan` is a history where
  this leaves a live alert out of both indexes.
- `bulk_renew_ttl` says that expired ids are silently skipped; a live alert whose flag or list has expired makes
  the whole call trap. `Lease.BulkRenewExactly` is the exact condition.
- The comment in `bump_alert` says that the owner index cannot expire while the alert is live. That holds for the
  ledgers a bump has paid for (`Lease.KeeperLease`); in general a list keeps all its live alerts exactly as long as it
  outlives their records (`Refinement.QueriesAreScansExactly`), and live alerts lost from it are not counted against
  the owner's limit (`Cap.AtTheCapExactly`).
- `get_alert_active` says that `None` means the alert is gone; the flag may expire before the record. An answer is never
  wrong (`Sync.FlagNeverLies`), and None means gone until a call extends the record alone (`Flags.PairedExactly`,
  `Flags.PartingShows`).
- The rate limiter allows at most 10 registrations per window, as documented, when a window is counted from its
  opening (`WindowHolds`). It is not a sliding window: 100 ledgers that a new window divides can see up to 19
  (`SlidingWindow`, `BoundIsMet`), and without such a division they see at most 10 (`UndividedSpan`).
- A page limit above 50 is clamped, so a client that steps by the limit it asked for skips records
  (`Paging.PagesTileExactly`).
- A limit of `u32::MAX` rejects nobody, because the sum it is compared with saturates (`Cap.AdmitsExactly`).
- `set_paused` says that every mutating entry point stops. `Pause.PauseExactly` says which do and which do not;
  `Pause.RotationIgnoresPause` changes a webhook hash on a paused contract.
- `propose_webhook` does not check the length of the hash, so a stored hash need not be 64 long (`Hashes.EmptyHash`).
  It is, exactly when the proposals were (`Hashes.LengthsExactly`, `Hashes.OddHashExactly`).
- `update_target_contract` and `deactivate_all_alerts` publish no event, so an indexer can be wrong about the target and
  the `active` field; `Replay.FactReplay` says exactly when.
- `get_active_alert_count` counts live alerts, active or not (`Accounting.CountIsActiveExactly`).
- WatcherRegistry's `register_watcher` is two versions merged into one body that does not compile. The model follows
  its doc comment and signature, with the membership test of `batch_register_watchers`.
- `transfer_admin` returns `MultipleAdminsExist`, which the error enumeration does not list.

## Model

A row that names an entry point of a class stands for a contract that ties the result, the error and the whole new
state to the state machine, also where an error is returned half-way, and that keeps the invariant of
`AlertInvariant` or `WatcherProofs`; its cell says what is particular to that entry point.

| member | source | states |
|---|---|---|
| AlertInvariant.RunKeepsInv | contracts/alert-registry/src/lib.rs:1780-1863 | Over every history, with any entry expiring at any moment: no list is empty or repeats an id, a live id is listed under its own owner and target or nowhere, the flag copy agrees with its record and does not outlive it, dates are in order, and the log announced exactly ids 0 to NEXT_ID - 1 |
| AlertInvariant.ExecKeepsInv | contracts/alert-registry/src/lib.rs:463-1447 | The raw writes of every entry point keep that invariant even when the entry point returns an error, without counting on the rollback |
| AlertInvariant.DuplicateUnreachable | contracts/alert-registry/src/lib.rs:1780-1813 | `DuplicateAlertId` cannot be returned by any entry point, even after lists expired and were recreated |
| AlertInvariant.RetargetKeeps | contracts/alert-registry/src/lib.rs:1295-1328 | Moving an id between two target lists keeps the invariant and every complete listing, and fails only for an id that is not live; old and new target may coincide and either list may have expired |
| AlertInvariant.ReassignKeeps | contracts/alert-registry/src/lib.rs:1414-1447 | The same for moving an id between two owner lists |
| IndexLists.DropKeeps | contracts/alert-registry/src/lib.rs:1816-1863 | Dropping an id from the list it belongs to leaves every other id listed as before, leaves this one listed nowhere, and never leaves an empty list behind |
| IndexLists.AppendKeeps | contracts/alert-registry/src/lib.rs:1780-1813 | Appending an unlisted id makes it listed exactly there and keeps every list duplicate-free |
| IndexLists.PruneKeeps | contracts/alert-registry/src/lib.rs:1625-1643 | Lazy pruning drops only ids that are not live, stores no empty list, and costs no address its complete listing |
| IndexLists.SurvivorsKeep | contracts/alert-registry/src/lib.rs:1764-1777 | Records and lists expire independently without an index ever naming a live id in the wrong place; an address with a complete list keeps it complete if and only if the list outlives its records, whatever other lists do |
| Refinement.EveryQueryIsAScan | contracts/alert-registry/src/lib.rs:1126-1217 | In every state of every history, from any call on at which the list of `a` is complete (as at deployment) and as long as that one list outlives the records of `a`: ids and records answered for `a`, by owner or by target, under any filter on live ids, are a permutation of filtering a scan of ids 0 to NEXT_ID - 1; no stored list is empty or repeats an id. Other addresses may lose records and lists at any moment |
| Refinement.QueriesAreScansExactly | contracts/alert-registry/src/lib.rs:1126-1137 | The exact condition: the ids-only query of `a` answers the scan throughout a history if and only if at every advance of the ledger the list of `a` outlives the records of `a` |
| Refinement.AnswersExactly | contracts/alert-registry/src/lib.rs:1546-1555 | For one state: the ids-only answer is the scan if and only if every live id of `a` is in its list |
| Refinement.EveryLiveIdListedOnce | contracts/alert-registry/src/lib.rs:1780-1863 | In the same histories a live id of `a` occurs exactly once in its own list and in no other list of that index |
| Refinement.RunKeepsListed | contracts/alert-registry/src/lib.rs:1608-1649 | The list of `a` stays complete over a run if and only if it outlives the records of `a` at every advance; calls, including lazy pruning, never cost a listing |
| Refinement.QueryIsScan | contracts/alert-registry/src/lib.rs:1869-1895 | For one state in which the list of `a` is complete: ids-only, plain, active-only and recently-updated queries against the filtered scan, in either index |
| Refinement.QueriesAnswer | contracts/alert-registry/src/lib.rs:1869-1895 | With a complete list, the plain, active-only and recently-updated queries of `a` answer exactly the records stored for `a`, those of them that are active, and those updated at `since` or later |
| Accounting.EveryRunConserves | contracts/alert-registry/src/lib.rs:1126-1137 | The live ids summed over all lists of an index equal the number of live records in every state of a history if and only if every list outlives its records |
| Accounting.Conservation | contracts/alert-registry/src/lib.rs:1126-1137 | For one state: the sum never counts too many, and counts every live record once if and only if every list is complete |
| Accounting.CountIsOwned | contracts/alert-registry/src/lib.rs:1505-1515 | `get_active_alert_count` never exceeds the owner's live records, and equals their number if and only if the owner's list is complete |
| Accounting.CountIsActiveExactly | contracts/alert-registry/src/lib.rs:1501-1515 | It equals the number of alerts whose `active` field is set if and only if all the owner's alerts have it set |
| Accounting.EveryIdAccountedFor | contracts/alert-registry/src/lib.rs:1494-1499 | In every history NEXT_ID equals live alerts plus removals announced plus records expired |
| Accounting.OwnershipReplay | contracts/alert-registry/src/lib.rs:1704-1737 | Folding the register, remove (both arities) and transfer events gives the owner of every live alert, and exactly the id-to-owner map if no record expired |
| Replay.FactReplay | contracts/alert-registry/src/lib.rs:1295-1328 | Folding register, update and remove events gives the target a live alert was registered with and an `active` field: the target is wrong if and only if the last retargeting took it elsewhere, the field if and only if `deactivate_all_alerts` switched it off and no call has announced it since; the field is never wrong in saying off |
| Replay.CallStep | contracts/alert-registry/src/lib.rs:615-699 | What each call does to target, `active` field and the log of them, for every alert live afterwards |
| Accounting.FreshIds | contracts/alert-registry/src/lib.rs:1745-1761 | Registrations announce 0, 1, 2, ... across any interleaving, and every stored or listed id is below NEXT_ID |
| Cap.AdmitsExactly | contracts/alert-registry/src/lib.rs:1614-1649 | For an owner whose list is complete, the admission check passes if and only if the limit is 0 or `u32::MAX` or live alerts plus newcomers stay within it; the two exceptions are the sentinel and the saturating sum |
| Cap.AtTheCapExactly | contracts/alert-registry/src/lib.rs:1614-1649 | An owner exactly at the cap is refused one more if and only if their list is complete; live alerts that the list has lost are not counted |
| Cap.ApplyCap | contracts/alert-registry/src/lib.rs:463-591 | No single call lifts an owner's live alerts above the larger of the limit and what they held before |
| Cap.CapSafety | contracts/alert-registry/src/lib.rs:1608-1649 | While the limit stays at L > 0 and the owner's own list outlives their records, the owner's live alerts never exceed the larger of L and their number when it was set, across registrations, batches, incoming transfers, pruning and any expiry elsewhere |
| Lease.KeeperLease | contracts/alert-registry/src/lib.rs:996-1048 | After a successful `bump_alert(id, ttl)` at ledger n with id in both lists, up to ledger n + min(ttl, MAX_TTL) the alert is live, both id queries list it and its flag answers correctly, whatever else is called, unless a call removes, retargets or gives away this alert |
| Lease.RunKeepsLease | contracts/alert-registry/src/lib.rs:1629-1643 | The lease itself as an invariant of runs: all four entries outlive the deadline through any rewriting or pruning of the lists |
| Lease.BumpSucceedsExactly | contracts/alert-registry/src/lib.rs:996-1031 | `bump_alert` succeeds if and only if the contract is not paused and the record, its flag and both of its lists are readable |
| Lease.BulkRenewExactly | contracts/alert-registry/src/lib.rs:1071-1105 | `bulk_renew_ttl` succeeds if and only if there are at most 50 ids and every live one has a readable flag and two readable lists; ids that are not live are skipped |
| Lease.ReadWritesExactly | contracts/alert-registry/src/lib.rs:1222-1230 | A read leaves the state as it was if and only if the alert is not live or its record has a default lifetime left |
| Lifetimes.BumpExtends | contracts/alert-registry/src/lib.rs:996-1048 | The record, its flag and both of its lists end at exactly max(old, n + min(ttl, MAX_TTL)); every other entry and everything stored is as before; one bump event |
| Lifetimes.BumpedUntil | contracts/alert-registry/src/lib.rs:996-1031 | If nothing but time follows, the alert, its flag and its two lists are readable exactly through that ledger |
| Lifetimes.BulkRenewExtends | contracts/alert-registry/src/lib.rs:1071-1105 | The same with the default lifetime for every live alert among the ids, and for nothing else |
| Lifetimes.LifetimesExactly | contracts/alert-registry/src/lib.rs:463-1447 | For every successful call, every record, flag and list: the exact ledger through which it is readable afterwards, including lists that a call deletes and writes anew |
| Lease.ReadingCanOrphan | contracts/alert-registry/src/lib.rs:1222-1230 | A concrete history in which a read keeps only the record alive: the alert is live but in neither index, its flag is gone, `bump_alert` can no longer renew it and `bulk_renew_ttl` fails on it |
| Sync.SyncIsComplete | contracts/alert-registry/src/lib.rs:1353-1373 | For any run from S1 to S2, patching the records dated since the time of S1 over the still-live part of the S1 picture gives the S2 picture; ids come out in ascending order |
| Sync.EffectStamps | contracts/alert-registry/src/lib.rs:615-643 | No write changes or creates a record without stamping it with the current time |
| Sync.DatesInOrder | contracts/alert-registry/src/lib.rs:484-497 | `created_at <= updated_at <= now` for every live record of every reachable state |
| Sync.FlagNeverLies | contracts/alert-registry/src/lib.rs:1235-1239 | In every reachable state a readable flag belongs to a live record, equals its `active` field, and expires no later |
| Flags.PairedExactly | contracts/alert-registry/src/lib.rs:1222-1239 | Over any history the flag of a live alert is stored exactly as long as its record if and only if no call that extends the record alone (a read, a webhook, label or tags update, a retargeting, a transfer) succeeds while the record has less than a default lifetime left |
| Flags.NoneMeansGone | contracts/alert-registry/src/lib.rs:1232-1239 | In such a history `get_alert_active` answers None if and only if the alert is gone |
| Flags.PartingShows | contracts/alert-registry/src/lib.rs:1232-1239 | Otherwise, and only then, the passing of time alone leads to a live alert for which it answers None |
| Flags.PartedExactly | contracts/alert-registry/src/lib.rs:615-643 | Which single calls part the two lifetimes, exactly |
| Batch.BatchEqualsSequence | contracts/alert-registry/src/lib.rs:536-591 | A batch of 1 to 50 inputs succeeds if and only if registering them one by one does, and both leave the same records, flags, lists with order and lifetimes, counter and events |
| Batch.BatchExactly | contracts/alert-registry/src/lib.rs:544-563 | The exact condition, on the state before the call: not paused, every input valid, room after pruning, and ids left in u64 |
| Batch.NoFailureMidway | contracts/alert-registry/src/lib.rs:565-590 | Once a batch is admitted, nothing but the exhaustion of the u64 counter can stop it |
| Enrolment.RegisterStores | contracts/alert-registry/src/lib.rs:481-515 | Field by field what a registration stores under the old counter: its arguments, both dates, active, no pending hash, the default lifetime, the flag and the event |
| Enrolment.BatchStores | contracts/alert-registry/src/lib.rs:565-590 | The same for input i under the i-th id from the old counter on, without tags |
| Fields.CallIsLawful | contracts/alert-registry/src/lib.rs:463-1447 | For every successful call and every id: whether it is live afterwards, and each of the ten fields of its record, which only the call made for it may change and only to its argument |
| Fields.LastGivenHolds | contracts/alert-registry/src/lib.rs:615-699 | Over any history, name, rules, tags, owner, target, active flag and dates of a live alert are what the last call to give them anything gave, or else its registration |
| Entries.ListsExactly | contracts/alert-registry/src/lib.rs:1780-1863 | Every owner list and every target list after every successful call, with order and pruning |
| Entries.FlagsExactly | contracts/alert-registry/src/lib.rs:499-506 | Which flags are stored after every successful call |
| Entries.RecordedExactly | contracts/alert-registry/src/lib.rs:510-513 | Counter, limit, pause flag, admins, clock and exactly the events published, for every successful call |
| Loops.DeactivateAllSwitchesOff | contracts/alert-registry/src/lib.rs:1251-1281 | Not paused, the call cannot fail; it switches off exactly the listed live active alerts, record and flag alike, and changes nothing else |
| Refusals.RefusedExactly | contracts/alert-registry/src/lib.rs:463-1447 | Every call fails if and only if it has a fault, and with the first of its faults in source order, caps, missing lists and the spent counter included |
| Mailbox.StepRefinesMailbox | contracts/alert-registry/src/lib.rs:712-867 | Every call moves the stored and the pending hash of every alert exactly as a one-slot mailbox does; only `update_webhook` and `confirm_webhook` change the stored hash, and a new alert starts with an empty slot |
| Mailbox.PendingIsLatestProposal | contracts/alert-registry/src/lib.rs:778-810 | In every history the pending hash is that of the latest successful proposal since the last confirm, or absent when there is none, across hash updates and transfers |
| Mailbox.ConfirmInstallsLatest | contracts/alert-registry/src/lib.rs:830-867 | A successful confirm installs the hash of that latest proposal and empties the slot |
| Mailbox.ConfirmExactly | contracts/alert-registry/src/lib.rs:836-852 | For a live alert and its owner, confirm fails, with `NoPendingWebhook`, if and only if nothing is pending |
| Hashes.LengthsExactly | contracts/alert-registry/src/lib.rs:778-810 | Over any history all stored and pending hashes are 64 characters long throughout if and only if every successful proposal was |
| Hashes.OddHashExactly | contracts/alert-registry/src/lib.rs:830-867 | A stored hash is not 64 characters long if and only if the last call that installed one for that alert was a confirm of a proposal of another length |
| Hashes.EmptyHash | contracts/alert-registry/src/lib.rs:778-867 | The owner of any live alert can make the stored hash the empty string |
| Pause.PauseExactly | contracts/alert-registry/src/lib.rs:384-399 | A call is turned away as paused if and only if the flag is set and the call is none of: the admin switch of one alert, propose, confirm, bulk renewal, `get_alert`, the settings, the environment; nothing has been written then |
| Pause.PausedRunIsStill | contracts/alert-registry/src/lib.rs:1520-1525 | While only the other calls are made, a paused contract does not change at all |
| Pause.RotationIgnoresPause | contracts/alert-registry/src/lib.rs:778-867 | On a paused contract the owner of any live alert can still rotate its hash to any string |
| Paging.ConfigPagesTile | contracts/alert-registry/src/lib.rs:1901-1921 | For a limit of 1 to 50 the pages at 0, limit, 2 * limit, ... put end to end are the full answer, although each page slices first and filters afterwards |
| Paging.PagesTileExactly | contracts/alert-registry/src/lib.rs:1153-1169 | Stepping by the limit one asked for gives the whole list if and only if the limit is at most 50 or the list fits one page of 50; with u32 saturation at every offset |
| Paging.PageIsWindow | contracts/alert-registry/src/lib.rs:1910-1913 | Saturation of offset plus limit is never visible in a page |
| Paging.UpdatedPagesTile | contracts/alert-registry/src/lib.rs:1457-1486 | The pages of the incremental query at u32 offsets 0, limit, 2 * limit, ... put end to end are the whole filtered list, for every non-zero u32 limit |
| Validation.ValidRulesExactly | contracts/alert-registry/src/lib.rs:1659-1691 | A rule list is accepted if and only if it is a non-empty list of distinct known descriptors, so never more than four |
| Validation.RuleErrorExactly | contracts/alert-registry/src/lib.rs:1659-1691 | The error of a bad rule list: empty, then too long, then that of its first bad rule, an unknown descriptor before a repetition |
| Validation.InputErrorExactly | contracts/alert-registry/src/lib.rs:1587-1599 | Hash, then name, then rules; at most 10 tags of at most 32 bytes, the number checked first |
| AlertRegistryContract.AlertRegistry.RegisterAlert | contracts/alert-registry/src/lib.rs:463-516 | Checks in source order, then pruning, counter, record, flag, both lists and the event; returns the old counter value; on an error says what was already written |
| AlertRegistryContract.AlertRegistry.BatchRegisterAlerts | contracts/alert-registry/src/lib.rs:536-591 | The ids returned are consecutive from the old counter, and state and error are those of the modelled batch |
| AlertRegistryContract.AlertRegistry.SetAlertActiveByAdmin | contracts/alert-registry/src/lib.rs:615-643 | Works while paused; record and flag change together |
| AlertRegistryContract.AlertRegistry.UpdateAlert | contracts/alert-registry/src/lib.rs:650-699 | Record, flag and both list lifetimes; traps if a list has expired |
| AlertRegistryContract.AlertRegistry.UpdateWebhook | contracts/alert-registry/src/lib.rs:712-755 | Replaces the live hash and leaves a pending one alone |
| AlertRegistryContract.AlertRegistry.ProposeWebhook | contracts/alert-registry/src/lib.rs:778-810 | No pause check and no length check |
| AlertRegistryContract.AlertRegistry.ConfirmWebhook | contracts/alert-registry/src/lib.rs:830-867 | Promotes the pending hash, or fails with `NoPendingWebhook` |
| AlertRegistryContract.AlertRegistry.UpdateLabel | contracts/alert-registry/src/lib.rs:885-918 | The label is checked before the alert is looked up |
| AlertRegistryContract.AlertRegistry.UpdateTags | contracts/alert-registry/src/lib.rs:1379-1405 | Extends only the record |
| AlertRegistryContract.AlertRegistry.RemoveAlert | contracts/alert-registry/src/lib.rs:927-944 | Record, flag and both list entries go; the two-field event is published |
| AlertRegistryContract.AlertRegistry.RemoveAlertByAdmin | contracts/alert-registry/src/lib.rs:955-973 | The same with the three-field event |
| AlertRegistryContract.AlertRegistry.UpdateTargetContract | contracts/alert-registry/src/lib.rs:1295-1328 | Record rewritten, id moved between target lists, no event |
| AlertRegistryContract.AlertRegistry.TransferAlertOwnership | contracts/alert-registry/src/lib.rs:1414-1447 | A transfer to the owner itself does nothing; otherwise the cap check for the new owner, both lists, the record, the event |
| AlertRegistryContract.AlertRegistry.BumpAlert | contracts/alert-registry/src/lib.rs:996-1048 | Extends all four entries by the clamped ttl, or stops at the first one missing |
| AlertRegistryContract.AlertRegistry.BulkRenewTtl | contracts/alert-registry/src/lib.rs:1071-1105 | Returns the number of ids in the argument that were live, repetitions counted |
| AlertRegistryContract.AlertRegistry.GetAlert | contracts/alert-registry/src/lib.rs:1222-1230 | Answers the record and extends only the record |
| AlertRegistryContract.AlertRegistry.GetAlertActive | contracts/alert-registry/src/lib.rs:1235-1239 | An answer is the `active` field of a live record |
| AlertRegistryContract.AlertRegistry.DeactivateAllAlerts | contracts/alert-registry/src/lib.rs:1251-1281 | Returns the number of listed alerts that were live and active before the call; no event |
| AlertRegistryContract.AlertRegistry.SetPerOwnerAlertLimit | contracts/alert-registry/src/lib.rs:367-382 | Only an admin; the limit and its event |
| AlertRegistryContract.AlertRegistry.SetPaused | contracts/alert-registry/src/lib.rs:388-399 | Only an admin; the flag and its event |
| AlertRegistryContract.AlertRegistry.AssertPerOwnerLimitFor | contracts/alert-registry/src/lib.rs:1614-1649 | The pruning loop against the filter on live ids, with the list rewritten only if something was pruned |
| AlertRegistryContract.AlertRegistry.RemoveFromOwnerIndex | contracts/alert-registry/src/lib.rs:1816-1838 | The loop leaves the list without the id, in order, and deletes the key when nothing is left |
| AlertRegistryContract.AlertRegistry.PushContractIndex | contracts/alert-registry/src/lib.rs:1798-1813 | Appends exactly when the id is not in the list yet |
| AlertRegistryContract.AlertRegistry.ValidateRules | contracts/alert-registry/src/lib.rs:1659-1680 | The nested loops report the first fault in rule order, an unknown descriptor before a duplicate |
| AlertRegistryContract.AlertRegistry.LiveIds | contracts/alert-registry/src/lib.rs:1546-1555 | The loop keeps exactly the live ids, in order |
| AlertRegistryContract.AlertRegistry.ConfigsForIds | contracts/alert-registry/src/lib.rs:1869-1878 | The records of exactly the live ids, in index order |
| AlertRegistryContract.AlertRegistry.ActiveConfigsForIds | contracts/alert-registry/src/lib.rs:1884-1895 | The records of exactly the live and active ids, in index order |
| AlertRegistryContract.AlertRegistry.ConfigsPaginated | contracts/alert-registry/src/lib.rs:1901-1921 | A page of ids first, readable records of it second |
| AlertRegistryContract.AlertRegistry.GetAlertsByOwner | contracts/alert-registry/src/lib.rs:1177-1185 | A permutation of the filtered full scan whenever every live id is listed |
| AlertRegistryContract.AlertRegistry.GetAlertsForContract | contracts/alert-registry/src/lib.rs:1113-1121 | The same by target |
| AlertRegistryContract.AlertRegistry.GetActiveAlertsPaginated | contracts/alert-registry/src/lib.rs:1153-1169 | The page is cut out of the filtered list |
| AlertRegistryContract.AlertRegistry.GetAlertsModifiedSince | contracts/alert-registry/src/lib.rs:1353-1373 | The records of the ids of `Sync.SyncIsComplete`, in id order |
| AlertRegistryContract.AlertRegistry.GetAlertsUpdatedSince | contracts/alert-registry/src/lib.rs:1457-1486 | The skip-and-take loop with its early break answers elements offset to offset + limit of the whole filtered list |
| AlertRegistryContract.AlertRegistry.GetActiveAlertCount | contracts/alert-registry/src/lib.rs:1505-1515 | The loop counts the live records of the owner whenever every live id is listed |
| RateLimiterContract.SlidingWindow | contracts/alert-registry/src/storage.rs:301-331 | Any 100 consecutive ledgers contain at most 19 accepted calls of one owner, for any nondecreasing ledgers, pauses and other owners |
| RateLimiterContract.AcceptedExactly | contracts/alert-registry/src/storage.rs:301-331 | In terms of the calls accepted before: an unpaused call is accepted if and only if no window of its owner opened in the last 100 ledgers or fewer than 10 of the calls of its owner were accepted since the latest one opened |
| RateLimiterContract.StoredIsTaken | contracts/alert-registry/src/storage.rs:309-331 | The stored pair is the ledger of the latest opening and the number of calls accepted since |
| RateLimiterContract.WindowHolds | contracts/alert-registry/src/types.rs:7-14 | The documented limit: in the 100 ledgers from the opening of a window on, at most 10 calls of its owner are accepted |
| RateLimiterContract.UndividedSpan | contracts/alert-registry/src/storage.rs:293-331 | Any 100 consecutive ledgers that no new window of the owner divides see at most 10 accepted calls |
| RateLimiterContract.BoundIsMet | contracts/alert-registry/src/storage.rs:301-331 | A concrete burst of 20 calls gets 19 accepted within 100 ledgers that a new window divides, so 19 cannot be lowered |
| RateLimiterContract.ExpiryIsInvisible | contracts/alert-registry/src/storage.rs:306-331 | The limiter whose entries expire gives the same verdict on every call, and the same pair after every accepted one, as one whose entries never expire |
| RateLimiterContract.JudgeKeepsBound | contracts/alert-registry/src/storage.rs:315-325 | How one call moves the pair and the number of accepted calls seen by a span of ledgers |
| RateLimiterContract.RateLimiter.CheckRateLimit | contracts/alert-registry/src/storage.rs:301-331 | In place and with expiring entries: accepts exactly what the expiry-free limiter accepts on the same history, a refusal changes nothing, and the sliding bound holds afterwards |
| WatcherProofs.EveryRunIsConsistent | contracts/watcher-registry/src/lib.rs:226-451 | In every reachable state the list is duplicate-free and at most 1000 long, the cached count is its length, only listed watchers have an expiry, the admin set is never empty once set, and folding the events gives the membership |
| WatcherProofs.ReplaceConsistent | contracts/watcher-registry/src/lib.rs:340-403 | Replacing by a new address, by one already listed or by itself keeps all of that; the length drops by one exactly when the replacement was already listed and is another address |
| WatcherProofs.AnnounceMirrors | contracts/watcher-registry/src/lib.rs:437-448 | The events of a batch rebuild the extended membership |
| WatcherProofs.DismissEmpties | contracts/watcher-registry/src/lib.rs:547-568 | The events of a full clear leave nobody |
| WatcherProofs.ReadmittedExactly | contracts/watcher-registry/src/lib.rs:459-480 | A call turns an unauthorized address into an authorized one if and only if it renews a listed watcher ahead of time, replaces it by itself, or lists an absent one; registering a lapsed watcher again, alone or in a batch, does not |
| WatcherProofs.LapseIsPermanent | contracts/watcher-registry/src/lib.rs:515-525 | Over any history, `is_watcher_authorized` stays false until one of those calls succeeds |
| WatcherLaws.RevokedExactly | contracts/watcher-registry/src/lib.rs:282-322 | An authorized watcher loses its authorization if and only if a successful call removes it, replaces it by another, clears the list or renews it to a past expiry, or time passes its expiry |
| WatcherLaws.AuthorizationHolds | contracts/watcher-registry/src/lib.rs:515-525 | Over any history it stays authorized throughout if and only if none of these happens |
| WatcherLaws.MembersExactly | contracts/watcher-registry/src/lib.rs:226-451 | Who is listed after each successful call |
| WatcherLaws.OrderExactly | contracts/watcher-registry/src/lib.rs:282-403 | In which order |
| WatcherLaws.ExpiriesExactly | contracts/watcher-registry/src/lib.rs:716-725 | The expiry of every address after each successful call: renewal sets exactly the given one, and no other address is affected |
| WatcherLaws.BatchIsSequence | contracts/watcher-registry/src/lib.rs:415-451 | A successful batch leaves exactly what registering its members one by one, without expiry, leaves |
| WatcherLaws.SettingsExactly | contracts/watcher-registry/src/lib.rs:80-224 | The admins, the pause flag and the clock after each successful call |
| WatcherLaws.PublishedExactly | contracts/watcher-registry/src/lib.rs:226-568 | Exactly the events of each successful call |
| WatcherLaws.RefusedExactly | contracts/watcher-registry/src/lib.rs:744-755 | Every call fails if and only if it has a fault, and with the first: not initialized, not an admin, paused, then its own |
| WatcherRegistryContract.WatcherRegistry.Initialize | contracts/watcher-registry/src/lib.rs:80-97 | Only once |
| WatcherRegistryContract.WatcherRegistry.AddAdmin | contracts/watcher-registry/src/lib.rs:106-131 | Adding a present admin changes nothing and publishes nothing |
| WatcherRegistryContract.WatcherRegistry.RemoveAdmin | contracts/watcher-registry/src/lib.rs:147-184 | Never the last one; a self-removal is announced twice |
| WatcherRegistryContract.WatcherRegistry.TransferAdmin | contracts/watcher-registry/src/lib.rs:200-224 | Only while there is exactly one admin |
| WatcherRegistryContract.WatcherRegistry.SetPaused | contracts/watcher-registry/src/lib.rs:486-499 | Works while paused |
| WatcherRegistryContract.WatcherRegistry.RegisterWatcher | contracts/watcher-registry/src/lib.rs:226-266 | A present watcher keeps its expiry; a new one gets the given expiry, is counted and announced |
| WatcherRegistryContract.WatcherRegistry.RemoveWatcher | contracts/watcher-registry/src/lib.rs:282-322 | List, expiry, count and event, or `WatcherNotFound` and no change |
| WatcherRegistryContract.WatcherRegistry.ReplaceWatcher | contracts/watcher-registry/src/lib.rs:340-403 | The loops and the already-present case against the modelled replacement, with both events |
| WatcherRegistryContract.WatcherRegistry.BatchRegisterWatchers | contracts/watcher-registry/src/lib.rs:415-451 | Returns by how much the list grew; skips known and repeated addresses; all or nothing at the maximum |
| WatcherRegistryContract.WatcherRegistry.RenewWatcher | contracts/watcher-registry/src/lib.rs:459-480 | Sets or clears the expiry of a listed watcher only |
| WatcherRegistryContract.WatcherRegistry.ClearAllWatchers | contracts/watcher-registry/src/lib.rs:542-568 | One remove event per watcher in list order, then list, expiries and count are reset |
| WatcherRegistryContract.WatcherRegistry.IsWatcherAuthorized | contracts/watcher-registry/src/lib.rs:515-525 | Listed and, if it has an expiry, not past it |
| WatcherRegistryContract.WatcherRegistry.GetWatcherCount | contracts/watcher-registry/src/lib.rs:653-658 | The cached count is the number of members that the event log knows of |

## Left out

- Signatures: `require_auth` is taken to have succeeded; who may sign for an address is not modelled.
- The admin set of the AlertRegistry: `initialize`, `transfer_admin`, `add_admin`, `remove_admin` and the migration of the old single-admin format appear only as an arbitrary change of the set between calls; the WatcherRegistry's are modelled.
- Watcher gating of queries: the cross-contract call and `NotAWatcher`; the gated queries are modelled as they run once the gate is open.
- Instance storage lifetime: the counter, limit, pause flag and the WatcherRegistry's data are taken not to expire; so is the renewal of them.
- Archival and restoring of expired entries, fees, instruction budgets and XDR encoding.
- The persistent `NextId` key that `bump_alert` extends if present: nothing in lib.rs writes it.
- The test `limit < 1` in `set_per_owner_alert_limit`: it cannot be reached.
- Strings: byte length is the length of the sequence; characters are taken to be one byte each.
- The call of the rate limiter: lib.rs does not declare the file it is in, so it is a component of its own here, not a step of `register_alert`.
- Older copies of the contracts (`contract.rs`, `guards.rs`, `types.rs` and the rest of the `storage.rs` files): not compiled, and lib.rs differs from them.
- Watcher metadata: `WatcherInfo`, labels and `get_all_watchers_paginated` use types and constants that are not defined.
- Getters that read one entry, and aliases of modelled queries.
- The TypeScript bindings, the event listener, scripts and tests.
