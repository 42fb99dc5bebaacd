# Velnor control plane: a Dafny model

This project models the stateful core of Velnor, a host-side runner for CI jobs, and proves what
its parts promise over every input and every run.

- **Permit ledger** (`LedgerTypes`, `LedgerSpec`, `LedgerTables`, `PermitLedger`): the SQLite ledger
  that shares one host-wide budget of N jobs between two lanes and several processes. `LedgerSpec`
  says, for every call and every database (also one that breaks the invariant), what the next
  database and the answer are. The class `PermitLedger` works like the transactions do, on a copy
  that is committed or dropped, and is proved to compute exactly that. `LedgerRuns` closes the calls
  into runs: any calls, from any process, in the order the database serialised them.
  `LedgerAnswers` states over the rows themselves, for every ledger, when exactly each call succeeds
  and which rows it leaves. `LedgerLifecycle`, `LedgerReconcile`, `LedgerCapacity`, `LedgerQueue`,
  `LedgerFencing` and `LedgerRecovery` prove the invariant and the whole-run properties.
  `LegacyMigration` is the queue migration.
- **Trace2 reader** (`Trace2`, `Trace2Streams`): the one-pass parser of interleaved Git events.
- **Queries** (`Pagination`, `QueryAnswers`, `PageWalks`): selection, the sorted projection, its page
  tokens, and walks that follow them while others publish.
- **Streams** (`Logs`, `Events`): bounded buffers that clients resume with cursors.
- **Storage catalog** (`Catalog`, `CatalogRuns`, `StorageService`): garbage collection by reviewed
  plans.

`Common`, `Text`, `TextOrder` and `Sequences` hold shared vocabulary. `dafny verify dfyconfig.toml`
checks everything.

## Modelling decisions

- A call that fails inside a transaction is an answer together with an unchanged database.
- Minted tokens, clocks, process ids and the set of live processes are parameters. Freshness of
  tokens is assumed only where a lemma says so (`FreshArguments`); otherwise a duplicate token runs
  into the unique index and is an error.
- The order in which reconciliation scans the rows is a parameter; reports are sets.
- SHA-256, secret masking and the durable resource loader are functions or values from outside.
  Digests are only assumed to be free of `:` and, for page tokens, 64 characters long.
- The Trace2 reader starts from decoded lines.

## Properties that hold only under a condition

- A queue head is granted below capacity only if the clock does not read zero; at zero the
  "oldest" lookup can come back empty (`HeadIsGranted`, `LookupFailsOnlyAtTimeZero`; failing input
  `ClockZeroRefusesTheHead`).
- A publication is noticed by page tokens only while the generation counter has room
  (`PublicationIsDetected`; failing input `SaturatedWalkMixes`). An upsert fences a plan off only
  while the version counter has (`UpsertFencesThePlan`; failing input
  `SaturatedVersionDefeatsReview`), and plan names are unique only while the plan counter has
  (`NextNameRepeatsIff`; failing input `SaturatedNameIsReissued`).
- The module comment of the event stream promises that consumers who fall behind get a conflict. A
  watch from version 0 never does (`OneOverflowIsSilent`); the exact condition is in
  `WatchSkipsExactlyFromTheStart`.
- The plan that `plan_gc` returns may already be evicted (`NewPlanIsRetainedIff`; failing input
  `FullCatalogDropsItsNewPlan`).

## Model

| member | source | states |
|---|---|---|
| `LedgerRuns.StepRespects` | crates/velnor-control/src/permit_ledger.rs:706-2690 | Every call, with any arguments and on any ledger that satisfies the invariant, keeps unique sequences and tokens, coherent rows and `reconciled <= generation`, and moves every holder along the one life cycle. |
| `LedgerRuns.ReachableIsCoherent` | crates/velnor-control/src/permit_ledger.rs:1126-2690 | In every state reachable from the empty ledger each permit stands on granted or terminal demand of its own lane, and granted demand has its permit; so the repair of granted demand without a permit is never taken. |
| `LedgerRuns.TicketsAreForever` | crates/velnor-control/src/permit_ledger.rs:706-2315 | Over every run a queued demand keeps its lane, scope, first-seen time and sequence. |
| `LedgerRuns.ClosedStaysClosed` | crates/velnor-control/src/permit_ledger.rs:1126-2315 | Over every run closed demand stays closed; without a permit its row never changes and its holder is never granted again; with one, the only change of state left is terminal to cancelled, which gives the permit up. |
| `LedgerCapacity.OccupancyStep` | crates/velnor-control/src/permit_ledger.rs:1276-2690 | Only a grant adds a holder, exactly its own and only below N; only a release removes one, exactly its own; every other call keeps the set of holders. |
| `LedgerCapacity.OccupancyIsConserved` | crates/velnor-control/src/permit_ledger.rs:1276-2690 | In every run occupancy equals the initial occupancy plus grants minus releases. |
| `LedgerCapacity.GrantEndsWithinCapacity` | crates/velnor-control/src/permit_ledger.rs:1329-1405 | Whatever N was lowered to, a call that raises occupancy is a grant and ends with occupancy at most N. |
| `LedgerCapacity.CapacityIsNeverExceeded` | crates/velnor-control/src/permit_ledger.rs:936-1405 | With N never lowered, occupancy never exceeds N in any run. |
| `LedgerCapacity.ReconciledIffThisEpoch` | crates/velnor-control/src/permit_ledger.rs:977-1004 | The reconciled mark equals the generation exactly when a reconciliation committed and no epoch began since. |
| `LedgerCapacity.AdvertisedOnlyAfterReconciliation` | crates/velnor-control/src/permit_ledger.rs:1007-1015 | Free capacity is advertised if and only if N is set and a reconciliation committed since the latest epoch; it is then N minus occupancy, floored at zero. |
| `LedgerQueue.HeadExists` | crates/velnor-control/src/permit_ledger.rs:1363-1380 | Whenever some fresh eligible demand exists the admission query has exactly one answer. |
| `LedgerQueue.LookupFailsOnlyAtTimeZero` | crates/velnor-control/src/permit_ledger.rs:1341-1390 | Below capacity, an acquire with a minted or a staged token fails in the lookup exactly when the clock reads zero and nobody else is fresh. |
| `LedgerQueue.HeadIsGranted` | crates/velnor-control/src/permit_ledger.rs:1329-1405 | Below capacity, if some fresh eligible demand exists, the head's own acquire in the current epoch, with a minted or a staged token, is granted exactly when the clock does not read zero. |
| `LedgerQueue.StagedHeadIsGranted` | crates/velnor-control/src/permit_ledger.rs:1255-1274 | The same for the staged acquire of a Scale Set head. |
| `LedgerQueue.ClockZeroRefusesTheHead` | crates/velnor-control/src/permit_ledger.rs:1329-1390 | The failing input: one observed demand, N of 1 and an acquire at clock zero, and the head is refused with a storage error. |
| `LedgerQueue.GrantGoesToTheOldest` | crates/velnor-control/src/permit_ledger.rs:1363-1405 | A grant goes to a ticket strictly older, by first-seen time and then sequence, than that of every other fresh eligible demand. |
| `LedgerQueue.NewTicketIsLast` | crates/velnor-control/src/permit_ledger.rs:706-747 | A ticket issued by any call has a larger sequence than every ticket issued before. |
| `LedgerQueue.NoOvertaking` | crates/velnor-control/src/permit_ledger.rs:1337-1405 | While a demand stays eligible, and fresh whenever a rival acquires, every grant of the run goes to a strictly older ticket; a later arrival must have a strictly earlier first-seen time. |
| `LedgerFencing.WrongTokenChangesNothing` | crates/velnor-control/src/permit_ledger.rs:1704-2315 | A release, transition, retain or cleanup claim with a token that is not the row's leaves all permits and demands identical; only a cleanup claim for a holder without any permit may close its demand. |
| `LedgerFencing.RowChangesNeedAuthority` | crates/velnor-control/src/permit_ledger.rs:1422-2690 | A held row changes only for its token's owner, for a redelivery whose previous process is dead or let go, for the recovery claimant that names its exact pid and token, or in a reconciliation where nobody vouched for it. |
| `LedgerFencing.TokensComeFromArguments` | crates/velnor-control/src/permit_ledger.rs:1276-2690 | No call makes a token up: after any call every token on a row was on a row before or was minted, staged or rotated to by that call. |
| `LedgerFencing.RetiredTokenNeverReturns` | crates/velnor-control/src/permit_ledger.rs:1276-2690 | If callers hand in only tokens that were never on a row or are on one now, a token that left the table never reappears in any run. |
| `LedgerFencing.ReplacedTokenIsFenced` | crates/velnor-control/src/permit_ledger.rs:1422-2315 | Under the same promise about handed-in tokens, once adoption or rotation replaced a token, after any run no call that presents the old one changes a permit, nor a demand while its holder is held. |
| `LedgerRecovery.CleanupClaimExcludesAcquisition` | crates/velnor-control/src/permit_ledger.rs:1745-1798 | A cleanup claim that finds no row wins for good: in every continuation its holder has no permit and repeating the claim answers that the demand is closed and absent. |
| `LedgerRecovery.CleanupClaimLosesToHolder` | crates/velnor-control/src/permit_ledger.rs:1730-1744 | If a row with another token is there first, the claim says it is stale and changes nothing. |
| `LedgerRecovery.ClosedReleaseReplays` | crates/velnor-control/src/permit_ledger.rs:1874-1960 | After a Scale Set release to a closed target, in every continuation a replay finds it done without any change and reconciliation accepts the stage. |
| `LedgerRecovery.StagedAcquisitionReplays` | crates/velnor-control/src/permit_ledger.rs:1255-1328 | From a holder without a row, at every point of every run in which only the staged acquisition may grant it and nobody with authority over its row acts, before and after the commit, reconciliation accepts the stage; once the row is there, a replay returns the same token and an unchanged ledger. Such runs may hold replays, redeliveries, epochs, claims, refused takeovers and calls with other tokens. |
| `LedgerRecovery.StagedRotationIsAccepted` | crates/velnor-control/src/permit_ledger.rs:2463-2547 | From a row with the previous token, at every point of every run in which nobody with authority over the row acts except by this rotation, before and after the commit, reconciliation accepts the stage. |
| `LedgerRecovery.ClaimSurvives` | crates/velnor-control/src/permit_ledger.rs:861-922 | Over every run the generation only grows, and a recovery claim that its owner does not give up keeps its token through every takeover from a dead owner. |
| `LedgerRecovery.StagedRotationReplays` | crates/velnor-control/src/permit_ledger.rs:1516-1674 | After the rotation committed, and after any run without authority over the row in which the claim is not given up, whichever process owns the claim finds it already rotated, with an unchanged ledger. |
| `LedgerRecovery.CleaningSurvives` | crates/velnor-control/src/permit_ledger.rs:1800-2690 | A cleaning row keeps its state and token through every run that contains no release, recorded-failure or post-cleanup retention under its exact token, no adoption from a dead process, and no recovery rotation that goes through. |
| `LedgerReconcile.ReconcileOnCoherent` | crates/velnor-control/src/permit_ledger.rs:2393-2690 | Reconciliation succeeds exactly when each piece of evidence agrees with the recorded row and no holder is named twice; a failed one changes nothing; a successful one marks exactly the scanned, unattested, not cleaning rows uncertain and changes no demand. |
| `LedgerReconcile.ReconcilePartitionsHolders` | crates/velnor-control/src/permit_ledger.rs:2643-2690 | Recorded holders are partitioned into confirmed, marked uncertain and unobserved cleaning rows; confirmed and cleaning rows are untouched, marked ones keep token, lane and pid. |
| `LedgerAnswers.ConfigurationAnswers` | crates/velnor-control/src/permit_ledger.rs:936-993 | N is set, or set only if it was unset; an epoch is one more than the last; nothing else changes. |
| `LedgerAnswers.ClaimExcludesWhileOwnerLives` | crates/velnor-control/src/permit_ledger.rs:861-922 | The recovery claim is granted exactly if nobody holds it or its recorded owner is dead, a takeover keeping the token; while the owner lives every claim is refused with its pid and nothing changes. |
| `LedgerAnswers.ReleasingTheClaim` | crates/velnor-control/src/permit_ledger.rs:250-268 | The claim is given up exactly under its own token and pid. |
| `LedgerAnswers.ClaimIsExclusive` | crates/velnor-control/src/permit_ledger.rs:861-922 | Over every run in which the owner is alive at each claim and does not give it up, token and owner of the claim stay, so at most one live process holds it. |
| `LedgerAnswers.ObservationAnswers` | crates/velnor-control/src/permit_ledger.rs:1126-1183 | An observation is refused exactly for another lane; new demand is queued last, open demand refreshed, parked demand revived with its ticket, closed demand left alone. |
| `LedgerAnswers.ParkingAnswers` | crates/velnor-control/src/permit_ledger.rs:1191-1202 | Exactly eligible demand is parked, with its ticket. |
| `LedgerAnswers.CancellingAnswers` | crates/velnor-control/src/permit_ledger.rs:1207-1219 | Exactly eligible or parked demand without a row is cancelled. |
| `LedgerAnswers.AcquiredOnlyByTheBringer` | crates/velnor-control/src/permit_ledger.rs:1304-1328 | Whoever is answered with a token is answered with the one it brought; if there was a row, that row had this very token and nothing changed. |
| `LedgerAnswers.HeldRowAnswers` | crates/velnor-control/src/permit_ledger.rs:1304-1328 | A held row answers an acquire of its epoch with its token exactly if the stage presents that token and state on granted demand of its lane; otherwise that it is held, or the lane it is in. |
| `LedgerAnswers.GrantWritesTheRow` | crates/velnor-control/src/permit_ledger.rs:1363-1405 | A grant is below N, in the current epoch and under a token on no other row; the new row has the caller's lane, state, pid and token, and its demand is granted with its ticket. |
| `LedgerAnswers.RefusedAcquireMeans` | crates/velnor-control/src/permit_ledger.rs:1276-1375 | Without a row: stale, unconfigured, closed, full and wrong-lane answers are given exactly when each is the case. |
| `LedgerAnswers.RefusedAcquireLeaves` | crates/velnor-control/src/permit_ledger.rs:1276-1390 | Without a row: only full and deferred queue the demand; every other refusal changes nothing. |
| `LedgerAnswers.DeferredBehindAnOlder` | crates/velnor-control/src/permit_ledger.rs:1363-1390 | Deferred on a nonzero clock means that another eligible demand, refreshed within 300 seconds, has a strictly older ticket. |
| `LedgerAnswers.StagedAcquireAnswers` | crates/velnor-control/src/permit_ledger.rs:1255-1274 | The staged acquire refuses an empty token and otherwise is the common one for the Scale Set lane. |
| `LedgerAnswers.OwnershipIsExclusive` | crates/velnor-control/src/permit_ledger.rs:1276-1406 | Over every run in which nobody with authority acts on a held row, an acquire of its holder is answered with a token only if it presents the row's. |
| `LedgerAnswers.AdoptionAnswers` | crates/velnor-control/src/permit_ledger.rs:1422-1499 | A redelivery is adopted exactly in the current epoch, for a row of its lane whose recorded process is dead or let go, under a token on no other row; the row then has the new token, pid, state and generation and no recovery proof; each refusal is given exactly when it is the case. |
| `LedgerAnswers.AdoptionKeepsDemand` | crates/velnor-control/src/permit_ledger.rs:1474-1498 | On a coherent ledger adoption changes no demand. |
| `LedgerAnswers.RotationAnswers` | crates/velnor-control/src/permit_ledger.rs:1516-1674 | A rotation goes through exactly for the owner of the claim it names, in its epoch, from the named pid and token, to a token on no other row; the row then carries the proof; it is found done exactly by that proof. |
| `LedgerAnswers.TransitionAnswers` | crates/velnor-control/src/permit_ledger.rs:1800-1844 | A transition goes through exactly in its epoch under the row's token and sets state and pid, except on a cleaning row. |
| `LedgerAnswers.CleanupClaimAnswers` | crates/velnor-control/src/permit_ledger.rs:1704-1798 | Claimed exactly under the row's token, which makes the row cleaning; without a row open demand is closed, or closed demand found, with the token recorded for cancelled native work. |
| `LedgerAnswers.ReleaseAnswers` | crates/velnor-control/src/permit_ledger.rs:2099-2139 | A release goes through exactly under the row's token; closing closes, requeueing makes eligible or granted demand eligible and never revives closed work. |
| `LedgerAnswers.RequeueKeepsThePlace` | crates/velnor-control/src/permit_ledger.rs:2125-2131 | Granted demand of a requeued holder is eligible again with its ticket. |
| `LedgerAnswers.NativeReleaseAnswers` | crates/velnor-control/src/permit_ledger.rs:1994-2097 | A native release goes through exactly for a native row under its token; without a row it is done exactly in the named state, or for recorded cancelled work; it takes the record back. |
| `LedgerAnswers.ScaleSetReleaseAnswers` | crates/velnor-control/src/permit_ledger.rs:1874-1960 | A Scale Set release goes through exactly for a Scale Set row under its token to a state it may name; without a row it is done exactly in the named state. |
| `LedgerAnswers.RetentionAnswers` | crates/velnor-control/src/permit_ledger.rs:2223-2315 | Retention goes through exactly in its epoch under the row's token: the row is uncertain and its open demand terminal; only a recorded failure demotes a cleaning row. |
| `LedgerAnswers.CleanupRetentionAnswers` | crates/velnor-control/src/permit_ledger.rs:2156-2221 | Retention after a cleanup goes through exactly for a native row under its token; the row is uncertain and the caller's, its demand terminal unless cancelled. |
| `LedgerAnswers.LineAnswers` | crates/velnor-control/src/permit_ledger.rs:2420-2642 | On any ledger a line of evidence is taken exactly if the rows say what it claims: a live worker owns its row; a rotation finds the previous token, or its own with the proof; a release finds its token, or no row and the demand it left; an acquisition finds its token or no row. |
| `LedgerAnswers.ScanAnswers` | crates/velnor-control/src/permit_ledger.rs:2643-2685 | On any ledger a scanned row that no line named becomes uncertain, unless it is being cleaned up. |
| `LedgerAnswers.ReconciliationAnswers` | crates/velnor-control/src/permit_ledger.rs:2393-2690 | Reconciliation succeeds exactly if every line stands and no holder has two; it then makes exactly the unnamed, not cleaning rows uncertain and marks the epoch reconciled. |
| `PermitLedgerClass.PermitLedger.SetMaxJobs` | crates/velnor-control/src/permit_ledger.rs:936-943 | Sets N and nothing else, so the invariant is kept. |
| `PermitLedgerClass.PermitLedger.SetMaxJobsIfUnset` | crates/velnor-control/src/permit_ledger.rs:946-963 | Sets N only if it was unset, and says whether it did. |
| `PermitLedgerClass.PermitLedger.BeginEpoch` | crates/velnor-control/src/permit_ledger.rs:977-993 | Starts the next epoch with all rows kept, so nothing is advertised until it is reconciled. |
| `PermitLedgerClass.PermitLedger.ClaimRecovery` | crates/velnor-control/src/permit_ledger.rs:861-922 | Refines `LedgerSpec.ClaimRecovery`, and from a coherent ledger keeps the invariant and the life cycle: a live owner excludes, a dead owner's claim is taken over under its token. |
| `PermitLedgerClass.PermitLedger.ReleaseClaim` | crates/velnor-control/src/permit_ledger.rs:250-268 | Gives up the claim if and only if token and pid are its own. |
| `PermitLedgerClass.PermitLedger.ObserveDemand` | crates/velnor-control/src/permit_ledger.rs:1126-1183 | Refines `LedgerSpec.ObserveDemand`, and from a coherent ledger keeps the invariant and the life cycle: insert, refresh, revive or leave closed demand alone. |
| `PermitLedgerClass.PermitLedger.ParkDemand` | crates/velnor-control/src/permit_ledger.rs:1191-1202 | Eligible demand becomes waiting with its ticket; anything else is left alone. |
| `PermitLedgerClass.PermitLedger.CancelDemand` | crates/velnor-control/src/permit_ledger.rs:1207-1219 | Eligible or waiting demand becomes cancelled; anything else is left alone. |
| `PermitLedgerClass.PermitLedger.Acquire` | crates/velnor-control/src/permit_ledger.rs:1276-1406 | Refines `LedgerSpec.Acquire`, and from a coherent ledger keeps the invariant and the life cycle on every branch, including roll back of the queueing on a failed lookup or duplicate token; adds exactly its holder, below N, if it reports a fresh permit, and no permit otherwise. |
| `PermitLedgerClass.PermitLedger.AcquireStaged` | crates/velnor-control/src/permit_ledger.rs:1255-1274 | The same with a staged token, and an empty token refused: keeps the invariant, and adds exactly its holder, below N, if it reports a fresh permit. |
| `PermitLedgerClass.PermitLedger.AdoptForRedelivery` | crates/velnor-control/src/permit_ledger.rs:1422-1499 | Refines `LedgerSpec.AdoptForRedelivery`, and from a coherent ledger keeps the invariant and the life cycle on every branch. |
| `PermitLedgerClass.PermitLedger.RotateForRecovery` | crates/velnor-control/src/permit_ledger.rs:1516-1674 | Refines `LedgerSpec.RotateForRecovery`, and from a coherent ledger keeps the invariant and the life cycle, with every refusal leaving the database as it was. |
| `PermitLedgerClass.PermitLedger.TransitionOwned` | crates/velnor-control/src/permit_ledger.rs:1800-1844 | Refines `LedgerSpec.TransitionOwned`, and from a coherent ledger keeps the invariant and the life cycle; a cleaning row is never moved. |
| `PermitLedgerClass.PermitLedger.ClaimTerminalCleanup` | crates/velnor-control/src/permit_ledger.rs:1704-1798 | Refines `LedgerSpec.ClaimTerminalCleanup`, and from a coherent ledger keeps the invariant and the life cycle, with and without a row. |
| `PermitLedgerClass.PermitLedger.ReleaseOwned` | crates/velnor-control/src/permit_ledger.rs:2099-2139 | Removes exactly the row with the presented token and requeues or closes its demand; for every target the callers pass, a coherent ledger stays coherent. |
| `PermitLedgerClass.PermitLedger.ReleaseNative` | crates/velnor-control/src/permit_ledger.rs:1994-2097 | Refines `LedgerSpec.ReleaseNative`, and from a coherent ledger keeps the invariant and the life cycle, including the idempotent absent cases; permits change exactly when it reports a release, by its holder. |
| `PermitLedgerClass.PermitLedger.ReleaseScaleSet` | crates/velnor-control/src/permit_ledger.rs:1874-1960 | Refines `LedgerSpec.ReleaseScaleSet`, and from a coherent ledger keeps the invariant and the life cycle, including the replay of a committed release; permits change exactly when it reports a release, by its holder. |
| `PermitLedgerClass.PermitLedger.RetainUncertain` | crates/velnor-control/src/permit_ledger.rs:2223-2267 | Refines `LedgerSpec.RetainUncertain`, and from a coherent ledger keeps the invariant and the life cycle; a cleaning row stays cleaning. |
| `PermitLedgerClass.PermitLedger.RetainRecordedFailure` | crates/velnor-control/src/permit_ledger.rs:2276-2315 | Refines `LedgerSpec.RetainRecordedFailure`, and from a coherent ledger keeps the invariant and the life cycle. |
| `PermitLedgerClass.PermitLedger.RetainAfterCleanup` | crates/velnor-control/src/permit_ledger.rs:2156-2221 | Refines `LedgerSpec.RetainAfterCleanup`, and from a coherent ledger keeps the invariant and the life cycle, for a native row under its exact token only. |
| `PermitLedgerClass.PermitLedger.ReconcileAttempts` | crates/velnor-control/src/permit_ledger.rs:2393-2690 | The five loops together are the specified reconciliation: database and report on success, an unchanged database on error. |
| `LegacyMigration.MigrateLegacyDemand` | crates/velnor-control/src/permit_ledger.rs:451-522 | The loop computes the specified migration, and refuses everything if and only if some state is unknown. |
| `LegacyMigration.MigrationKeepsDemand` | crates/velnor-control/src/permit_ledger.rs:498-519 | Demand that was already queued is untouched. |
| `LegacyMigration.MigrationCopiesRow` | crates/velnor-control/src/permit_ledger.rs:498-519 | Every legacy row that was not queued is now, as its own copy, with a sequence of at least the next free one. |
| `LegacyMigration.MigrationAddsOnlyRows` | crates/velnor-control/src/permit_ledger.rs:498-519 | Nothing but legacy rows is added. |
| `LegacyMigration.MigrationKeepsSequencesUnique` | crates/velnor-control/src/permit_ledger.rs:494-519 | If sequences were unique and below the next free one, they are unique in the migrated table. |
| `LegacyMigration.MigrationKeepsQueueOrder` | crates/velnor-control/src/permit_ledger.rs:451-522 | Migrated rows queue by first-seen time and new sequence exactly as they were ordered by first-seen time, sequence and request, all numbered above existing demand. |
| `Trace2.ParseEvents` | crates/velnor-bench/src/gittrace.rs:242-402 | Accepts exactly the non-empty streams of well-formed lines in which the events of each process are version, other events, exit and atexit with one code; the counters are the capped sums and success is every code being zero; a line error names the first line after which the stream cannot be accepted. |
| `Trace2.PhaseIsDone` | crates/velnor-bench/src/gittrace.rs:293-372 | The per-process automaton completes on exactly the sequences of the life-cycle shape. |
| `Trace2.AbsorbData` | crates/velnor-bench/src/gittrace.rs:404-454 | Accepts a data event exactly when it is well formed and adds it to the one counter its key names, with a cap. |
| `Trace2.KeysFeedTheirCounters` | crates/velnor-bench/src/gittrace.rs:404-494 | Which counter each key feeds; no other key feeds any. |
| `Trace2.WellFormedEventMeans` | crates/velnor-bench/src/gittrace.rs:404-478 | Which data and completion events are refused. |
| `Trace2.FlawMeans` | crates/velnor-bench/src/gittrace.rs:375-397 | A process is complete exactly with two equal codes; otherwise what is missing or differs. |
| `Trace2.CheckCompletion` | crates/velnor-bench/src/gittrace.rs:375-397 | Succeeds exactly when every process has matching completion codes; otherwise reports the first process in order that has not. |
| `Trace2Streams.InterleavingIsIrrelevant` | crates/velnor-bench/src/gittrace.rs:242-402 | Two streams with the same events in the same order per process are accepted alike, with equal counters and equal success. |
| `Trace2Streams.ConcatenationMerges` | crates/velnor-bench/src/gittrace.rs:457-463 | For non-empty streams with disjoint processes, the concatenation is accepted if and only if both are, and its counters are the merge of theirs. |
| `Trace2Streams.ViableIffCompletable` | crates/velnor-bench/src/gittrace.rs:242-402 | Nothing is wrong with a stream so far if and only if some continuation makes it accepted; so the line an error names is the first after which none does. |
| `Pagination.AcceptedSelectorNeverFails` | crates/velnor-control/src/query.rs:523-595 | A selector that passes validation never makes matching fail. |
| `Pagination.ParsePrintedToken` | crates/velnor-control/src/query.rs:452-493 | Parsing a printed page token gives back its generation, fingerprint and offset. |
| `Pagination.ReadPage` | crates/velnor-control/src/query.rs:125-200 | The filtering loop with its early stop answers as the specification does: the slice of the filtered projection at the token's offset, a next token exactly if something is left, and every refusal. |
| `Pagination.QueryService.Replace` | crates/velnor-control/src/query.rs:70-95 | Publishing sorts the resources and advances the generation, or is refused without change. |
| `Pagination.QueryService.Query` | crates/velnor-control/src/query.rs:125-200 | A query answers from the refreshed projection and changes nothing if the refresh fails. |
| `QueryAnswers.SelectorAcceptedIff` | crates/velnor-control/src/query.rs:523-546 | A selector is accepted exactly if it is absent, or not empty and every comma-separated term names a supported field before an equals sign. |
| `QueryAnswers.TermMatchesMeans` | crates/velnor-control/src/query.rs:548-593 | A term matches by exact name, or by kind or source up to ASCII case, against the trimmed value. |
| `QueryAnswers.SelectorMatchesIffMeets` | crates/velnor-control/src/query.rs:548-593 | An accepted selector matches a resource if and only if each of its terms holds of it. |
| `QueryAnswers.CanonicalKindMeans` | crates/velnor-control/src/query.rs:212-229 | The nouns that stand for each kind, in any case; any other text stands for itself. |
| `QueryAnswers.QueryAcceptedIff` | crates/velnor-control/src/query.rs:126-145 | A query is accepted exactly with a limit from 1 to 1000, a readable time and accepted selectors. |
| `QueryAnswers.SelectedIffWanted` | crates/velnor-control/src/query.rs:165-180 | What the loop selects is what is asked for: the kind, not older than the time, meeting both selectors. |
| `QueryAnswers.PageShowsOnlyWanted` | crates/velnor-control/src/query.rs:125-200 | Every resource on a page is in the projection and is asked for; there are at most `limit`. |
| `QueryAnswers.WantedIsPaged` | crates/velnor-control/src/query.rs:125-200 | Every resource of the projection that is asked for is among those the pages are cut from. |
| `QueryAnswers.TokenHonouredIff` | crates/velnor-control/src/query.rs:146-163 | A page token is honoured exactly if it is well formed, of this generation and of this query. |
| `QueryAnswers.TokenShape` | crates/velnor-control/src/query.rs:452-493 | Only texts of the printed shape, with a positive generation and a 64-character fingerprint, are page tokens. |
| `QueryAnswers.PublicationAnswers` | crates/velnor-control/src/query.rs:70-121 | Publishing takes the next generation; a refresh does exactly if what it loads differs. |
| `PageWalks.SortedByKeySorts` | crates/velnor-control/src/query.rs:70-95 | The published projection is a sorted permutation of the given resources, stable among equal keys. |
| `PageWalks.PublicationIsDetected` | crates/velnor-control/src/query.rs:125-200 | A page token issued before a publication conflicts after it if and only if the generation had not saturated. |
| `PageWalks.SaturatedWalkMixes` | crates/velnor-control/src/query.rs:125-200 | The failing input: with the generation at its maximum, a publication between two pages goes unnoticed and the walk mixes both projections. |
| `PageWalks.WalkReadsOneProjection` | crates/velnor-control/src/query.rs:125-200 | However the projection evolves between pages, every page of a successful walk is the one the first projection gives, as long as nothing is published behind a saturated counter. |
| `PageWalks.WalkGathersTheSnapshot` | crates/velnor-control/src/query.rs:125-200 | The pages of such a walk concatenate to a prefix of the filtered first projection, and to all of it exactly when there is no next token. |
| `PageWalks.WalkTerminates` | crates/velnor-control/src/query.rs:125-200 | Such a walk, if it can go on, is shorter than the filtered projection, so following tokens ends. |
| `PageWalks.ServedWalkGathersTheSnapshot` | crates/velnor-control/src/query.rs:70-200 | For every query the service answers, with any list of publications and refreshes between two pages, the pages concatenate to a prefix of what the query selected from the first projection, to all of it exactly without a next token, in fewer pages than there are matches. |
| `PageWalks.FingerprintTextIdentifiesQuery` | crates/velnor-control/src/query.rs:495-511 | Two requests are fingerprinted over the same text if and only if they ask for the same kind, selectors, time and limit. |
| `Logs.ParsePrintedCursor` | crates/velnor-control/src/logs.rs:301-337 | Parsing an issued cursor for its own stream gives back its generation and sequence. |
| `Logs.LogService.Append` | crates/velnor-control/src/logs.rs:60-129 | An accepted record is appended to the history under the next sequence; the buffer stays the newest part of it, within both bounds and with an exact byte count; eviction removes no more than the bounds require; a refused record changes nothing, except that an oversized one uses up its sequence. |
| `Logs.PushBounded` | crates/velnor-control/src/logs.rs:114-127 | The eviction loop ends with the longest recent part that fits both bounds and its exact byte count. |
| `Logs.PushRecord` | crates/velnor-control/src/logs.rs:96-128 | From a consistent stream and its next record, the new stream is consistent with the history extended by that record, or, if it is oversized, only its sequence is used up. |
| `Logs.TakeBounded` | crates/velnor-control/src/logs.rs:182-206 | The reading loop returns the longest prefix of the wanted records within limit and byte budget, and at least one if there is one. |
| `Logs.LogService.ReadLogs` | crates/velnor-control/src/logs.rs:133-207 | Every refusal, and otherwise such a prefix of the wanted retained records. |
| `Logs.ResumeNeverSkips` | crates/velnor-control/src/logs.rs:153-207 | From any cursor ever issued, a read that names its source conflicts exactly when that record was evicted; otherwise the records it reads are all later ones of the stream, without a gap. |
| `Logs.IdentityMeans` | crates/velnor-control/src/logs.rs:219-223 | An identity is not blank, at most 512 long and free of control characters. |
| `Logs.RedactMeans` | crates/velnor-control/src/logs.rs:225-247 | A message is admitted exactly if it, its secrets and its masked form are within bounds and nothing leaks; what is stored is the masked form. |
| `Logs.AdmissionMeans` | crates/velnor-control/src/logs.rs:60-94 | A record is admitted exactly if the service is supported, its identities are valid and hold no secret, and its message is admitted. |
| `Logs.NewItemMeans` | crates/velnor-control/src/logs.rs:96-121 | What is stored has the given subject and source, the masked message, the next sequence and the cursor that names it. |
| `Logs.WantedMeans` | crates/velnor-control/src/logs.rs:183-192 | A read chooses exactly among retained records of the asked subject, of the asked source if named, after the cursor. |
| `Logs.CursorShape` | crates/velnor-control/src/logs.rs:301-337 | Only texts of the printed shape with the stream's own fingerprint are its cursors. |
| `Logs.ResumeMeans` | crates/velnor-control/src/logs.rs:133-180 | A read is answered exactly for valid identities, a limit from 1 to 16384 and a cursor of this stream that is not ahead and not expired. |
| `Logs.OverflowsMeans` | crates/velnor-control/src/logs.rs:122-127 | A buffer is too large exactly with more than 16384 records or more than 16777216 of text. |
| `Logs.BoundsMean` | crates/velnor-control/src/logs.rs:122-127 | Both bounds hold, and the byte count is the length of everything stored. |
| `Events.EventStream.Publish` | crates/velnor-control/src/observation.rs:94-103 | Accepted events get consecutive versions, and the buffer is the newest part of everything published. |
| `Events.WatchSkipsExactlyFromTheStart` | crates/velnor-control/src/observation.rs:196-217 | A watch conflicts exactly if it names a version below the last evicted one; any other watch from a named version is gap-free; a watch from the start is gap-free exactly if no wanted event was evicted. |
| `Events.UnfilteredWatchFromTheStart` | crates/velnor-control/src/observation.rs:196-217 | Without a kind filter a watch from the start shows the oldest events if and only if the stream is in its first generation. |
| `Events.OneOverflowIsSilent` | crates/velnor-control/src/observation.rs:196-217 | One event more than the buffer holds, and a watch from the start begins at version 2 without a conflict. |
| `Events.RequestMeans` | crates/velnor-control/src/observation.rs:206-213 | A request without a version starts at the beginning; a kind selects by event kind or subject up to case. |
| `Events.WatchShowsOnlyWanted` | crates/velnor-control/src/observation.rs:136-217 | A watch shows only retained, wanted events after its version, at most `limit`; it is refused exactly for a limit outside 1 to 4096. |
| `StorageServiceClass.StorageService.UpsertObject` | crates/velnor-control/src/storage.rs:63-83 | Refines `Catalog.Upsert`: a refused object changes nothing, an accepted one gets the next version; like every call it keeps the catalog well formed and old versions untouched. |
| `StorageServiceClass.StorageService.PlanGc` | crates/velnor-control/src/storage.rs:117-178 | The plan lists exactly the inactive objects of the scope with their versions, in key order; expired plans are purged and the latest plans kept. |
| `StorageServiceClass.StorageService.ExecuteGc` | crates/velnor-control/src/storage.rs:181-237 | Refines `Catalog.Execute`: revalidate every candidate, then remove all or none. |
| `StorageServiceClass.CollectCandidates` | crates/velnor-control/src/storage.rs:123-132 | The candidates are the inactive objects of the scope, each once, in key order. |
| `StorageServiceClass.ExecutePlan` | crates/velnor-control/src/storage.rs:190-236 | Checks in source order, revalidation of every candidate, then removal of all, is `Catalog.Execute`. |
| `StorageServiceClass.EvictOldest` | crates/velnor-control/src/storage.rs:165-176 | The plans kept are the latest by creation time and then name, as many as may be retained. |
| `StorageServiceClass.RemoveAll` | crates/velnor-control/src/storage.rs:229-234 | Exactly the named objects are removed and counted. |
| `CatalogRuns.ExecuteIsAllOrNothing` | crates/velnor-control/src/storage.rs:181-237 | Execution succeeds exactly for a confirmed, retained, unexpired plan with its digest whose every candidate is present, inactive and at its planned version; it removes the candidates, and a failure removes nothing. |
| `CatalogRuns.NamesAreNotReissued` | crates/velnor-control/src/storage.rs:117-178 | While the plan counter has room, no later plan of a run gets the name of an earlier one. |
| `CatalogRuns.NextNameRepeatsIff` | crates/velnor-control/src/storage.rs:155-164 | Two plans in a row get the same name if and only if the plan counter saturates. |
| `CatalogRuns.SaturatedNameIsReissued` | crates/velnor-control/src/storage.rs:155-176 | The failing input: at the maximal plan counter a plan over another scope takes the name and the place of the reviewed one. |
| `CatalogRuns.RetainedPlanIsReviewed` | crates/velnor-control/src/storage.rs:117-178 | While its name is not given to another plan, what is retained under it is the reviewed plan. |
| `CatalogRuns.ExecutionRemovesWhatWasReviewed` | crates/velnor-control/src/storage.rs:117-237 | In every run that does not reissue its name, a successful execution of a plan removes exactly its candidates, all inactive, and reports their number; each is identical to what the planner saw unless it was planned at a saturated version. |
| `CatalogRuns.ExecutesAtMostOnce` | crates/velnor-control/src/storage.rs:181-237 | In every run that does not reissue its name, a plan is executed successfully at most once, unless all its candidates were planned at a saturated version; in particular a plan with candidates made while the version counter has room. |
| `CatalogRuns.UpsertFencesThePlan` | crates/velnor-control/src/storage.rs:63-83 | An upsert of a planned object makes the plan unexecutable, except exactly when the new object is inactive and both counter and planned version are saturated. |
| `CatalogRuns.SaturatedVersionDefeatsReview` | crates/velnor-control/src/storage.rs:63-237 | The failing input: planned, replaced and collected at the maximal version, the replacement is removed instead of what was reviewed. |
| `CatalogRuns.PlanningNeverExhausts` | crates/velnor-control/src/storage.rs:133-137 | In no run does the candidate budget stop a plan. |
| `CatalogRuns.UpsertMeans` | crates/velnor-control/src/storage.rs:63-83 | An upsert is accepted exactly with id, owner and scope, for a known object or below the budget; it is stored as given under the next version. |
| `CatalogRuns.PlanMeans` | crates/velnor-control/src/storage.rs:117-164 | A plan lists exactly the inactive objects of its scope with their versions and sizes, is good for 900 seconds and changes no object. |
| `CatalogRuns.PlanRetention` | crates/velnor-control/src/storage.rs:165-176 | An unexpired plan is dropped only if 1024 others are kept, each later by time and then name. |
| `CatalogRuns.ExpiredPlansGo` | crates/velnor-control/src/storage.rs:240-243 | Expired plans are gone after every new plan. |
| `CatalogRuns.ExecutionAnswers` | crates/velnor-control/src/storage.rs:181-237 | When execution succeeds, and the whole state it leaves, over objects and plans. |
| `CatalogRuns.FailedExecutionMeans` | crates/velnor-control/src/storage.rs:190-212 | Unconfirmed, missing, changed-digest and expired answers are given exactly when each is the case. |
| `CatalogRuns.ObstacleMeans` | crates/velnor-control/src/storage.rs:213-228 | The reported obstacle is the first candidate that disappeared, became active or changed. |
| `CatalogRuns.NewPlanIsRetainedIff` | crates/velnor-control/src/storage.rs:164-177 | A new plan is retained if and only if there is room for it among the unexpired ones or some other plan is earlier than it. |
| `CatalogRuns.NewPlanIsExecutable` | crates/velnor-control/src/storage.rs:117-237 | A new plan that is retained can be executed at once, and its name is new while the counter has room. |
| `CatalogRuns.FullCatalogDropsItsNewPlan` | crates/velnor-control/src/storage.rs:164-177 | The failing input: a full catalog of plans made at time 1 returns a plan made at time 0 and does not keep it. |

## Left out

- SQLite itself, opening and repairing the schema, attempt-token backfill, busy timeouts and file handling: calls are atomic steps.
- The read-only accessors of the ledger (holders, occupied, demand and the like), which select rows without deciding anything.
- `advertised_free` is a read of one state; its separate reads racing with writers are not modelled.
- 64-bit saturation of ledger sequences, generations and times, of log sequences and of event versions: these are unbounded here.
- Text is a sequence of characters whose length stands for its bytes, and trimming knows ASCII white space only.
- The reasons inside error messages; errors keep their kind, field and position.
- The durable paths of queries and events, which read a store that is not part of this model; `refresh_durable` has the loaded resources as a parameter.
- Secret masking, Unicode normalisation and SHA-256 themselves.
- Log cursors that were never issued, and reads with a cursor that omit the source, which fail the fingerprint check.
- Storage snapshots and their byte totals, metrics and condition waits.
- Overflow of the calendar when a plan's expiry is computed.
- Image references and the rest of the action model, the scheduler, the backends, the CLI and the floating-point statistics.
