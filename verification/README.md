# Verified models of the scheduling backend's transactional protocols

The backend is a set of small protocols, most of which exist twice: as maps under a mutex and as
rows updated in SQL transactions. This project models five of them in Dafny and proves what they
promise, over every input, every interleaving and every run. Run `dafny verify dfyconfig.toml`.

| component | files | what is proved |
|---|---|---|
| side-effect outbox and webhook dispatcher | `WebhookTables`, `WebhookWorkers`, `WebhookGuarantees`, `WebhookOffers`, `WebhookPasses`, `WebhookDispatcher`, `WebhookDispatchRun` | disjoint claims, bounded retries, back-off, envelopes frozen as first offered, dead letters, failure counts, batches answered exactly once; the dispatcher and the worker as methods over rows, and as executions of the protocol |
| app-install workflow | `AppTables`, `AppGuarantees`, `AppMemory`, `AppRefinement`, `AppOrigins`, `AppRefusals`, `AppStore`, `AppRepository`, `AppProgress`, `AppReading`, `WireTimes` | one-shot records, provenance back to the user's own calls and an authorized callback under interleaving, the SQL and in-memory forms accept the same calls and refuse for the first failing check, progress never goes back |
| calendar catalog sync | `CalendarTables`, `CalendarSync`, `CalendarHistory`, `SortedRows`, `CalendarCache`, `CalendarMemory`, `CalendarCalls`, `CalendarRepository`, `CalendarStore` | what each call does, column by column, what a sync computes and exactly when it fails, cache equals tables, history paths, in-place filters |
| OAuth grants | `OAuthGrants`, `OAuthGuarantees`, `OAuthAcceptance`, `OAuthService` | exactly when a code or a token is honoured and for how long, single use, rotation, narrowing, conservation, rows abstract to maps (sections 4.1.2 and 6 of RFC 6749) |
| bookings and slots | `BookingIdempotency`, `Bookings`, `BookingGuarantees`, `BookingCalls`, `BookingPlans`, `BookingStore`, `Slots` | idempotent creation of what was asked for, write-through cache, atomic outbox with exactly the planned effects, interval filtering through a clipped query |

How it is built. Each transaction is one function from tables to tables; protocols whose
processes interleave are step functions over worlds, and their guarantees are lemmas about every
execution. The code's objects are classes whose methods are written as the code is, loops and
updates in place, and are proved to compute those functions; so the guarantees are about them.
Random references and tokens are parameters that are required to be new where the proofs need it.
Instants are integers. Whether the database, a provider or a transport succeeds is a parameter.

Three promises turn out to hold only under a condition, which is proved exactly; the code is
followed:

- A valid calendar snapshot is rejected when a calendar takes an external identifier that another
  one, further down the snapshot, still holds (`CalendarSync.SyncSucceedsUnlessBlocked`).
- `IsAvailable` looks at one microsecond and calls a slot free whose second half is taken
  (`Slots.IsAvailableErrsExactlyWhen`).
- A rescheduled booking ends cancelled unless it is itself the fixed rescheduled UID
  (`BookingGuarantees.OldBookingCancelledExactlyWhen`).

Three pairs of forms agree on a run under a condition that is proved exactly. An in-memory calendar
Store accepts the snapshots that the tables reject, and nothing else
(`CalendarMemory.StoresStayAlike`). The OAuth maps lose a grant for ever when drawing a token for it
fails, which the rows keep (`OAuthGuarantees.RowsAbstractExactlyWhen`). And both app Stores answer with
the same error unless a completed intent is completed again through another exchange
(`AppRefusals.ErrorsAgreeExactlyWhen`).

The repository's description (backend/README.md:95) calls delivery at-least-once across persistence
boundaries. The code never reclaims a `processing` effect, so the model promises no delivery across a
worker's crash and shows that such claims stay (`WebhookGuarantees.OrphanedClaimsStay`).

## Model

| member | source | states |
|---|---|---|
| `WebhookTables.AttemptsFor` | backend/internal/booking/postgres_side_effect_dispatcher.go:788-825 | the templates name only active subscriptions of the trigger, none twice, in id order, each unsent and with the one body |
| `WebhookTables.EverySubscriberGetsAnAttempt` | backend/internal/booking/postgres_side_effect_dispatcher.go:788-825 | and no active subscription of the trigger is left out |
| `WebhookTables.RecordAllAppends` | backend/internal/booking/postgres_side_effect_dispatcher.go:328-349 | for an effect without attempts the insert that does nothing on conflict skips no template |
| `WebhookTables.PreparingAgain` | backend/internal/booking/postgres_side_effect_dispatcher.go:221-260 | once an effect has attempts a second preparation changes nothing, whatever the booking now offers and whoever has subscribed since |
| `WebhookWorkers.StepKeeps` | backend/internal/booking/postgres_side_effect_dispatcher.go:108-219 | every step of every worker keeps the cross-table invariant: one attempt per effect and subscriber, counters below the limit while pending, dead letters only with disabled subscriptions, claims disjoint |
| `WebhookWorkers.HeadsDiffer` | backend/internal/booking/postgres_repository.go:217-276 | two workers never dispatch the same effect at the same moment |
| `WebhookWorkers.FinishMeansSettled` | backend/internal/booking/postgres_side_effect_dispatcher.go:143-165 | a Dispatch that reports success has no pending attempt left; one that reports an error has one |
| `WebhookWorkers.PrepareKeepsTables` | backend/internal/booking/postgres_side_effect_dispatcher.go:221-260 | freezing the envelope and recording the attempts keeps the invariant of the tables |
| `WebhookWorkers.MarkKeepsTables` | backend/internal/booking/postgres_side_effect_dispatcher.go:601-699 | marking an attempt delivered, failed or dead keeps the invariant of attempts and subscriptions |
| `WebhookGuarantees.InvHolds` | backend/internal/booking/side_effect_worker.go:55-83 | the invariant holds in every state any interleaving of any number of workers reaches |
| `WebhookGuarantees.ClaimsAreExclusive` | backend/internal/booking/postgres_repository.go:217-276 | an effect is `processing` exactly while one claim on it is unanswered, and no two claims name it |
| `WebhookGuarantees.MarksNeverMiss` | backend/internal/booking/postgres_repository.go:278-314 | the conditional updates of answers and marks always find their row |
| `WebhookGuarantees.AttemptsCountClaims` | backend/internal/booking/postgres_repository.go:223-248 | `attempts` equals the number of claims of the effect |
| `WebhookGuarantees.BackoffSumClosedForm` | backend/internal/booking/postgres_repository.go:297-306 | the sum of min(60, 5i) for i up to n is 5n(n+1)/2 up to 12 and 390 + 60(n-12) beyond |
| `WebhookGuarantees.ClaimWaitsForBackoff` | backend/internal/booking/postgres_repository.go:223-248 | with a monotone clock the claim after n failures comes no earlier than the first claim plus that sum |
| `WebhookGuarantees.RetriesAreBounded` | backend/internal/booking/postgres_side_effect_dispatcher.go:143-165 | in every run fewer than the limit complete Dispatches of an effect fail, no attempt records more sends than the limit, and a pending attempt has been sent at least once per failed round |
| `WebhookGuarantees.NextRoundSucceeds` | backend/internal/booking/postgres_side_effect_dispatcher.go:143-165 | after limit - 1 failed rounds the next complete round returns success |
| `WebhookGuarantees.FailureCountCountsFailures` | backend/internal/booking/postgres_side_effect_dispatcher.go:601-699 | in every run, re-seeding included, failure_count is the number of failed sends since the last accepted one |
| `WebhookGuarantees.RunsEvolve` | backend/internal/booking/postgres_side_effect_dispatcher.go:286-388 | envelopes, recorded attempts, final states and disabled subscriptions never change again, and no attempt is added after the first non-empty snapshot |
| `WebhookGuarantees.DeliveredEffectsAreSettled` | backend/internal/booking/side_effect_worker.go:69-81 | when an effect is delivered every attempt recorded for it is delivered or dead-lettered, never both, for ever, and carries the one body |
| `WebhookGuarantees.DeadLettersDisable` | backend/internal/booking/postgres_side_effect_dispatcher.go:644-699 | a dead-lettered attempt keeps its subscription disabled and inactive in every later state, re-seeding included |
| `WebhookGuarantees.OrphanedClaimsStay` | backend/internal/booking/postgres_repository.go:217-276 | the claims of a stopped worker stay `processing` for ever: nothing is promised across crashes |
| `WebhookDispatcher.SendAllRecords` | backend/internal/booking/postgres_side_effect_dispatcher.go:143-165 | a send loop records each attempt of its queue exactly once and touches no other attempt |
| `WebhookDispatcher.SendAllReports` | backend/internal/booking/postgres_side_effect_dispatcher.go:143-165 | the accumulated error is nil exactly when no mark was lost and nothing of the queue stays pending |
| `WebhookDispatcher.SendAllSubscribers` | backend/internal/booking/postgres_side_effect_dispatcher.go:601-699 | each subscriber of the queue sees exactly its own send and nobody else any |
| `WebhookDispatcher.RoundLowersPotential` | backend/internal/booking/postgres_side_effect_dispatcher.go:143-165 | a complete round lowers the sum of (limit - count) over pending attempts by at least one per pending attempt |
| `WebhookDispatcher.NoPotentialNothingPending` | backend/internal/booking/postgres_side_effect_dispatcher.go:351-388 | when that sum is zero nothing is pending |
| `WebhookDispatcher.RoundSettles` | backend/internal/booking/postgres_side_effect_dispatcher.go:143-165 | a round over prepared attempts answers ok exactly when it leaves none pending |
| `WebhookDispatcher.DispatchSettles` | backend/internal/booking/postgres_side_effect_dispatcher.go:108-219 | Dispatch, preparation included, touches only rows of its effect, settles every attempt when it answers ok, and otherwise lowers the potential |
| `WebhookDispatcher.PassSettles` | backend/internal/booking/side_effect_worker.go:55-83 | a pass over claimed rows leaves all others alone; its counters are the numbers of claimed rows that end delivered and failed; without an error they add up to the claim and none is left processing, with one some row is |
| `WebhookDispatcher.Database.SavePlannedSideEffects` | backend/internal/booking/postgres_repository.go:402-420 | all planned effects are in the outbox once per key, or the outbox is unchanged |
| `WebhookDispatcher.Database.ClaimPlannedSideEffects` | backend/internal/booking/postgres_repository.go:217-276 | the first planned or failed and due rows up to the limit, in creation order, become `processing` and their counters grow by one; none before them is passed over, and with room left none at all |
| `WebhookDispatcher.Database.MarkPlannedSideEffectDelivered` | backend/internal/booking/postgres_repository.go:278-295 | a processing effect becomes delivered; any other is refused unchanged |
| `WebhookDispatcher.Database.MarkPlannedSideEffectFailed` | backend/internal/booking/postgres_repository.go:297-314 | a processing effect becomes failed with its back-off; any other is refused unchanged |
| `WebhookDispatcher.Database.SaveWebhookSubscription` | backend/internal/booking/postgres_webhook_subscriptions.go:19-43 | one row has the key afterwards and took the flag unless it is disabled; failure counts, disabled rows and all other rows stay |
| `WebhookDispatcher.Database.ReadWebhookSubscriptionsByTrigger` | backend/internal/booking/postgres_webhook_subscriptions.go:45-75 | exactly the active subscriptions of the trigger, in id order |
| `WebhookDispatcher.Database.RecordWebhookAttempts` | backend/internal/booking/postgres_side_effect_dispatcher.go:328-349 | each template in turn becomes a row unless its effect and subscriber already have one |
| `WebhookDispatcher.Database.PrepareWebhookAttempts` | backend/internal/booking/postgres_side_effect_dispatcher.go:221-260 | succeeds if and only if there is an envelope and, for a first snapshot, every active subscriber has a known secret; it then keeps a frozen envelope or freezes the one offered, for the given trigger, and records unsent attempts with that body in id order, once; an error changes nothing |
| `WebhookDispatcher.Database.CountAttempts` | backend/internal/booking/postgres_side_effect_dispatcher.go:316-326 | the number of attempts of the effect, zero exactly when it has none |
| `WebhookDispatcher.Database.ReadPendingWebhookAttempts` | backend/internal/booking/postgres_side_effect_dispatcher.go:351-388 | the pending attempts of the effect in id order |
| `WebhookDispatcher.Database.MarkWebhookAttemptDelivered` | backend/internal/booking/postgres_side_effect_dispatcher.go:601-635 | the attempt is delivered and its subscription's count is reset, or nothing changes |
| `WebhookDispatcher.Database.MarkWebhookAttemptFailed` | backend/internal/booking/postgres_side_effect_dispatcher.go:644-699 | the failure is counted once; at the limit the attempt is dead and the subscription disabled (the result is the value after the transaction) |
| `WebhookDispatcher.Database.SendPending` | backend/internal/booking/postgres_side_effect_dispatcher.go:143-165 | the loop over pending attempts leaves what the queue function leaves, and reports its error |
| `WebhookDispatcher.Database.Dispatch` | backend/internal/booking/postgres_side_effect_dispatcher.go:108-219 | the tables and the error of the dispatch function; a success for an effect nobody had prepared has sent exactly the envelope offered, once to each active subscription of its trigger |
| `WebhookDispatcher.Database.DispatchAndAnswer` | backend/internal/booking/side_effect_worker.go:69-81 | a claimed effect is answered, and a webhook answered delivered is settled |
| `WebhookDispatcher.Database.AnswerBatch` | backend/internal/booking/side_effect_worker.go:66-81 | the loop over the claims computes the pass, tables, counters and error |
| `WebhookDispatcher.Database.RunOnce` | backend/internal/booking/side_effect_worker.go:55-83 | a worker alone on the database between its claim and its last answer claims eligible rows and ends as a pass over them does: without an error Claimed = Delivered + Failed, each the number of claimed rows in that state, none processing, all others unchanged |
| `WebhookPasses.BatchHolds` | backend/internal/booking/side_effect_worker.go:55-83 | among any other workers, the last claim of a worker is what it has answered since, in order, followed by what it still holds |
| `WebhookPasses.PassAnswersItsBatch` | backend/internal/booking/side_effect_worker.go:55-83 | so a pass that has ended has answered each effect of its claim exactly once, and Claimed = Delivered + Failed |
| `WebhookPasses.ClaimsFollowAnswers` | backend/internal/booking/side_effect_worker.go:55-83 | and no worker claims again before it has |
| `WebhookPasses.AnswersStand` | backend/internal/booking/postgres_repository.go:278-314 | an answered effect keeps the status of its answer until a later claim names it, a delivered one for ever |
| `WebhookPasses.PassLeavesNothingProcessing` | backend/internal/booking/side_effect_worker.go:55-83 | after a pass each effect of its claim has the status it was answered with, or has been claimed again since the answer; only then can it be processing |
| `WebhookDispatchRun.SendLoopIsARun` | backend/internal/booking/postgres_side_effect_dispatcher.go:143-165 | the send loop of one worker is an execution of the interleaved protocol |
| `WebhookDispatchRun.DispatchIsARun` | backend/internal/booking/postgres_side_effect_dispatcher.go:108-219 | so is an uninterrupted Dispatch, from its preparation to the answer it will give |
| `WebhookDispatchRun.PassIsARun` | backend/internal/booking/side_effect_worker.go:66-81 | and the loop over a claimed batch, answers included, whatever fails |
| `WebhookDispatchRun.RunOnceIsARun` | backend/internal/booking/side_effect_worker.go:55-83 | and a whole RunOnce, from the claim to the last answer: it ends in the tables the method computes, and an error leaves the worker holding the rest |
| `WebhookDispatchRun.RunOnceCountsAnswers` | backend/internal/booking/side_effect_worker.go:55-83 | the counters RunOnce returns are the numbers of its answers of either kind since its claim |
| `WebhookDispatchRun.LeadsExec` | backend/internal/booking/side_effect_worker.go:55-83 | such steps extend any execution of all the workers, so the run guarantees apply to the methods |
| `WebhookDispatcher.PrepareMeans` | backend/internal/booking/postgres_side_effect_dispatcher.go:221-260 | exactly when a preparation succeeds, and what it leaves: envelope, attempts and nothing else |
| `WebhookDispatcher.FreshDispatchSends` | backend/internal/booking/postgres_side_effect_dispatcher.go:108-219 | a successful Dispatch of an effect nobody has prepared has sent the envelope it was offered, once to each active subscription of its trigger |
| `WebhookOffers.EnvelopesAreFirstOffers` | backend/internal/booking/postgres_side_effect_dispatcher.go:221-260 | in every run an envelope is for the trigger of its effect's name and holds the string offered at the first preparation that succeeded, and so does every attempt of the effect |
| `WebhookPasses.ClaimableExactlyWhen` | backend/internal/booking/postgres_repository.go:223-248 | in every run a worker can claim an effect if and only if it is planned, or failed and min(60, 5n) seconds have passed since its last, n-th failure |
| `AppGuarantees.TxEvolves` | backend/internal/apps/postgres_repository.go:331-1052 | no transaction deletes or changes a row, except an intent's status forwards and a session's first consumption |
| `AppGuarantees.TxKeepsDb` | backend/internal/apps/postgres_repository.go:331-1052 | every transaction keeps each record bound to its predecessor, of the same user, intent, app and provider |
| `AppGuarantees.TxKeepsOneShot` | backend/internal/apps/postgres_repository.go:547-1052 | and one record per predecessor |
| `AppGuarantees.RequestsStayOk` | backend/internal/apps/store.go:1120-1138 | what a process read about its intent before the transaction is still true however late it commits |
| `AppGuarantees.InvHolds` | backend/internal/apps/postgres_repository.go:331-1052 | the invariant holds under any interleaving of planning and committing processes |
| `AppGuarantees.RunsEvolve` | backend/internal/apps/postgres_repository.go:331-440 | along every run consumed_at is set at most once and before expiry, and an intent moves only pending, requires_external_auth, then installed or blocked |
| `AppGuarantees.RecordsAreOneShot` | backend/internal/apps/postgres_repository.go:547-1052 | at most one preview and one preflight per state, one exchange per preflight, one completion and one installation per intent |
| `AppGuarantees.InstallationsHaveProvenance` | backend/internal/apps/store.go:628-1077 | each installation goes back, for its user and intent, to an installed completion, an unblocked exchange of the same mode, an authorized preflight and a session consumed before its expiry; the chain is there at every later moment |
| `AppRefinement.ExchangedStateIsExchangedPreflight` | backend/internal/apps/postgres_repository.go:641-738 | the unique handoff-state column of exchanges never refuses what the preflight column accepts |
| `AppRefinement.PreviewAgrees` | backend/internal/apps/store.go:635-671 | previews: both Stores accept alike; a previewed state has been consumed, so memory needs no check of its own |
| `AppRefinement.PreflightAgrees` | backend/internal/apps/store.go:673-730 | preflights: both Stores accept alike and hold the same rows |
| `AppRefinement.ExchangeAgrees` | backend/internal/apps/store.go:732-778 | simulated exchanges: both Stores accept alike and hold the same rows |
| `AppRefinement.RequestOAuthAgrees` | backend/internal/apps/store.go:780-828 | OAuth exchanges by request: both Stores accept alike and hold the same rows |
| `AppRefinement.CallbackAgrees` | backend/internal/apps/store.go:830-949 | OAuth exchanges by callback: both Stores accept alike and hold the same rows |
| `AppRefinement.CompleteAgrees` | backend/internal/apps/store.go:951-998 | completions: the per-exchange check of memory and the per-intent check of SQL refuse the same calls |
| `AppRefinement.ActivateAgrees` | backend/internal/apps/store.go:1000-1049 | activations: both Stores accept alike and hold the same rows |
| `AppRefinement.CallsAgree` | backend/internal/apps/store.go:573-1077 | every call: both accept and hold the same records afterwards, or both refuse |
| `AppRefinement.StoresAgree` | backend/internal/apps/store.go:573-1077 | after any sequence of calls the repository and the maps hold the same records, and accept the same next call |
| `AppRefinement.MemoryInstallationsHaveProvenance` | backend/internal/apps/store.go:628-1077 | the provenance theorem for the in-memory Store |
| `AppOrigins.PlansAreCalled` | backend/internal/apps/store.go:460-1077 | whatever a call asks of the repository says what the call said: user, intent, state, callback status, references and time |
| `AppOrigins.RowsComeFromCalls` | backend/internal/apps/postgres_repository.go:331-1052 | under any interleaving every stored row says what a call begun before said, a session ten minutes before its expiry |
| `AppOrigins.InstallationsComeFromCalls` | backend/internal/apps/store.go:628-1077 | an installation goes back, for its user and intent, to the calls that created the intent, opened the session, brought an authorized callback before its expiry, exchanged, completed and activated |
| `AppOrigins.DeniedStatesNeverInstall` | backend/internal/apps/store.go:673-778 | a state whose recorded callback was denied never leads to an installation, however the run goes on |
| `AppOrigins.NoInstallWithoutAuthorization` | backend/internal/apps/store.go:673-1049 | an intent none of whose callbacks was authorized is never installed |
| `AppOrigins.OutcomesHold` | backend/internal/apps/store.go:732-998 | in every run a denied callback and nothing else blocks an exchange, a blocked exchange and nothing else blocks a completion, and the intent has its completion's status |
| `AppOrigins.AcceptedCallsWrite` | backend/internal/apps/store.go:460-1077 | an accepted call leaves the row that says what it said and changes no other |
| `AppOrigins.MemoryRowsComeFromCalls` | backend/internal/apps/store.go:460-1077 | in memory too every row says what a call said |
| `AppOrigins.MemoryInstallationsComeFromCalls` | backend/internal/apps/store.go:673-1049 | in memory too an installation goes back to an authorized callback of its user and intent |
| `AppRefusals.RefusedExactly` | backend/internal/apps/postgres_repository.go:331-1052 | in every reachable state the repository's Store refuses a call with the error of the first check on the stored records that fails, and accepts it if and only if none does |
| `AppRefusals.MemoryRefusedExactly` | backend/internal/apps/store.go:460-1077 | in memory the same checks decide in the same order, but for a second exchange of a completed intent |
| `AppRefusals.ErrorsAgreeExactlyWhen` | backend/internal/apps/store.go:951-998 | after any calls both Stores answer the next with the same error, or accept it, if and only if it does not complete an intent again through another exchange |
| `AppStore.ScanRows` | backend/internal/apps/store.go:1247-1323 | a find scan returns the matching row in whatever order the map is iterated |
| `AppStore.LatestRow` | backend/internal/apps/store.go:1157-1245 | a latest scan returns the row of greatest wire string and reference, or none when there is none |
| `AppStore.LatestIsUnique` | backend/internal/apps/store.go:1157-1245 | its answer does not depend on the iteration order |
| `AppStore.Store.CreateInstallIntent` | backend/internal/apps/store.go:460-488 | creating an intent: the answer and the whole new state are those of the specification that the repository refines, the row answered says what the call said, and a refusal changes nothing |
| `AppStore.Store.MarkInstallIntentRequiresExternalAuth` | backend/internal/apps/store.go:573-594 | marking an intent: the answer and the whole new state are those of the specification that the repository refines, the row answered says what the call said, and a refusal changes nothing |
| `AppStore.Store.ReadExternalAuthDescriptor` | backend/internal/apps/store.go:596-626 | a new handoff session: the answer and the whole new state are those of the specification that the repository refines, the row answered says what the call said, and a refusal changes nothing |
| `AppStore.Store.ConsumeExternalAuthSession` | backend/internal/apps/store.go:1051-1077 | consuming a session: the answer and the whole new state are those of the specification that the repository refines, the row answered says what the call said, and a refusal changes nothing |
| `AppStore.Store.PreviewExternalAuthAuthorization` | backend/internal/apps/store.go:635-671 | a preview: the answer and the whole new state are those of the specification that the repository refines, the row answered says what the call said, and a refusal changes nothing |
| `AppStore.Store.PreflightExternalAuthCallback` | backend/internal/apps/store.go:673-730 | a callback preflight: the answer and the whole new state are those of the specification that the repository refines, the row answered says what the call said, and a refusal changes nothing |
| `AppStore.Store.ExchangeExternalAuthProvider` | backend/internal/apps/store.go:732-778 | a simulated exchange: the answer and the whole new state are those of the specification that the repository refines, the row answered says what the call said, and a refusal changes nothing |
| `AppStore.Store.HasExchangeByPreflight` | backend/internal/apps/store.go:1293-1312 | true exactly when a matching exchange exists |
| `AppStore.Store.ExchangeProviderOAuthLocked` | backend/internal/apps/store.go:888-949 | the shared OAuth exchange: the answer and the whole new state are those of the specification that the repository refines, the row answered says what the call said, and a refusal changes nothing |
| `AppStore.Store.ExchangeExternalAuthProviderOAuth` | backend/internal/apps/store.go:780-828 | an OAuth exchange: the answer and the whole new state are those of the specification that the repository refines, the row answered says what the call said, and a refusal changes nothing |
| `AppStore.Store.HandleProviderOAuthCallback` | backend/internal/apps/store.go:830-886 | an OAuth callback: the answer and the whole new state are those of the specification that the repository refines, the row answered says what the call said, and a refusal changes nothing |
| `AppStore.Store.CompleteAppInstall` | backend/internal/apps/store.go:951-998 | a completion: the answer and the whole new state are those of the specification that the repository refines, the row answered says what the call said, and a refusal changes nothing |
| `AppStore.Store.ActivateAppInstallation` | backend/internal/apps/store.go:1000-1049 | an installation: the answer and the whole new state are those of the specification that the repository refines, the row answered says what the call said, and a refusal changes nothing |
| `AppRepository.PostgresRepository.SaveInstallIntent` | backend/internal/apps/postgres_repository.go:310-329 | the transaction commits exactly the tables of its specification and returns the saved row, or rolls back to the old tables with its error |
| `AppRepository.PostgresRepository.MarkInstallIntentRequiresExternalAuth` | backend/internal/apps/postgres_repository.go:331-363 | the transaction commits exactly the tables of its specification and returns the saved row, or rolls back to the old tables with its error |
| `AppRepository.PostgresRepository.SaveExternalAuthSession` | backend/internal/apps/postgres_repository.go:365-391 | the transaction commits exactly the tables of its specification and returns the saved row, or rolls back to the old tables with its error |
| `AppRepository.PostgresRepository.ConsumeExternalAuthSession` | backend/internal/apps/postgres_repository.go:393-440 | the transaction commits exactly the tables of its specification and returns the saved row, or rolls back to the old tables with its error |
| `AppRepository.PostgresRepository.SaveExternalAuthAuthorizationPreview` | backend/internal/apps/postgres_repository.go:442-545 | the transaction commits exactly the tables of its specification and returns the saved row, or rolls back to the old tables with its error |
| `AppRepository.PostgresRepository.SaveExternalAuthCallbackPreflight` | backend/internal/apps/postgres_repository.go:547-639 | the transaction commits exactly the tables of its specification and returns the saved row, or rolls back to the old tables with its error |
| `AppRepository.PostgresRepository.SaveExternalAuthProviderExchange` | backend/internal/apps/postgres_repository.go:641-738 | the transaction commits exactly the tables of its specification and returns the saved row, or rolls back to the old tables with its error |
| `AppRepository.PostgresRepository.SaveAppInstallCompletion` | backend/internal/apps/postgres_repository.go:740-896 | the transaction commits exactly the tables of its specification and returns the saved row, or rolls back to the old tables with its error |
| `AppRepository.PostgresRepository.SaveAppInstallation` | backend/internal/apps/postgres_repository.go:898-1052 | the transaction commits exactly the tables of its specification and returns the saved row, or rolls back to the old tables with its error |
| `WireTimes.FieldsOrderInstants` | backend/internal/apps/store.go:1921-1931 | calendar fields compare as the instants they name |
| `WireTimes.RenderOrder` | backend/internal/apps/store.go:1921-1931 | strings of fixed-width fields compare field by field |
| `WireTimes.WireTimesCompare` | backend/internal/apps/store.go:1699-1704 | for the years 0 to 9999 wire strings compare exactly as their instants, section 5.1 of RFC 3339 |
| `WireTimes.MomentOf` | backend/internal/apps/store.go:1921-1931 | the civil fields of an instant of the years 0 to 9999: valid, and naming that instant |
| `WireTimes.RenderedCompare` | backend/internal/apps/store.go:1699-1704 | what a formatter with that layout yields compares, and is chosen as later, exactly as the instants |
| `AppProgress.HandoffProgress` | backend/internal/apps/store.go:1572-1622 | status and action from the intent, the session and the preview |
| `AppProgress.ExchangeProgress` | backend/internal/apps/store.go:1623-1653 | status and action up to the exchange: the furthest record decides |
| `AppProgress.CompletionProgress` | backend/internal/apps/store.go:1654-1677 | status, action and update time up to the end of the install, whatever comes after it |
| `AppProgress.NewAppInstallProgress` | backend/internal/apps/store.go:1572-1689 | the status is the one whose condition on the records holds, the action the one its status asks for, and the update time is one of the records' and none is greater |
| `AppProgress.StatusExactlyWhen` | backend/internal/apps/store.go:1572-1689 | each status holds exactly under its own condition on the records: ready needs an unconsumed session that expires after now, expired one that does not |
| `AppProgress.ActionExactlyWhen` | backend/internal/apps/store.go:1572-1689 | each next action is asked for exactly by its statuses; only a denied callback makes a difference of its own |
| `AppProgress.LastUpdateIsGreatest` | backend/internal/apps/store.go:1699-1704 | the nested choice of the later time is the greatest of all of them |
| `AppProgress.UpdatedAtIsTheLatestInstant` | backend/internal/apps/store.go:1572-1689 | the greatest of the wire strings of some instants is that of the latest |
| `AppReading.ReadRecords` | backend/internal/apps/store.go:545-559 | the intent and, of each kind of record of this user and intent, the stored one of greatest wire time and reference, stamped with the wire time of its last update; none exactly when there is none |
| `AppReading.ReadInstallProgress` | backend/internal/apps/store.go:531-571 | answers exactly for a named intent of the user whose app is known, with the status of the furthest record so read; in the years of the layout its update time is that of the latest instant at which the intent or any of those records was touched |
| `AppReading.MemoryReadsAsTables` | backend/internal/apps/postgres_repository.go:1054-1170 | in the years of the layout the in-memory scans find exactly the rows that the ordered queries over the same records return |
| `AppReading.TablesReadOnce` | backend/internal/apps/postgres_repository.go:1054-1170 | those queries have one answer |
| `AppReading.ProgressAgrees` | backend/internal/apps/store.go:531-571 | so both Stores read the same rows and give the same status and next action |
| `AppReading.MemoryFindsAsTables` | backend/internal/apps/store.go:1157-1245 | whatever the years, memory finds a record of a kind exactly when the tables hold one |
| `AppReading.MemoryProgressNeverGoesBack` | backend/internal/apps/store.go:531-571 | between two readings of the in-memory Store, whatever the calls, progress never goes back |
| `AppProgress.ProgressNeverGoesBack` | backend/internal/apps/store.go:531-571 | under any interleaving a later reading of progress is never at an earlier stage |
| `CalendarSync.SyncSucceedsUnlessBlocked` | backend/internal/calendars/postgres_repository.go:105-214 | a sync of a valid snapshot succeeds if and only if no calendar takes the external identifier that a calendar further down the snapshot holds in the stored catalog |
| `CalendarSync.SwappedIdentifiersAreRejected` | backend/internal/calendars/postgres_repository.go:173-187 | a concrete valid snapshot on which it fails, in either order: two calendars that swap identifiers |
| `CalendarSync.SelectedIndexIsSilent` | backend/internal/calendars/postgres_repository.go:173-187 | the unique index on selected calendars never stops what the one on the catalog lets pass |
| `CalendarSync.CascadeIsSilent` | backend/internal/calendars/postgres_repository.go:189-199 | deleting stale connections takes no calendar of the snapshot with it |
| `CalendarSync.SyncMirrorsTheSnapshot` | backend/internal/calendars/postgres_repository.go:105-214 | after a sync the tables are the snapshot, connections keep their status code and check time, and of the user's choices those still on offer remain, as now described |
| `CalendarSync.SyncedKeepsInv` | backend/internal/calendars/postgres_repository.go:105-214 | a sync keeps selections snapshots of the catalog, external identifiers unique and the destination selected |
| `CalendarHistory.SyncExtendsPaths` | backend/internal/calendars/postgres_repository.go:156-171 | a sync extends each connection's history path by its status change, starts new connections afresh, and leaves no rows of deleted ones |
| `CalendarHistory.RefreshApplies` | backend/internal/calendars/postgres_repository.go:216-274 | a status refresh that goes through has matched every update against the connection as it was stored; that connection now has the status, the code and the check time given and all other columns as before |
| `CalendarHistory.TablesUpdated` | backend/internal/calendars/postgres_repository.go:228-267 | after it each updated connection has exactly the status, the code and the check time of its update and every other column as before, and all others are untouched |
| `CalendarHistory.RefreshWrites` | backend/internal/calendars/postgres_repository.go:228-274 | and the history has one more row about it exactly if its status changed, from the old to the new |
| `CalendarHistory.RefreshExtendsPaths` | backend/internal/calendars/postgres_repository.go:216-274 | a status refresh extends the paths of the updated connections and no other |
| `SortedRows.ReadTableReads` | backend/internal/calendars/postgres_repository.go:276-300 | a query ordered by primary key returns each row once, in strict order |
| `SortedRows.ReadingIsUnique` | backend/internal/calendars/postgres_repository.go:276-300 | and there is only one such list |
| `SortedRows.SortReads` | backend/internal/calendars/store.go:557-600 | sorting the rows of a table in any order gives that list |
| `CalendarCache.RefreshReads` | backend/internal/calendars/store.go:533-555 | the in-place refresh of the cached selection computes what the refreshed rows read as |
| `CalendarCache.SyncKeepsCache` | backend/internal/calendars/store.go:494-513 | so after a sync the cache is what loading the tables afresh would give |
| `CalendarCache.SelectReads` | backend/internal/calendars/store.go:246-286 | replace-or-append and sort computes what the table with the new row reads as |
| `CalendarCache.DeselectReads` | backend/internal/calendars/store.go:288-329 | so does filtering a row out |
| `CalendarCache.AcceptedExactlyWhen` | backend/internal/calendars/store.go:176-383 | for a loaded user the tables refuse nothing the cache let through, except a blocked sync |
| `CalendarCache.CachedCheckSuffices` | backend/internal/calendars/store.go:619-639 | status updates that pass the check against the cache pass the transaction's own |
| `CalendarCache.ReadStepKeeps` | backend/internal/calendars/store.go:331-350 | reading the destination never finds it missing |
| `CalendarCache.StepKeeps` | backend/internal/calendars/store.go:176-383 | every call, accepted or refused, keeps cache and tables equal |
| `CalendarCache.CacheEqualsTables` | backend/internal/calendars/store.go:176-555 | after every run cached connections, catalog, selection and destination equal the repository's reads, and each connection's history is a path without self-loops from its inserted status to its current one |
| `CalendarMemory.CallStaysAlike` | backend/internal/calendars/store.go:198-383 | a Store over tables and one in memory that are alike, connections included but for status code and check time, accept the same call and stay alike, unless it is a blocked sync |
| `CalendarMemory.StoresStayAlike` | backend/internal/calendars/store.go:198-383 | over any run they accept the same calls if and only if no sync of it is blocked, and then they end alike |
| `CalendarMemory.SelectionsAreSnapshots` | backend/internal/calendars/store.go:246-383 | without seed data every in-memory state has its selection strictly sorted, each entry the snapshot of its catalog entry, and the destination among them |
| `CalendarCalls.RefreshDoes` | backend/internal/calendars/store.go:198-234 | an accepted refresh gives each updated connection, in tables and cache, the columns of its update and touches nothing else |
| `CalendarCalls.RefreshRecords` | backend/internal/calendars/postgres_repository.go:228-274 | and records the change of its status, if any, as a status refresh |
| `CalendarCalls.MemoryRefreshDoes` | backend/internal/calendars/store.go:641-657 | so does a refresh in memory |
| `CalendarCalls.SelectDoes` | backend/internal/calendars/store.go:246-286 | a selected calendar is described as the catalog describes it and the other rows stay |
| `CalendarCalls.DeselectDoes` | backend/internal/calendars/store.go:288-329 | a deselected calendar is gone, and with it the destination if it was that, and nothing else |
| `CalendarCalls.SetDestinationDoes` | backend/internal/calendars/store.go:352-383 | the destination is the calendar named, which is selected, and nothing else changes |
| `CalendarCalls.SyncDoes` | backend/internal/calendars/store.go:176-196 | after an accepted sync the tables hold the offered connections and calendars and no others, each as offered; of the choices those still offered |
| `CalendarCalls.SyncRecords` | backend/internal/calendars/postgres_repository.go:118-214 | the history records the status change of a connection offered again, and keeps nothing of the others |
| `CalendarCalls.MemorySyncDoes` | backend/internal/calendars/store.go:176-196 | so it is in memory |
| `CalendarCalls.MemorySelectDoes` | backend/internal/calendars/store.go:246-286 | selecting in memory replaces or adds one row, described as the catalog does |
| `CalendarCalls.MemoryDeselectDoes` | backend/internal/calendars/store.go:288-329 | deselecting in memory removes one row and a destination that names it |
| `CalendarCalls.SnapshotInOrderExactlyWhen` | backend/internal/calendars/store.go:699-732 | exactly which snapshots are in order, column by column |
| `CalendarCalls.UpdatesInOrderExactlyWhen` | backend/internal/calendars/store.go:619-639 | exactly which status updates are |
| `CalendarRepository.ReadRows` | backend/internal/calendars/postgres_repository.go:276-300 | the loop over rows returns the ordered reading of the table |
| `CalendarRepository.ValidateProviderCatalog` | backend/internal/calendars/store.go:699-732 | accepts exactly the snapshots with all fields named, distinct references and external keys, and every calendar on a connection of its provider |
| `CalendarRepository.ValidateUpdates` | backend/internal/calendars/postgres_repository.go:587-599 | accepts exactly named, distinct updates |
| `CalendarRepository.DeleteStaleCalendars` | backend/internal/calendars/postgres_repository.go:138-154 | catalog rows the snapshot does not name are gone, with their selected rows and the destination |
| `CalendarRepository.UpsertAllConnections` | backend/internal/calendars/postgres_repository.go:156-171 | every connection upserted and one history row per changed status |
| `CalendarRepository.UpsertAllCalendars` | backend/internal/calendars/postgres_repository.go:173-187 | every calendar upserted with its selected row, or the first collision reported |
| `CalendarRepository.DeleteConnections` | backend/internal/calendars/postgres_repository.go:189-199 | connections, their calendars and their history deleted |
| `CalendarRepository.Repository.SyncCalendarCatalog` | backend/internal/calendars/postgres_repository.go:105-214 | the transaction succeeds exactly when its specification does and returns the ordered reads of the new tables; otherwise nothing changes |
| `CalendarRepository.Repository.RefreshCalendarConnectionStatuses` | backend/internal/calendars/postgres_repository.go:216-274 | all updates, column by column, and their history rows, or nothing |
| `CalendarRepository.RefreshRows` | backend/internal/calendars/postgres_repository.go:228-267 | the loop of conditional updates goes through if and only if every update matches its stored connection, and writes each |
| `CalendarRepository.Repository.SaveSelectedCalendar` | backend/internal/calendars/postgres_repository.go:375-398 | the row upserted, or a collision and nothing |
| `CalendarRepository.Repository.DeleteSelectedCalendar` | backend/internal/calendars/postgres_repository.go:400-431 | the row and a destination that names it are gone; the flags say which |
| `CalendarRepository.Repository.SetDestinationCalendar` | backend/internal/calendars/postgres_repository.go:452-478 | the destination is set exactly when the calendar is selected |
| `CalendarStore.FilterInPlace` | backend/internal/calendars/store.go:305-315 | the filter that appends into the slice it reads equals the functional filter |
| `CalendarStore.RefreshInPlace` | backend/internal/calendars/store.go:533-549 | so does the refresh over the same backing array |
| `CalendarStore.IndexCatalog` | backend/internal/calendars/store.go:534-537 | the index finds what a scan of the catalog finds |
| `CalendarStore.ReplaceOrAppend` | backend/internal/calendars/store.go:268-282 | the entry replaced where it stands, or appended |
| `CalendarStore.ValidateStatusUpdates` | backend/internal/calendars/store.go:619-639 | accepts exactly named, distinct updates that match a cached connection |
| `CalendarStore.ApplyStatusUpdates` | backend/internal/calendars/store.go:641-657 | every named connection has the status, code and check time of its update and its other columns, the others are as they were, in order |
| `CalendarStore.Store.Load` | backend/internal/calendars/store.go:385-492 | loading gives the cache that equals the tables |
| `CalendarStore.Store.RefreshSelectedForCatalog` | backend/internal/calendars/store.go:533-555 | selection and destination narrowed to the catalog, in a fresh array |
| `CalendarStore.Store.SyncProviderCatalog` | backend/internal/calendars/store.go:176-196 | with or without a repository, the next state and the answer are those of the specification, and cache and tables stay equal |
| `CalendarStore.Store.RefreshProviderConnectionStatus` | backend/internal/calendars/store.go:198-234 | with or without a repository, the next state and the answer are those of the specification, and cache and tables stay equal; after an accepted refresh each updated cached connection has the status, code and check time of its update and its other columns, and the others are untouched |
| `CalendarStore.Store.SaveSelectedCalendar` | backend/internal/calendars/store.go:246-286 | with or without a repository, the next state and the answer are those of the specification, and cache and tables stay equal |
| `CalendarStore.Store.DeleteSelectedCalendar` | backend/internal/calendars/store.go:288-329 | with or without a repository, the next state and the answer are those of the specification, and cache and tables stay equal |
| `CalendarStore.Store.ReadDestinationCalendar` | backend/internal/calendars/store.go:331-350 | with or without a repository, the next state and the answer are those of the specification, and cache and tables stay equal |
| `CalendarStore.Store.SetDestinationCalendar` | backend/internal/calendars/store.go:352-383 | with or without a repository, the next state and the answer are those of the specification, and cache and tables stay equal |
| `OAuthGrants.IntersectStrings` | backend/internal/auth/service.go:471-486 | the values of the first list that are in the second, in order |
| `OAuthGrants.IntersectIsBoth` | backend/internal/auth/service.go:471-486 | a value is in the intersection exactly when it is in both |
| `OAuthGrants.IntersectInOrder` | backend/internal/auth/service.go:471-486 | the intersection is the first list without what the second lacks, in its order and with its repetitions |
| `OAuthGrants.IntersectAgain` | backend/internal/auth/service.go:465-469 | narrowing again by the same scopes changes nothing |
| `OAuthGuarantees.StepKeeps` | backend/internal/auth/service.go:346-422 | every call keeps refresh records and access tokens in bijection and each live grant on one spent code, and lowers codes plus grants only by failed generation |
| `OAuthGuarantees.InvHolds` | backend/internal/auth/service.go:346-422 | over every run with fresh tokens |
| `OAuthGuarantees.GrantsAreConserved` | backend/internal/auth/service.go:346-422 | unused codes plus live refresh tokens never grow |
| `OAuthGuarantees.SupersededStaysOut` | backend/internal/auth/service.go:389-436 | a superseded token never authenticates and never refreshes again |
| `OAuthGuarantees.RotationSupersedes` | backend/internal/auth/service.go:389-422 | a rotation supersedes both old tokens, and the new access token authenticates as the old one did |
| `OAuthGuarantees.LiveTokensCarryTheIntersection` | backend/internal/auth/service.go:465-486 | after any number of rotations a live token carries exactly the intersection of an original code's permissions and scopes |
| `OAuthGuarantees.OneLiveGrantPerCode` | backend/internal/auth/service.go:346-387 | a code has at most one live grant, and none while it is unused |
| `OAuthGuarantees.ExchangesAgree` | backend/internal/auth/postgres_repository.go:271-328 | exchanges: rows and maps answer alike but for naming a used grant, and stay in correspondence |
| `OAuthGuarantees.RotationsAgree` | backend/internal/auth/postgres_repository.go:330-385 | rotations likewise |
| `OAuthGuarantees.AuthenticationsAgree` | backend/internal/auth/postgres_repository.go:387-434 | both forms authenticate the same tokens as the same principals at the same moments |
| `OAuthGuarantees.RowsAbstractToMaps` | backend/internal/auth/postgres_repository.go:271-434 | while no draw has failed on a stored, unexpired, matching grant the unrevoked rows are exactly the grants of the maps, the next call is answered alike and every token authenticates alike |
| `OAuthGuarantees.RowsAreConserved` | backend/internal/auth/postgres_repository.go:271-385 | in rows unused codes plus live tokens stay as many as the codes seeded, whatever fails |
| `OAuthGuarantees.RowsAbstractExactlyWhen` | backend/internal/auth/postgres_repository.go:271-385 | at any moment of any run the unrevoked rows are the grants of the maps if and only if no draw has failed on such a grant before |
| `OAuthGuarantees.FailedDrawParts` | backend/internal/auth/service.go:346-387 | a concrete run on which they part: a code, a failed draw and a second attempt, which the maps refuse and the rows honour |
| `OAuthGuarantees.FailedGenerationDiffers` | backend/internal/auth/service.go:346-422 | such a draw is answered alike by both, rolled back by the rows, and leaves the maps without the grant |
| `OAuthAcceptance.MapExchangeAnswers` | backend/internal/auth/service.go:346-366 | a code is honoured if and only if it is stored, of this client and redirect, unexpired, and the draw succeeds; each failing guard has its error |
| `OAuthAcceptance.MapRotateAnswers` | backend/internal/auth/service.go:389-409 | a refresh token is honoured if and only if it is stored, of this client, unexpired, and the draw succeeds; each failing guard has its error |
| `OAuthAcceptance.RowExchangeAnswers` | backend/internal/auth/postgres_repository.go:271-328 | in rows a code must also be unconsumed and the new tokens untaken; each failing guard has its error |
| `OAuthAcceptance.RowRotateAnswers` | backend/internal/auth/postgres_repository.go:330-385 | and a refresh token unrevoked |
| `OAuthAcceptance.MapExchangeLeaves` | backend/internal/auth/service.go:366-387 | an honoured code is gone; its pair carries the intersection for an hour and the grant for thirty days |
| `OAuthAcceptance.MapRotateLeaves` | backend/internal/auth/service.go:409-422 | an honoured refresh token is gone with its access token; the new pair carries the same grant, as long |
| `OAuthAcceptance.RowExchangeLeaves` | backend/internal/auth/postgres_repository.go:300-328 | in rows the code is marked consumed and one row is added, with those times |
| `OAuthAcceptance.RowRotateLeaves` | backend/internal/auth/postgres_repository.go:350-385 | in rows the old row is marked revoked and one is added |
| `OAuthAcceptance.LiveGrantsWerePresented` | backend/internal/auth/service.go:346-422 | over every run a live grant goes back to a code that its own client presented, at its own redirect and before its expiry |
| `OAuthAcceptance.IssuedTokensLast` | backend/internal/auth/service.go:366-436 | over every run, until its pair is rotated away, an access token authenticates at every moment before its issue plus one hour and at none from then on |
| `OAuthService.FixtureService.ExchangeAuthorizationCode` | backend/internal/auth/service.go:346-387 | Ok if and only if the code is stored, of this client and redirect, unexpired, and the draw succeeds; the code is deleted before a token is drawn |
| `OAuthService.FixtureService.ExchangeRefreshToken` | backend/internal/auth/service.go:389-422 | Ok if and only if the refresh token is stored, of this client, unexpired, and the draw succeeds; both old tokens are deleted first |
| `OAuthService.FixtureService.AuthenticateAccessToken` | backend/internal/auth/service.go:424-436 | the principal exactly of stored, unexpired tokens |
| `OAuthService.TokenRepository.ExchangeAuthorizationCode` | backend/internal/auth/postgres_repository.go:271-328 | Ok if and only if the code is stored, of this client and redirect, unconsumed, unexpired, the draw succeeds and neither new token is taken; otherwise everything is rolled back |
| `OAuthService.TokenRepository.ExchangeRefreshToken` | backend/internal/auth/postgres_repository.go:330-385 | Ok if and only if the refresh token is stored, of this client, unrevoked, unexpired, the draw succeeds and neither new token is taken; otherwise everything is rolled back |
| `OAuthService.TokenRepository.ReadAccessTokenPrincipal` | backend/internal/auth/postgres_repository.go:387-434 | the principal exactly of a stored, unrevoked and unexpired access token |
| `BookingIdempotency.StepKeeps` | backend/internal/booking/postgres_repository.go:154-204 | each step of each transaction keeps who holds which lock, whose key is whose, and one writer per key |
| `BookingIdempotency.OneWinnerPerKey` | backend/internal/booking/postgres_repository.go:154-204 | under any interleaving all callers with one non-empty key return one UID, and exactly one of them wrote |
| `BookingIdempotency.KeysNeverCollide` | backend/internal/booking/postgres_repository.go:191-196 | the unique key never stops a commit, and a duplicate's booking is always there |
| `BookingIdempotency.KeysHaveWriters` | backend/internal/booking/postgres_repository.go:191-196 | every stored key was written by a winner who asked for that booking |
| `BookingIdempotency.LosersLeaveNoRow` | backend/internal/booking/postgres_repository.go:154-204 | rows change only when a winner commits its booking, its key and all its effects together |
| `BookingGuarantees.ChangedIsHalfHour` | backend/internal/booking/store.go:523-529 | End = Start + 30 minutes is kept by every change |
| `BookingGuarantees.RequestIdSurvives` | backend/internal/booking/store.go:544-600 | a non-empty request id survives every change |
| `BookingGuarantees.CreatedUidIsFixed` | backend/internal/booking/store.go:220-230 | whoever creates, the booking has the one fixture UID |
| `BookingGuarantees.SavePlannedAppends` | backend/internal/booking/postgres_repository.go:402-420 | planning appends only, keeps keys unique, and covers the whole plan |
| `BookingGuarantees.SavedPlansStay` | backend/internal/booking/postgres_repository.go:402-420 | effects already planned are not planned again |
| `BookingGuarantees.ConcludeOne` | backend/internal/booking/store.go:274-291 | a change puts its booking into cache and repository with its whole plan, or touches neither |
| `BookingGuarantees.ConcludeTwo` | backend/internal/booking/store.go:349-365 | so does a pair of bookings |
| `BookingGuarantees.FindKeeps` | backend/internal/booking/store.go:609-642 | finding a booking keeps cache and repository equal and returns what is cached |
| `BookingGuarantees.DoKeeps` | backend/internal/booking/store.go:147-456 | so does every call |
| `BookingGuarantees.CacheEqualsRepository` | backend/internal/booking/store.go:147-456 | after every call of every run the cache equals the repository on persisted fields, bookings last half an hour, and no effect is planned twice |
| `BookingGuarantees.UnansweredChangesNothing` | backend/internal/booking/store.go:147-456 | a failed or refused call changes neither the cache nor the repository beyond finding the booking |
| `BookingGuarantees.CancelPuts` | backend/internal/booking/store.go:260-297 | an answered cancellation commits the cancelled booking and its three effects together |
| `BookingGuarantees.CancelAgain` | backend/internal/booking/store.go:260-297 | cancelling again, for any reason and by any request, plans nothing new |
| `BookingGuarantees.OneRowPerPlannedName` | backend/internal/booking/side_effects.go:68-93 | any number of cancellations leaves exactly one outbox row per planned name |
| `BookingGuarantees.ConfirmPuts` | backend/internal/booking/store.go:375-414 | only a pending booking is confirmed: an answered confirmation keeps its UID and time, makes it accepted and commits it with its effects |
| `BookingGuarantees.DeclinePuts` | backend/internal/booking/store.go:416-456 | only a pending booking is declined: an answered decline keeps its UID and time, makes it rejected and commits it with its effects |
| `BookingGuarantees.ConfirmPlans` | backend/internal/booking/side_effects.go:130-135 | after an answered confirmation the outbox holds its email and webhook effects under the booking and its request id |
| `BookingGuarantees.DeclinePlans` | backend/internal/booking/side_effects.go:137-156 | after an answered decline the outbox holds its email and webhook effects under the booking and its request id |
| `BookingGuarantees.ReschedulePlans` | backend/internal/booking/side_effects.go:95-128 | after an answered reschedule the outbox holds its calendar, email and webhook effects under the new booking and its request id |
| `BookingGuarantees.OldBookingCancelledExactlyWhen` | backend/internal/booking/store.go:299-373 | the old booking ends cancelled if and only if it is not the fixed rescheduled UID, which its successor overwrites |
| `BookingGuarantees.RescheduledTwiceEndsAccepted` | backend/internal/booking/store.go:299-373 | a concrete run on which it fails: the fixture booking is rescheduled, then the rescheduled one; both calls are answered and the latter ends accepted |
| `BookingCalls.CreateDoes` | backend/internal/booking/store.go:147-251 | a create whose key is new is answered if and only if the input is valid, the slot is reported available and the repository goes along; it then stores, in cache, repository and under its key, the booking asked for: start, half an hour, attendee, owner, hosts, responses, metadata |
| `BookingCalls.CreateAgainDoes` | backend/internal/booking/store.go:160-186 | a create whose key is remembered answers the booking the key names and changes no row |
| `BookingCalls.CreateTwice` | backend/internal/booking/store.go:147-251 | so a repeat with the same key answers the booking of the first call |
| `BookingCalls.FindMakesUp` | backend/internal/booking/store.go:609-642 | a booking nobody holds is made up and stored if it is one of the three fixtures, and missing if and only if it is not |
| `BookingCalls.CancelDoes` | backend/internal/booking/store.go:260-297 | exactly when a cancellation is answered; it changes status and update time of the booking found, in cache and repository, and nothing else |
| `BookingCalls.ConfirmDoes` | backend/internal/booking/store.go:375-414 | the same of a confirmation, which needs a pending booking |
| `BookingCalls.DeclineDoes` | backend/internal/booking/store.go:416-456 | and of a decline |
| `BookingCalls.RescheduleDoes` | backend/internal/booking/store.go:299-373 | exactly when a reschedule is answered; it leaves the old booking cancelled and its successor under the fixed UID at the start asked for, half an hour long |
| `BookingPlans.CancelGrows` | backend/internal/booking/side_effects.go:70-93 | an answered cancellation adds to the outbox exactly those of its three effects, written out, whose key is not there yet, due now |
| `BookingPlans.ConfirmGrows` | backend/internal/booking/side_effects.go:130-135 | a confirmation its two |
| `BookingPlans.DeclineGrows` | backend/internal/booking/side_effects.go:137-157 | a decline its two, with the reason |
| `BookingPlans.RescheduleGrows` | backend/internal/booking/side_effects.go:95-128 | a reschedule its three, with the old booking's UID and event |
| `BookingStore.Repository.SaveAll` | backend/internal/booking/postgres_repository.go:206-215 | the rows of the specification, or everything rolled back |
| `BookingStore.Repository.SaveNew` | backend/internal/booking/postgres_repository.go:154-204 | the rows of the specification, or everything rolled back |
| `BookingStore.Store.FindLocked` | backend/internal/booking/store.go:609-642 | the answer and the whole new state, cache and repository, of the specification |
| `BookingStore.Store.CancelBooking` | backend/internal/booking/store.go:260-297 | the answer and the whole new state, cache and repository, of the specification |
| `BookingStore.Store.RescheduleBooking` | backend/internal/booking/store.go:299-373 | the answer and the whole new state, cache and repository, of the specification |
| `BookingStore.Store.ConfirmBooking` | backend/internal/booking/store.go:375-414 | the answer and the whole new state, cache and repository, of the specification |
| `BookingStore.Store.DeclineBooking` | backend/internal/booking/store.go:416-456 | the answer and the whole new state, cache and repository, of the specification |
| `BookingStore.Store.CreateBooking` | backend/internal/booking/store.go:147-251 | the answer and the whole new state, cache and repository, of the specification; an answered create with a new key has the start, attendee, owner, hosts, responses and metadata asked for and stands in cache, repository and under its key |
| `Slots.BusyTimes` | backend/internal/slots/postgres_repository.go:80-116 | a slot is blocked by the result exactly when an accepted booking of the event type that meets the window overlaps it |
| `Slots.ReadSlots` | backend/internal/slots/postgres_repository.go:20-78 | each day lists, one by one and in table order, the slots of the window that fall on it, under its own name; a day without any is absent |
| `Slots.OfDayInOrder` | backend/internal/slots/postgres_repository.go:40-78 | the slots of a day are those of its rows in the window, one by one, in table order |
| `Slots.FreeInOrder` | backend/internal/slots/service.go:179-205 | the free slots keep their order and their repetitions |
| `Slots.SlotOverlapsBusyTime` | backend/internal/slots/service.go:207-227 | true exactly when some busy time overlaps the slot |
| `Slots.OverlapsIsMeeting` | backend/internal/slots/service.go:207-227 | a slot and a busy time overlap exactly when an instant is in both, ends excluded |
| `Slots.FilterBusySlots` | backend/internal/slots/service.go:179-205 | each day keeps its free slots in order and a day without any disappears |
| `Slots.ReadAvailable` | backend/internal/slots/service.go:142-166 | a window offers, under their own days, exactly its slots with no conflicting booking that starts before the window's end, and errs on one of its slots if and only if there are conflicting bookings and all start at or after that end |
| `Slots.HasSlot` | backend/internal/slots/service.go:168-177 | true exactly when some day offers the text |
| `Slots.IsAvailable` | backend/internal/slots/service.go:122-140 | the answer of a window of one microsecond |
| `Slots.SlotsInsideTheWindowAreRight` | backend/internal/slots/postgres_repository.go:80-116 | a slot that ends by the window's end is offered exactly when no accepted booking overlaps it |
| `Slots.IsAvailableErrsExactlyWhen` | backend/internal/slots/service.go:122-140 | IsAvailable differs from a covering window if and only if an accepted booking starts strictly inside the slot and none that overlaps it starts earlier; it then calls a taken slot available |
| `Slots.IsAvailableAgrees` | backend/internal/slots/service.go:122-140 | the two agree when no accepted booking starts strictly inside the slot |
| `Slots.HalfTakenSlotLooksAvailable` | backend/internal/slots/service.go:122-140 | a concrete input on which they differ |

## Left out

- HTTP handlers, routing, JSON, logging, configuration, pools and transports: a send is a choice of outcome.
- Signatures, hashes, encryption and the secrets behind subscriptions: nothing is claimed about secrecy; a token stands for its hash.
- E-mail and calendar attempt queues: the shape of webhook attempts without dead letters, and without a bound on retries; an effect of these kinds succeeds or fails as a parameter.
- The columns locked_at, last_error, response_status and delivered_at of the outbox and its attempts, and wall-clock columns that no decision reads.
- Several users: the tables of calendars are one user's; rows of others are disjoint by their key.
- Delivery identifiers: a delivery row is unique per side effect and is keyed by it.
- Claim order: creation order is the order of ids, ties of created_at included.
- A delivery body is the JSON value; its spelling in the database is not modelled.
- Trimming of references, catalog changes while a Store runs, and wire times below a millisecond.
- The in-memory consumption of a session reads the clock twice; the model reads it once.
- Reading install progress from several queries: the model reads one moment of the tables; the latest-record queries of the repository are covered by the rows they return, not by their text.
- AppTables.Plan: reads the intent, the preflight and the exchange at one moment, where the code issues several queries before its transaction.
- WebhookDispatcher.Database.Dispatch: the e-mail and calendar branches are one outcome given as a parameter.
- WebhookDispatcher.Database.RunOnce: is about a worker alone on the database; what holds among others is in `WebhookPasses`, over executions of the protocol.
- CalendarStore.Store.Load: starts from loaded tables, without seeding from the provider or the fixtures.
- BookingStore.Store.CreateBooking: a duplicate that only the save reports is an error, where the code reads the booking again and returns it; with one Store over its repository the earlier read has then already failed to find that booking.
- The app catalog read, app metadata seeding, and provider credential storage: the OAuth port and the credential store succeed or fail as one parameter.
- Updated-at columns of intents and sessions: when each was last touched is given to the reading as a function; the tables' own updated-at columns follow the database's clock and are not compared with those in memory.
- Seeding of calendar fixtures and the provider read while loading a user: the proofs start from a loaded user, and from an empty one in memory.
- `SaveCalendarConnection` and `SaveCatalogCalendar`: only seeding calls them, and they write no history.
- SQL collation: string order is byte order, as in Go.
- Saving an authorization code again: it clears the consumption of a code and is used for seeding only.
- The principal's identity fields besides its id and permissions, and created_at and updated_at of principals.
- Several booking Stores over one repository: creation overwrites the one fixture UID, so a second Store's cache would go stale; the race for one key is in `BookingIdempotency`.
- A global rule against double booking: Confirm does not look at availability and the code promises none.
- Input validation of bookings and slot requests is one parameter, time zones and RFC 3339 parsing are outside, and texts of the same instant count as the same start of a booking.
- Slots without a repository: two fixed slots pass through the same filter; an event type of zero, unparsable times and the default time zone are input handling.
- Payloads of planned booking effects are rendered as text, without a claim about their JSON.
- The booking_fixtures copy of a booking, which is written with the row and read only in its absence.
- Authorization policies, credential metadata and provider token storage: easy, or the status pattern of the calendars again.
