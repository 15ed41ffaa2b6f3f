# DNSid SDK: verified model of its protocols and text formats

This project models the stateful protocols and the pure text and fold cores of the DNSid Python SDK in
Dafny and proves what they promise: managed key rotation and its crash recovery, the coordination of
concurrent verification with its identity cache, the file-backed key store, the verification budget and
its two-branch runners, the limiter of WBA mismatch refreshes, the identity-record text format, the DoH
TXT reader and the lifecycle reducer. `dafny verify dfyconfig.toml` checks all of it.

Each concurrent or crash-prone component is a step machine: a state, a choice the environment makes, a
`Step`, and `Run` over any sequence of choices. One step is one effect or one lock region, so a run is any
interleaving with any number of failures and crashes. The theorems are about every run. Beside each machine
stands the component in its own imperative form (a class or a loop): its methods make exactly the machine's
steps, keep its invariant, and state what their caller gets.

| file | content |
|---|---|
| `KeyStores`, `KeyFiles`, `LocalKeyProvider` | key store operations, many providers on one file, the provider object |
| `Rotations`, `RotationSafety`, `RotationTheorems`, `RotationRuns`, `RotationChecks`, `RotationManager` | rotation machine, its invariant, its theorems, runs that do occur and successive rotations, what its checks let through, its methods |
| `Coordination`, `CoordinationSafety`, `CoordinationTheorems`, `CoordinationAnswers`, `Coordinator`, `VerificationPool` | the same for verification coordination, what calls get, and its worker pool |
| `Budget`, `AsyncBudget`, `RefreshLimiter` | budgets, threaded and native two-branch runners, refresh limiter |
| `Records`, `RecordFacts`, `RecordTheorems`, `RecordRoundTrips`, `RecordBytes`, `RecordErrors` | identity record: parsers, printers, accepted language, canonical form, round trips, exact bytes, exact errors |
| `Lifecycle`, `LifecycleTheorems`, `LifecycleFailures`, `DohText` | lifecycle snapshots, their failures, DoH TXT strings |
| `Options`, `Sets`, `Texts`, `Sorting` | shared helpers |

## Where the code does not keep a promise

These properties one would expect turned out false of the code. Each is shown by a family of runs and
replaced by the exact condition.

- *The durable rotation phase only moves forward, and safety survives every resume.* A resume may be handed any
  state the application ever saw, and its first effect is to write that state over the durable one. It gets
  there exactly when the providers are the rotation's own, the state is neither activated nor rejected and the
  keys let it pass (`ResumeOpensExactlyWhen`), and the phase regresses exactly when that state is behind
  (`ResumeRegressesExactlyWhen`): a pending result takes back a durable acceptance (`StalePendingRegresses`)
  or a durable rejection (`StalePendingOverRejection`). Some of these resumes also break safety: across
  providers a pending result leaves the new key active under a state that is not accepted
  (`StalePendingUnderActiveKey`), and after completion an accepted copy is durable while signing goes on
  (`StaleAcceptedUnderRelease`). Each of the four has its `…IsReachable` lemma: every start that can rotate
  leads there by an admissible run (`StalePendingUnderActiveKey` needs two providers). The resumes that
  break safety are exactly the misfits (`MisfitsBreakSafety`). Two promises need runs whose resumes are not:
  release only under durable activation, and the new key signing only under durable acceptance. All else,
  recovery included, holds for whatever states of the durable rotation resumes were handed before
  (`OneResumeCompletes`, `OldOrNewKeyAlwaysSigns`, `SubmissionsRepeatTheFirstPersisted`). Not every older
  state is a misfit: the one an error carries when the activated write landed but the hook raised regresses
  the phase safely (`RaisedActivationRegresses`).
- *Rotations follow one another safely.* Nothing in a resume or a new rotation asks whether another one is
  durable. A state of an earlier rotation breaks the safety of the present one exactly when its resume is not
  refused, unless it only releases signing before the first submission or once this one is activated
  (`OtherRotationsBreakSafety`). For a completed rotation that is as long as its new key still signs
  (`CompletedStateOpensExactlyWhen`), and it does happen (`CompletedStateDisplacesTheNext`); for a rejected
  one it is always so before the keys move (`RejectedStateOpensExactlyWhen`). A second rotation begun over a
  durable one breaks it exactly when the call prepares: key, references, algorithms and envelope match and
  nothing raises (`RotatingAgainBreaksSafety`, `RotationOpensExactlyWhen`); that happens as well
  (`RotatingAgainIsReachable`).
- *Two mismatch refreshes of a domain start at least five seconds apart on the clock values read.* A thread
  for another domain that read a later time and took the lock earlier purges the entry that would have held
  the start back (`OneSecondApartOutOfOrder`). An attempt within the five seconds is let through if and only
  if such a reading entered (`TooSoonExactlyWhen`); when the lock is taken in clock order the promise holds
  (`FiveSecondsApartInClockOrder`).
- *The two-branch runner reports the same code whichever branch settles first*, as its documentation says. A
  branch can fail, succeed, or exhaust in its own thirty-second scope while the caller's budget is unspent
  (`OwnScopeSpentExactlyWhen`). `OutcomesExactly` lists what each of the nine combinations can come to, and
  `SameCodeExactlyWhen` says for which of them all schedules that miss no wait come to one outcome.
- *The wait for the secondary returns what the secondary settled to.* If it settles after a poll timed out and
  before the handler looks, the caller gets the poll's `TimeoutError` instead, even when both branches
  succeeded (`SettlesInTheGap`, `SameOutcomeExactlyWhen`).
- *A caller that was not cancelled sees no cancellation.* When the secondary exhausts by itself the native
  runner may raise the cancellation of the primary it set off, and only then (`AsyncAgreesWithThreads`).

## Model

| member | source | states |
|---|---|---|
| KeyStores.IndexOf | dnsid/local_key_provider.py:565-565 | The first key with a kid, or -1 exactly when no key has it |
| KeyStores.ApplyAccountsForKeys | dnsid/local_key_provider.py:541-594 | Every operation keeps each key in exactly one of active, retained, pending; generation adds its key, activation adds and drops none, supersede drops its key, and nothing else |
| KeyStores.ActivateMovesTheKey | dnsid/local_key_provider.py:556-571 | Refused exactly when the kid is not pending; otherwise that key is active, the old active one retained, no other key moves |
| KeyStores.SupersedeDropsTheKey | dnsid/local_key_provider.py:573-594 | Refused exactly when the kid is neither retained nor (if allowed) active; otherwise only that key is gone |
| KeyStores.JwkFindsEveryKey | dnsid/local_key_provider.py:498-512 | In a well-formed store `jwk` finds exactly the keys that are there and fails for all others |
| KeyStores.SignsAndLists | dnsid/local_key_provider.py:498-540 | The active and the pending keys sign, never a retained one; the active and the retained keys are listed, never a pending one |
| KeyFiles.StepInv | dnsid/local_key_provider.py:137-182 | Every step of any provider (load, mutation, failed write, death) keeps: the file is the replay of the committed replacements, one lock holder, writes decided on the file as it still is |
| KeyFiles.ReplaceInv | dnsid/local_key_provider.py:164-182 | The same for a write that returns, raises before or raises after the replacement: no other provider's update is lost |
| KeyFiles.FileIsASequentialReplay | dnsid/local_key_provider.py:598-616 | In every run of any number of providers the file equals the sequential replay of the committed operations, each key is in one place, every memory is a state that was committed, and equals the file when a mutation ends |
| KeyFiles.KeysVanishOnlyBySupersede | dnsid/local_key_provider.py:573-594 | From any reachable state on, a key leaves the file only by a committed supersede of that key |
| KeyFiles.OnlyTheFirstCreates | dnsid/local_key_provider.py:369-388 | Creation and migration are only ever the first replacement of the file |
| KeyFiles.FirstLoadsAgree | dnsid/local_key_provider.py:359-388 | Any number of concurrent first loads of a missing file, failures and deaths included, create it once and all hold that one key |
| KeyFiles.MigrationKeepsTheKey | dnsid/local_key_provider.py:369-388 | Any number of concurrent loads of a file in the old format migrate it once, and every loaded provider signs with the key it held |
| LocalKeyProviders.FindKid | dnsid/local_key_provider.py:565-565 | The search loop computes the first index, or -1 |
| LocalKeyProviders.KeyFile.Replace | dnsid/local_key_provider.py:164-182 | Whichever step raises, the file is the old store or the whole new one, the new one unless a step up to the replacement raised, and no temporary file stays behind |
| LocalKeyProviders.LocalKeyProvider.Load | dnsid/local_key_provider.py:342-388 | A current store is read as it is; otherwise what the second read under the lock finds decides between reading, migrating, creating and failing; a returned provider holds what the file holds |
| LocalKeyProviders.LocalKeyProvider.Edit | dnsid/local_key_provider.py:541-594 | The in-place edits of the copy are the store operations |
| LocalKeyProviders.LocalKeyProvider.Mutate | dnsid/local_key_provider.py:598-616 | In memory nothing changes unless the edit succeeds; on a file the memory is the file afterwards, whatever became of the write |
| LocalKeyProviders.MachineRunsTheMutation | dnsid/local_key_provider.py:606-616 | The machine's locked section ends with exactly the file and memory of the method, and touches no other provider |
| LocalKeyProviders.MachineRunsTheLoad | dnsid/local_key_provider.py:342-388 | The machine's load on its own: what is read, migrated, created or refused, with the file and the memory it ends with |
| LocalKeyProviders.MutationAnswers | dnsid/local_key_provider.py:598-616 | Done, missing file, other format, refused operation and failed write as iffs over file, operation and raising step, and exactly when the file changes |
| RotationSafety.ValidateKeysExactly | dnsid/manager.py:1191-1236 | In each of the three key situations of a rotation the validation passes exactly the states that may be in it (across providers, with both keys active, any state) and tells whether the new key is active |
| RotationSafety.WrongProvidersRefused | dnsid/manager.py:1191-1236 | The validation never passes with the wrong provider in the target's part |
| RotationSafety.ResumeFindsItsProviders | dnsid/manager.py:1158-1189 | Whatever provider objects a resume is offered, it goes on only with the source and the target in their own parts |
| RotationSafety.ActivationOverlaps | dnsid/manager.py:1262-1266 | Activation of the pending key succeeds and leaves both keys usable, old one retained or still active in the other provider |
| RotationSafety.SupersedeReconciles | dnsid/manager.py:1267-1273 | The supersede that follows succeeds and leaves the new key active and the old one gone, same-provider or cross-provider |
| RotationSafety.StepKeepsInv | dnsid/manager.py:734-1156 | Every effect, raised or not, landed or not, keeps the invariant that ties durable state, key stores, every state ever handed out and program point together, whatever state of the durable rotation a resume is handed |
| RotationSafety.RunKeepsInv | dnsid/manager.py:734-1156 | So does every run of such steps, with any number of crashes and resumes |
| RotationSafety.StepKeepsGuard | dnsid/manager.py:734-1156 | Every effect also keeps that the new key signs only under durable acceptance and that nothing signs unpaused, or is about to, unless durably activated, provided a resume that is not refused was handed a state that fits |
| RotationSafety.RunKeepsGuard | dnsid/manager.py:734-1156 | So does every run of such steps |
| RotationChecks.AcceptanceCarriesItsProof | dnsid/manager.py:1348-1359 | In every run, every accepted state that is durable or was ever handed out carries the hash of the bytes, the new key id, a log index and the reference to it in its own log |
| RotationChecks.AnswerRefusedExactlyWhen | dnsid/manager.py:1328-1359 | Which registry answers are refused, as an iff over their fields and the rotation; a refused one changes nothing durable, any other is persisted as it is |
| RotationChecks.ErrorsDecideNothing | dnsid/manager.py:1034-1070 | A terminal error leaves everything durable as it was, any other leaves the submission pending with the hash of the bytes |
| RotationChecks.AlteredStatesAreRefused | dnsid/manager.py:1275-1326 | Whatever state a resume is handed, it goes on only with the local identity, the hash of the very bytes, bytes that name its keys, an acceptance with its proof and the saved references |
| RotationChecks.ResumedKeysAreThere | dnsid/manager.py:1191-1236 | A resume goes on only with the new key in the target and, if still listed, the old one in the source, under the saved thumbprints |
| RotationChecks.TheStateIsHandedOut | dnsid/manager.py:1377-1383 | However an invocation ends short of a crash, the application has the state it worked on |
| RotationTheorems.SigningReleasedOnlyAfterActivation | dnsid/manager.py:951-986 | In every run whose resumes are handed states that fit: signing is released, or unpaused after the first submission, only when the durable state is activated and accepted and the target signs with the saved new key |
| RotationTheorems.OldOrNewKeyAlwaysSigns | dnsid/manager.py:1262-1273 | In every run whose resumes are handed any states of the durable rotation: at every instant the old key is active or, under durable acceptance, the new one; the old one is gone only once the new one is active so |
| RotationTheorems.NewKeyActivatesOnlyAccepted | dnsid/manager.py:1262-1266 | In every such run the active key of the target changes only to the new key, at the activation, under durable acceptance and with signing paused |
| RotationTheorems.NewKeySignsOnlyAccepted | dnsid/manager.py:1262-1273 | In every run whose resumes are handed states that fit, the new key is active only under durable acceptance |
| RotationTheorems.SubmissionsRepeatTheFirstPersisted | dnsid/manager.py:1023-1107 | In every run whose resumes are handed any states of the durable rotation: every submission carries the first-persisted domain, bytes and idempotency key, and is made with that rotation durable and signing paused |
| RotationTheorems.PhaseRegressesExactlyWhen | dnsid/manager.py:996-1011 | The durable phase moves back only at the opening persist of a resume, exactly when the resumed state is behind the durable one |
| RotationTheorems.ResumeOpensExactlyWhen | dnsid/manager.py:943-1011 | A resume gets to its opening persist exactly when its providers resolve to the rotation's own, its state is neither activated nor rejected, and the key situation lets it pass |
| RotationTheorems.ResumeRegressesExactlyWhen | dnsid/manager.py:906-1021 | In terms of handed state, durable state and key situation: when a resume takes the durable phase back |
| RotationTheorems.MisfitsBreakSafety | dnsid/manager.py:906-1021 | A resume that is not refused leads to an unsafe state if and only if it was handed a misfit: another rotation, activated though the durable state is not, not accepted though the new key signs, or not activated though signing was released |
| RotationTheorems.StalePendingRegresses | dnsid/manager.py:996-1021 | A pending result resumed once its acceptance is durable takes the phase from accepted back to pending |
| RotationTheorems.StalePendingUnderActiveKey | dnsid/manager.py:1218-1225 | Across providers, resumed with both keys active, it leaves the new key active under a durable state that is not accepted |
| RotationTheorems.StaleAcceptedUnderRelease | dnsid/manager.py:996-1021 | After completion, resuming an accepted copy from before activation makes it durable while signing goes on |
| RotationTheorems.StalePendingOverRejection | dnsid/manager.py:987-1011 | A pending result resumed after a durable rejection is written over it |
| RotationRuns.StalePendingIsReachable | dnsid/manager.py:734-1107 | Every start that can rotate leads, by an admissible run, to a state in which resuming a known pending result takes a durable acceptance back to pending |
| RotationRuns.StalePendingOverRejectionIsReachable | dnsid/manager.py:734-1107 | Every such start leads to a durable rejection that resuming a known pending result writes over |
| RotationRuns.StalePendingUnderActiveKeyIsReachable | dnsid/manager.py:734-1156 | Every such start across two providers leads to a crash after activation from which resuming a known pending result leaves the new key active under a state that is not accepted |
| RotationRuns.StaleAcceptedUnderReleaseIsReachable | dnsid/manager.py:734-1156 | Every such start leads to a completed rotation that resuming a known accepted copy takes back to accepted while signing goes on |
| RotationTheorems.DurableStaysKnown | dnsid/manager.py:1377-1383 | Whatever was durable once can be handed to every later resume |
| RotationTheorems.RaisedActivationRegresses | dnsid/manager.py:1128-1136 | Every raised persist of the activated state whose write landed leads to such a regression |
| RotationTheorems.ForwardResumesMoveForward | dnsid/manager.py:906-1021 | If every resume is handed a state of the durable rotation at least as far along as the durable one the phase only moves forward |
| RotationTheorems.RejectionIsFinal | dnsid/manager.py:987-995 | In every run whose resumes are handed rejected states, nothing durable changes after a durable rejection |
| RotationTheorems.ResumeProceeds | dnsid/manager.py:906-1021 | A resume of any state of the durable rotation that its keys let pass, misfits included, with providers that resolve to the rotation's own, passes every validation and starts exactly where it should |
| RotationTheorems.EveryDurableStateResumes | dnsid/manager.py:1275-1326 | Whatever states of the rotation resumes were handed before, every reachable durable state passes the persisted-state and the key validation and is in one of the three key situations; it fits itself if the states handed before did |
| RotationTheorems.DriveCompletes | dnsid/manager.py:1023-1156 | Ten uninterrupted steps from any point of a resume complete it |
| RotationTheorems.OneResumeCompletes | dnsid/manager.py:906-1021 | After any run whose resumes were handed any states of the durable rotation, also those that broke safety, and one more crash: one uninterrupted resume of the durable state with an accepting registry and matching publication ends released, new key active, old key gone, the manager signing with the target, for every call whose arguments resolve to the rotation's own providers |
| RotationTheorems.CallsThatResolve | dnsid/manager.py:1158-1189 | Which calls those are: the source given, or left out where the manager has it; the target given, or left out on one provider |
| RotationTheorems.PassingResumeCompletes | dnsid/manager.py:906-1021 | So does one uninterrupted resume of any other state of the rotation that its keys let pass: one an error carried, even if nothing is durable yet, an older one, or a misfit |
| RotationTheorems.UninterruptedRotationCompletes | dnsid/manager.py:734-904 | A new rotation with matching references, algorithm, key and entry that nothing interrupts completes |
| RotationRuns.CompletedStartsTheNext | dnsid/manager.py:906-933 | A completed rotation leaves its target ready to be the source of the next |
| RotationRuns.RejectedStartsOver | dnsid/manager.py:987-995 | A rejected rotation leaves its source signing with the same key, ready for a new rotation |
| RotationRuns.OtherRotationsBreakSafety | dnsid/manager.py:906-1021 | While a rotation is durable, a resume of any state of another rotation leads to an unsafe state exactly when it is not refused, except for an activated one before the first submission or once this one is activated |
| RotationRuns.CompletedStateOpensExactlyWhen | dnsid/manager.py:1191-1236 | Handed a state of a completed rotation during a later one, a resume is not refused exactly when that state is accepted and paused, its new key is still the active key of the target, and a second provider has no active key |
| RotationRuns.RejectedStateOpensExactlyWhen | dnsid/manager.py:1191-1236 | Handed a state of a rejected rotation whose key is still pending, with the old key still active, a resume is not refused exactly when that state is neither activated nor the rejected one |
| RotationRuns.CompletedStateDisplacesTheNext | dnsid/manager.py:906-1021 | Wherever a completed rotation left an accepted copy known, the next rotation comes to a pending result which a resume of the copy writes over |
| RotationRuns.RotatingAgainBreaksSafety | dnsid/manager.py:734-904 | A rotation begun while one is durable leads to an unsafe state exactly when the call prepares |
| RotationRuns.RotationOpensExactlyWhen | dnsid/manager.py:792-874 | A new rotation comes to its opening persist exactly when it is called on the source with a new key, valid idempotency key, matching references and algorithms, generation does not raise, and the envelope names the active and the new key |
| RotationRuns.RotatingAgainIsReachable | dnsid/manager.py:734-904 | From every start that can rotate with two different keys, the rotation to one comes to a pending result that the rotation to the other writes over |
| RotationManagers.RotationManager.RotateOperationalKey | dnsid/manager.py:734-904 | Its effects are the machine's run under the same decisions; the new rotation is durable afterwards exactly when the call prepares and its first persist lands, otherwise nothing durable changes; begun with nothing durable it keeps invariant and guard and signing goes on only under an activated state; if nothing interrupts a call that can go through, the rotation is done |
| RotationManagers.RotationManager.GeneratePending | dnsid/manager.py:792-829 | Argument checks, generation and the checks on the generated key, step for step |
| RotationManagers.RotationManager.PrepareAndSign | dnsid/manager.py:835-874 | Preparation, both signatures and the first recovery state |
| RotationManagers.RotationManager.ResumeKeyRotation | dnsid/manager.py:906-1021 | Its effects are the machine's run; handed a state of the durable rotation it keeps the invariant, handed one that fits also the guard, and signing goes on only under an activated state; if nothing interrupts it and the keys let the state pass, the rotation is done |
| RotationManagers.RotationManager.BeginResuming | dnsid/manager.py:940-995 | The validations before any effect, and what there is left to do |
| RotationManagers.RotationManager.PersistThenPause | dnsid/manager.py:875-904 | Persist, pause, then submit or finish |
| RotationManagers.RotationManager.SubmitRotation | dnsid/manager.py:1023-1107 | Submission and its five outcomes |
| RotationManagers.RotationManager.FinishAcceptedRotation | dnsid/manager.py:1109-1156 | Publication, reconciliation, activated persist, release, completed persist, in this order |
| RotationManagers.RotationManager.ReconcileRotationKeys | dnsid/manager.py:1262-1273 | Activation if needed, then supersede |
| RotationManagers.RotationManager.ActivateNewKey | dnsid/manager.py:1265-1266 | Activates unless the validation says the key is active |
| RotationManagers.RotationManager.SupersedeOldKey | dnsid/manager.py:1267-1273 | Supersedes a listed previous key with the saved thumbprint |
| RotationManagers.RotationManager.CallRegistry | dnsid/manager.py:1034-1083 | The registry call, its terminal and indeterminate errors, and the check of its answer |
| CoordinationSafety.StepInv | dnsid/manager.py:1488-1933 | Every lock region and completion keeps: slots hold unfinished futures of their kind, work that will write the cache is newer than the cache, a refresh acquires only with no lookup in flight, zero-TTL evidence has one owner |
| CoordinationSafety.RunInv | dnsid/manager.py:1488-1933 | So does every interleaving |
| CoordinationSafety.OneAcquirer | dnsid/manager.py:1797-1826 | At most one future that will write the cache is acquiring evidence |
| CoordinationTheorems.CachedEvidenceOnlyGetsNewer | dnsid/manager.py:1797-1826 | What is cached later was acquired no earlier than what is cached now |
| CoordinationTheorems.RefreshIsNeverUndone | dnsid/manager.py:1797-1826 | Nothing acquired before an explicit refresh began its acquisition is ever cached after that refresh wrote |
| CoordinationTheorems.CacheChangesOnlyBy | dnsid/manager.py:1907-1933 | The cache comes to hold something else only by a full verification, or by a status refresh that finds the very entry it read and moves only its check time |
| CoordinationTheorems.RefillNeedsFullVerification | dnsid/manager.py:1828-1843 | Every run from an evicted to a cached domain contains a full verification |
| CoordinationAnswers.NotActiveEvictsAndFails | dnsid/manager.py:1907-1918 | In every run a not-ACTIVE answer evicts the domain, whoever waits for that status refresh never gets evidence from it, and only a full verification makes the domain cached again |
| CoordinationAnswers.FailedWorkServesNobody | dnsid/manager.py:1709-1795 | Once work has come to an error, every call that leads or joined it still waits or has raised, in every continuation |
| CoordinationAnswers.StatusAnswer | dnsid/manager.py:1907-1924 | Not ACTIVE empties the cache and fails the work with STATUS_NOT_ACTIVE; ACTIVE goes on with the same evidence and the new check time |
| CoordinationAnswers.RemovalEvictsExactlyWhen | dnsid/manager.py:1828-1845 | The removal of a finished future evicts the domain exactly when it came to STATUS_NOT_ACTIVE |
| CoordinationAnswers.RefreshReturnsRefreshedEvidence | dnsid/manager.py:1565-1613 | In every interleaving an explicit refresh returns only evidence acquired by a refresh of its own or one still in flight when it called, never by a lookup, a status refresh or work already over |
| CoordinationAnswers.LookupJoinsWhatIsInFlight | dnsid/manager.py:1680-1691 | A lookup joins a refresh, else a lookup, else a status refresh in flight, and reads the cache only with none |
| CoordinationAnswers.CacheReadAnswers | dnsid/manager.py:1692-1707 | A hit with a recent check is returned, one with an old check asks for a status refresh, a miss for a lookup |
| CoordinationAnswers.SettledWorkAnswers | dnsid/manager.py:1709-1765 | A joined call gets evidence with a TTL, an error as an error, and asks again on zero TTL; the leader takes what there is |
| CoordinationAnswers.AcquisitionAnswers | dnsid/manager.py:1936-1997 | Acquired evidence has the TTL met, the time the acquisition began and the time of the check |
| CoordinationAnswers.VerificationIsCachedExactlyWhen | dnsid/manager.py:2155-2167 | Evidence of a lookup or refresh is cached if it has a TTL and has not expired, else the domain is evicted; a private retry touches nothing |
| CoordinationAnswers.StatusReadAnswers | dnsid/manager.py:1882-1905 | A newer check is reused, the cached entry is asked about, and without one full work is joined or led |
| CoordinationAnswers.SwapAnswers | dnsid/manager.py:1919-1933 | Evicted meanwhile fails, another entry is returned and stays, the same one is replaced by the refreshed one unless that expired |
| CoordinationAnswers.RefreshWaitsAnswers | dnsid/manager.py:1797-1808 | A refresh acquires its own evidence after the older lookup, whether that verified or failed to; other errors are passed on |
| CoordinationAnswers.JoinedStatusAnswers | dnsid/manager.py:1856-1876 | A status refresh that joined full work ends as it did; zero-TTL evidence it keeps only as an async leader |
| CoordinationTheorems.ZeroTtlIsNeverCached | dnsid/manager.py:2155-2167 | Evidence with a zero TTL is never in the cache |
| CoordinationTheorems.ZeroTtlEvidenceServesOneCall | dnsid/manager.py:1715-1761 | No two calls, sync or async, lookup, status or refresh, return the same zero-TTL acquisition |
| CoordinationTheorems.WaitsDescend | dnsid/manager.py:1763-1905 | Status leaders wait for refreshes and lookups, refresh leaders for lookups, lookup leaders for nothing |
| CoordinationTheorems.SomeoneCanMove | dnsid/manager.py:1763-1905 | Behind every unfinished future of a domain there is one whose work is not waiting for another |
| VerificationPools.WorkersNeverBlock | dnsid/manager.py:1735-1795 | A job that holds a worker of the pool never blocks it: its work, or the lookup it leads on that worker, can go on |
| VerificationPools.PoolNeverDeadlocks | dnsid/manager.py:2488-2492 | In every run of a manager with any positive number of workers shared by all domains: while some future is unfinished, something gets done next |
| CoordinationTheorems.SyncRefreshNeverBlocksAWorker | dnsid/manager.py:1735-1754 | A sync-led refresh on a worker finds no pending lookup and goes straight to acquiring |
| CoordinationTheorems.NothingPendingIsDrained | dnsid/manager.py:2494-2501 | What shutdown looks at is everything: if it sees nothing pending, every future is done and no call active |
| CoordinationTheorems.ShutdownIsComplete | dnsid/manager.py:2503-2562 | From there no run ever creates a future or starts a call |
| Coordinators.Coordinator.EnterCall | dnsid/manager.py:2464-2476 | A call is refused exactly while closing; the step of its domain, all others untouched, the manager's invariant kept |
| Coordinators.Coordinator.Coalesce | dnsid/manager.py:1715-1726 | The claiming region is the machine's step for its domain, leaves all others alone and keeps the manager's invariant |
| Coordinators.Coordinator.AsyncClaim | dnsid/manager.py:1502-1512 | The same for the async claim |
| Coordinators.Coordinator.StatusJoinsOrLeads | dnsid/manager.py:1888-1901 | The same for a status refresh that finds the cache empty |
| Coordinators.Coordinator.CacheVerified | dnsid/manager.py:2155-2167 | The same for the cache write or eviction after a full verification |
| Coordinators.Coordinator.CacheRefreshedStatus | dnsid/manager.py:1923-1933 | The same for the compare-and-swap |
| Coordinators.Coordinator.TrackFinished | dnsid/manager.py:1828-1833 | The same for the tracking of a finished future |
| Coordinators.Coordinator.RemoveFinished | dnsid/manager.py:1834-1843 | The same for its removal and the eviction of a not-ACTIVE domain |
| Coordinators.Coordinator.HasPendingWork | dnsid/manager.py:2494-2501 | True exactly when an active call, a tracked worker or a slot of the domain is unfinished |
| Coordinators.Coordinator.PendingVerificationWork | dnsid/manager.py:2494-2501 | True exactly when that holds of some domain |
| Coordinators.Coordinator.Close | dnsid/manager.py:2503-2535 | Refused exactly on an event loop with work pending, and then nothing changes; when it closes, every future of every domain is done and no call is active; otherwise work is pending and no call enters any more |
| Budgets.BudgetContext.Open | dnsid/_verification_budget.py:72-97 | The nested budget is in place and unspent, or the context is unchanged and the error says why |
| Budgets.BudgetContext.Close | dnsid/_verification_budget.py:95-101 | The context is restored on every way out; a return is checked against the budget once more |
| Budgets.NestingOnlyTightens | dnsid/_verification_budget.py:89-95 | Any depth of nesting only shortens the deadline, below every timeout on the way, and only adds events |
| Budgets.NestedNeverOutlives | dnsid/_verification_budget.py:53-69 | A nested budget is spent whenever an enclosing one is, and grants no time past any enclosing deadline |
| Budgets.GrantsTheMostAllowed | dnsid/_verification_budget.py:52-69 | Spent exactly at the deadline or with an event set; otherwise the most that passes neither the maximum nor the deadline |
| Budgets.NestingIsTheEarliest | dnsid/_verification_budget.py:72-101 | Any depth of nesting has exactly the earliest deadline and exactly the events around |
| Budgets.WaitForVerification | dnsid/_verification_budget.py:144-151 | The polling loop returns the future's outcome, an own timeout included, unless the caller's budget is spent by then or the future settled in the gap after a timed-out poll |
| Budgets.OwnScopeSpentExactlyWhen | dnsid/_verification_budget.py:72-101 | With the caller's budget unspent a branch's own scope is spent exactly after its thirty seconds or when the shared flag is set |
| Budgets.StepInv | dnsid/_verification_budget.py:154-198 | Every step of caller, helper thread and clock keeps: before the caller's budget is spent, a branch that did not succeed by itself is behind every interruption |
| Budgets.ReturnsThePrecedence | dnsid/_verification_budget.py:154-198 | For every schedule, at the moment of returning: both results, else the primary's failure, else the secondary's, else exhaustion, over what has settled; or exhaustion of the caller's own budget; or the timeout of a wait that missed the secondary |
| Budgets.JoinNeverWaitsForWork | dnsid/_verification_budget.py:186-194 | The handler that blocks on the secondary's exception never blocks on a branch still at work |
| Budgets.OutcomesExactly | dnsid/_verification_budget.py:154-198 | Exactly which outcomes schedules reach before the caller's budget is spent, for all nine combinations of ends of the branches |
| Budgets.SameOutcomeExactlyWhen | dnsid/_verification_budget.py:154-163 | Over all schedules the outcome is one and the same exactly for the stated combinations |
| Budgets.CleanOutcomesExactly | dnsid/_verification_budget.py:154-198 | Exactly which outcomes schedules without a missed wait reach, for all nine combinations |
| Budgets.SameCodeExactlyWhen | dnsid/_verification_budget.py:154-163 | Over all pairs of schedules without missed waits the promise of one code holds if and only if no failing primary faces a different failure or an exhaustion, and no exhausted one a failure |
| Budgets.RunnerAlwaysEnds | dnsid/_verification_budget.py:154-198 | Once both branches have settled, every continuation in which the caller takes two steps ends |
| Budgets.SpentBudgetGivesNoResults | dnsid/_verification_budget.py:144-198 | Once the caller's budget is spent before it is checked, no continuation gives results; a wait ends in exhaustion and a late success counts as exhausted |
| Budgets.TwoBranchRunner.GuardedSecondary | dnsid/_verification_budget.py:169-175 | The flag is set before an exception reaches the future; before the caller's budget is spent an end that is not the branch's own has an unsuccessful primary behind it |
| Budgets.TwoBranchRunner.PrimaryBranch | dnsid/_verification_budget.py:183-197 | Through the branch and its handlers the caller waits, joins, or returns what an unsuccessful primary comes to alone |
| Budgets.TwoBranchRunner.JoinSecondary | dnsid/_verification_budget.py:144-198 | The whole wait, with the secondary settling and the budget running out at any rounds: exhaustion if the budget is spent first, the timeout if the settling falls in the gap after one, otherwise the precedence; every round is steps of the machine |
| AsyncBudgets.SelectOutcome | dnsid/_verification_budget.py:241-251 | The two loops choose a definitive failure in task order, else the caller's cancellation, else any failure, else the results |
| AsyncBudgets.AsyncStepInv | dnsid/_verification_budget.py:201-240 | Every step of tasks and runner keeps: while the budget is unspent and the caller not cancelled, a branch that did not succeed by itself is behind every interruption |
| AsyncBudgets.AsyncOutcomesExactly | dnsid/_verification_budget.py:201-251 | Exactly which outcomes orders of settling reach, for all nine combinations of ends |
| AsyncBudgets.AsyncAgreesWithThreads | dnsid/_verification_budget.py:201-251 | Every schedule of the native runner comes to what some schedule of the threaded one that misses no wait comes to, and vice versa, except that the caller may see the cancellation of the primary, exactly when the secondary exhausts by itself |
| AsyncBudgets.AsyncKeepsSettledFailures | dnsid/_verification_budget.py:241-251 | A settled definitive failure is reported, the primary's first; results only if both returned; the caller's cancellation exactly when it was cancelled and no branch failed |
| AsyncBudgets.InterruptionsReachTheBranches | dnsid/_verification_budget.py:209-240 | Cancelling the caller, or a branch that did not succeed, sets the flag and asks the busy branches to stop; a late success counts as out of budget |
| AsyncBudgets.AsyncSpentGivesNoResults | dnsid/_verification_budget.py:201-251 | Once the flag is set or the budget spent while a branch is at work, no continuation gives results |
| RefreshLimiters.RefreshLimiter.Enter | dnsid/wba_verifier.py:466-474 | Purge, refusal and claim of the first lock region |
| RefreshLimiters.RefreshLimiter.Leave | dnsid/wba_verifier.py:477-479 | Afterwards the domain is let in exactly at readings five seconds past this attempt's, as far as there is room, and nothing changes for other domains |
| RefreshLimiters.OneRefreshPerDomain | dnsid/wba_verifier.py:463-479 | In every interleaving a domain has at most one refresh in flight, however long it lasts, and the map never exceeds 1024 entries |
| RefreshLimiters.AcceptedExactlyWhen | dnsid/wba_verifier.py:466-474 | An attempt is let through exactly when nothing is in flight for the domain, its cooldown is over, and there is room |
| RefreshLimiters.CooledMeans | dnsid/wba_verifier.py:466-474 | The cooldown counts as over exactly when this reading or one that entered since the last end is five seconds past it |
| RefreshLimiters.StartsAreSpaced | dnsid/wba_verifier.py:463-479 | Between two starts of a domain some reading five seconds past the first has entered, in any lock order |
| RefreshLimiters.FiveSecondsApartInClockOrder | dnsid/wba_verifier.py:463-479 | With the lock taken in clock order two starts are five seconds apart |
| RefreshLimiters.TooSoonExactlyWhen | dnsid/wba_verifier.py:465-474 | Otherwise a start within the five seconds happens if and only if another thread entered with a later reading |
| RefreshLimiters.OneSecondApartOutOfOrder | dnsid/wba_verifier.py:465-474 | A family of runs in which two starts are one second apart |
| Records.ParseRecord | dnsid/models.py:694-759 | The parser's loop computes the specified outcome, error by error |
| Records.ParseUnsignedCanonical | dnsid/models.py:761-832 | So do the loops of the unsigned-canonical parser |
| Records.CheckElement | dnsid/models.py:725-741 | The checks of one element, in order |
| RecordTheorems.ParseAccepts | dnsid/models.py:694-759 | Every well-formed list of pairs is accepted in every layout and read as itself |
| RecordTheorems.ParseMeans | dnsid/models.py:694-759 | An accepted text is a layout of its well-formed pairs |
| RecordTheorems.ParseAcceptsExactly | dnsid/models.py:694-759 | The accepted texts are exactly the layouts (one space or none, trailing semicolon or none) of well-formed pairs |
| RecordBytes.NamesAndValues | dnsid/_utils.py:49-66 | The grammar of tag names and values, by code points |
| RecordBytes.AcceptedCharacters | dnsid/models.py:694-759 | An accepted text is printable ASCII with spaces only right after semicolons |
| RecordBytes.AcceptedTags | dnsid/models.py:751-759 | An accepted text has v, gi, ek, ku, lr, su and sg, none empty, and one of the two versions |
| RecordBytes.TagsThatSuffice | dnsid/models.py:694-759 | Distinct valid pairs that begin with a version and hold those tags are accepted in every layout |
| RecordErrors.ParseFailsExactly | dnsid/models.py:694-759 | Each parse error as an iff over the text: version first, version supported, the first element at fault, a missing tag, an empty one |
| RecordErrors.UnsignedFailsExactly | dnsid/models.py:761-832 | The same for the unsigned canonical parser |
| RecordErrors.ElementFails | dnsid/models.py:719-741 | Which fault of an element is reported, by its characters and the tags before it |
| RecordTheorems.CanonicalSignsThePairs | dnsid/models.py:904-912 | Two canonical forms are equal exactly when the same pairs are signed |
| RecordBytes.CanonicalIsInOrder | dnsid/models.py:904-912 | The signed form lists exactly the signed pairs, in the order of their names' characters |
| RecordBytes.CanonicalOfKnownTags | dnsid/models.py:893-912 | Without extension tags: the present ones of cu, ek, fl, gi, ka, ku, lr, su, v in this order |
| RecordBytes.RequiredTagsSigned | dnsid/models.py:893-912 | The signed bytes of a record with the required tags alone, written out |
| RecordBytes.SerializedInOrder | dnsid/models.py:927-935 | The published text: v, gi, ek, ku, lr, su, sg, fl, ka, cu as present, then the extension tags |
| RecordTheorems.CanonicalIsTheTagMap | dnsid/models.py:893-912 | Two accepted texts have one canonical form if and only if their tag maps agree apart from `sg`: independent of order, spaces and trailing semicolon, and injective, empty optional tags included |
| RecordRoundTrips.SerializedParsesBack | dnsid/models.py:927-935 | A well-formed record serialized and parsed comes back in every field |
| RecordRoundTrips.ParsedIsOk | dnsid/models.py:694-759 | Every parsed record is well-formed and lists exactly the optional tags it noted |
| RecordRoundTrips.ParsedRoundTrip | dnsid/models.py:927-935 | Parsing, serializing and parsing again is the identity on parsed records |
| RecordRoundTrips.CanonicalHasNoEmptyRequired | dnsid/models.py:825-826 | A text that is its own canonical form has no empty required tag |
| RecordRoundTrips.UnsignedAcceptsCanonical | dnsid/models.py:761-832 | The canonical form of a well-formed record is read as exactly the tags it signs |
| RecordRoundTrips.UnsignedAcceptsExactly | dnsid/models.py:761-832 | The unsigned parser, with no identity given, accepts exactly the canonical forms of well-formed records |
| RecordRoundTrips.KnownTagsFormIsCanonical | dnsid/models.py:914-925 | The known-tags form of any record is the canonical form without extension tags, although it sorts whole strings |
| RecordRoundTrips.KnownSortsAgree | dnsid/models.py:914-925 | On known tags sorting by name and by whole string agree, since no known name begins another |
| RecordFacts.NameHasNoEquals | dnsid/_utils.py:48-66 | A valid tag name holds no `=`, `;` or space |
| RecordFacts.BuildFields | dnsid/models.py:743-749 | The fields after parsing: each tag its value, absent tags their default, extension tags in order, optional tags noted |
| RecordFacts.BuildKeepsPairs | dnsid/models.py:893-902 | The record lists exactly the pairs it was built from |
| Sorting.SortForgetsOrder | dnsid/models.py:911-912 | Sorting items with distinct keys forgets their order and nothing else |
| Sorting.SortsInOrder | dnsid/models.py:911-912 | The same items, each once, in the order of their keys' characters |
| Texts.LessIsBefore | dnsid/models.py:911-912 | The string order is that of the first differing character, or of the length |
| Lifecycle.SnapshotAt | dnsid/models.py:1313-1484 | The loop computes the specified snapshot or error |
| Lifecycle.AbsorbEvent | dnsid/models.py:1375-1461 | The checks and updates for one event within the snapshot |
| LifecycleTheorems.AbsorbMeans | dnsid/models.py:1375-1461 | On a valid history an event is absorbed exactly when it may stand there, and the variables then describe the longer history |
| LifecycleTheorems.SnapshotSucceedsExactly | dnsid/models.py:1313-1484 | A snapshot succeeds if and only if the events up to the time are a non-empty head of the log and a valid history, all events being dated and of the domain |
| LifecycleTheorems.SnapshotHolds | dnsid/models.py:1475-1484 | Its events are exactly that head, one issuance, first, a terminal event only last; state, key, binding time and governance are those of the events that set them |
| LifecycleTheorems.FailureNamesTheFirstBadEvent | dnsid/models.py:1328-1336 | The index a failure names is the first event that spoils the log |
| LifecycleFailures.SnapshotFailsExactly | dnsid/models.py:1313-1484 | Which failure, with which of the eleven categories and at which event, as an iff over the log itself |
| LifecycleTheorems.ChainUnbroken | dnsid/models.py:1414-1431 | From the issued key to the active one each key is linked to the next by a rotation, each step changes the key, and none is the entity key |
| LifecycleTheorems.ActiveKeyEndsTheChain | dnsid/models.py:1414-1431 | The active key of a snapshot is the end of that chain |
| LifecycleTheorems.LaterSnapshotExtends | dnsid/models.py:1313-1484 | A later successful snapshot extends an earlier one, and equals it once a terminal event is in |
| DohText.TwoPassesAreOne | dnsid/_default_resolver.py:282-284 | On every body the pattern accepts the two replacements equal one left-to-right unescape |
| DohText.ScanFindsBody | dnsid/_default_resolver.py:273-273 | What the pattern matches is an accepted body |
| DohText.BodyIsScanned | dnsid/_default_resolver.py:273-273 | Every accepted body before a quote is matched, to its end |
| DohText.BodyExactly | dnsid/_default_resolver.py:273-286 | A body is accepted exactly when it is a sequence of plain characters and escaped characters other than a line feed |
| DohText.FindsTheLeftmost | dnsid/_default_resolver.py:273-286 | Matches are found leftmost first, each search going on after the last one |
| DohText.FindsNothingWithout | dnsid/_default_resolver.py:273-286 | Without a match nothing is found, whatever quotes there are |
| DohText.ParseReadsBodiesOnce | dnsid/_default_resolver.py:276-286 | On any text, what is parsed is the single-pass reading of its quoted bodies, or the text itself when it has none |
| DohText.QuotedListParsesBack | dnsid/_default_resolver.py:276-286 | Quoting and escaping any non-empty list of strings, with text free of quotes between them, and parsing gives the list back |

## Left out

- Signatures, SHA-256, thumbprints and JWK parsing: thumbprints are fields of keys, the entry hash is injective, and entry bytes stand for what they parse to.
- `_rotation_publication`, `prepare_key_rotation`, `parse_prepared_event` and the registry: their answers are choices of the environment, the checks on those answers are modelled.
- Freshness of generated kids: a generated kid is a thumbprint of new random key material and is taken not to occur in a store yet.
- RotationManagers.RotationManager.RotateOperationalKey: a call over a durable rotation says what becomes durable and, with `RotatingAgainBreaksSafety`, that this is unsafe; no invariant is kept across it. Successive rotations compose through `CompletedStartsTheNext` and `RejectedStartsOver`.
- RotationManagers.RotationManager.ResumeKeyRotation: its promises are for states the durable rotation produced; one of another rotation is `OtherRotationsBreakSafety`; for one the application made up or altered nothing is promised.
- The update of `ku_url` and the clones handed to hooks: they protect against aliasing, which values do not have.
- Crash theorem over KMS providers: their lifecycle state is process-local or remote; the theorem is over stores that behave like the file-backed one.
- Executor job objects and fan-out helper futures of the manager: the machine has the futures of the three maps and the private retries; the loop of `_coalesce` appears as program points.
- VerificationPools.PoolNeverDeadlocks: a status refresh that joined work of others is finished by the thread that completed that work; here it needs a worker again for that, which only makes progress harder.
- Coordinators.Coordinator.Close: the steps other threads take while it waits are a parameter, in rounds; that the rounds suffice is the progress of the pool. `aclose` drains the same way and is not written out.
- A sync status refresh that keeps meeting zero-TTL evidence starts over until its budget ends; that it ends in time is not modelled, nor is any other wall-clock bound of verification work.
- Peer, acceptance and final freshness checks after a verification, and `VerifiedDomain.expiry`: independent rejections on the returned evidence; expiry appears as an arbitrary eviction or a put that evicts.
- LocalKeyProviders.LocalKeyProvider.Load: `found` is what other processes left between the two reads; which of its parse errors a garbled file raises is not modelled.
- Real floats: clocks and timeouts are reals, so NaN, infinities and booleans as timeouts, which the code refuses, have no counterpart.
- `DnsIdTxtRecord.validate`, `normalize_fqdn` and URL host checks: they rest on idna and URL parsing; well-formedness here is the text grammar and the required tags.
- Parse errors carry their kind, not their message or the list of offending tags.
- DNS, HTTPS, TLS, HTTP message signatures, OIDC, log proofs, configuration, middleware and the CLI.
