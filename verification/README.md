# Verified model of the agent's concurrent core

A Dafny model of the parts of the SRE agent where several actors share state, and proofs of what
they keep. `dafny verify dfyconfig.toml` checks everything.

Protocols are state machines over the steps the source takes between two accesses to shared state.
A schedule is any list of steps; a step that cannot be taken where it is scheduled is skipped, so a
theorem about every schedule is one about every interleaving. Code that changes fields or loops is
written as classes and methods, each proved equal to a specification function the theorems are about.
Answers of databases, clusters, models and clocks are parameters or part of the schedule.

| files | what they model |
|---|---|
| `Runs.dfy` | statuses, ledger entries, the entry a stream closes on |
| `Ledger.dfy` | append transactions under the per-run advisory lock |
| `Broker.dfy`, `Stream.dfy`, `StreamRace.dfy` | the 64-slot fan-out, one SSE connection, and both racing with commits and publishes |
| `Browser.dfy`, `Page.dfy` | the client's de-duplicated list and its merge with the REST ledger, and all of it from append transactions to the page |
| `Guard.dfy`, `GuardRace.dfy` | the guard with its callbacks serialised, and taken apart for k tool and model calls at a time |
| `Alerts.dfy`, `AlertKeys.dfy`, `Incidents.dfy` | alert text, alert identity, and the tracked-alert table under concurrent statements |
| `Rules.dfy`, `Sweeper.dfy`, `Claims.dfy` | rule decisions, what a sweep picks and opens, and any number of claims and Debug requests at once |
| `Pipeline.dfy`, `Worker.dfy`, `Lifecycle.dfy` | one agent run, one execution, and run rows over a whole deployment |
| `Candidates.dfy`, `Discovery.dfy`, `DiscoveryCache.dfy` | candidate ranking, the parallel early-stopping walk, and the cache before it |
| `Probe.dfy`, `ProbeSweep.dfy` | one capability probe, and a sweep under two nested semaphores |
| `Turns.dfy`, `Sse.dfy` | conversion to alternating turns, and the chat stream's printer and parser |

## Where the code and its comments differ

The model follows the code.

- `internal/api/runs.go:213-217` says an entry written between subscription and replay is delivered rather than lost. Publishing happens after commit and outside the lock, so a later entry can be published first and the earlier one is then dropped; a full channel drops one too: `StreamRace.LostExactlyWhen` says exactly when.
- `internal/agents/run.go:195-199` calls succeeding without a report a lie the code prevents. A stray cancellation returns before that check, and a report spelled `null` passes it and is stored as NULL, so `internal/worker/worker.go:236` does not rescue it either: `Pipeline.SuccessWithoutAReport`.
- `internal/api/incidents.go:252-255` says pressing Debug twice, or a rule firing meanwhile, does not open a second investigation. It does when the two overlap: `Claims.TwoPressesOpenTwoRuns`, with the exact condition in `Claims.OneLiveRunExactlyWhen` and the exact number in `Claims.LiveRunsAreBoundedExactlyWhen`.
- `internal/devtron/capability.go:357-359` reports a refusal "in every one tried" as soon as one was refused: `Probes.RefusalIsOverstated`.
- `internal/api/api.go:395-397` and `internal/api/settings.go:87-96` drop what was measured under an old choice or installation; a walk under way stores it again, and after the former a restart loads it: `DiscoveryCache.InvalidatedExactlyWhen`, `DiscoveryCache.InvalidationSpares`, `DiscoveryCache.SettingsSpare`.
- `internal/runs/migrations/00016_alerts.sql:28-29` promises the payload as it was when the alert was taken on; every later sighting overwrites it: `Incidents.PayloadIsTheLastSighting`, `Incidents.PayloadCanBeOverwritten`.
- `internal/incidents/store.go:46-49` reads the prior state to log a reopening; what others do between that snapshot and the upsert can leave one unlogged or log one that did not happen: `Incidents.LogIsTruthfulExactlyWhen`.
- `web/src/lib/run-derive.ts:5-9` takes a stage as skipped only from an `agent_skipped` event; the stream listens to every type but that one, so the entry is on the page only once it was loaded: `Pages.SkippedAgentsAreNotHeard`, `Pages.PageIsHonest`.
- `internal/runs/types.go:33` says no further work happens on a terminal run; a run canceled while the process holds it can be started or finished afterwards: `Lifecycle.FinalExactlyWhenLetGo`.

## Model

| member | source | states |
|---|---|---|
| `Ledger.LedgerIsGapless` | internal/runs/store.go:163-213 | for every interleaving of any number of append transactions, rollbacks included, each run's committed entries are numbered exactly 1..n in commit order |
| `Ledger.ReturnedNumberCitesTheEntry` | internal/runs/store.go:167-178 | the number an append returned is the place of the very entry it asked to record, so `[ev:N]` cites it |
| `Ledger.LockPreventsDuplicateKeys` | internal/runs/store.go:192-199 | under the advisory lock, whatever its hash, no append is ever refused because its number was taken |
| `Ledger.WithoutTheLockAnAppendDies` | internal/runs/store.go:187-213 | without the lock statement two appends that both read the maximum end with one dead on the primary key |
| `Ledger.NoDeadlock` | internal/runs/store.go:192-213 | after every schedule, while a transaction is open some open transaction can take its next statement |
| `Ledger.RunNeverExistsWithoutItsReason` | internal/runs/store.go:26-66 | a run row exists exactly when its ledger does, and entry 1 is then `run_queued` |
| `Ledger.EveryEntryIsAnAppend` | internal/runs/store.go:163-213 | conversely, nothing stands in a ledger but what a committed append asked to record, under the number it returned |
| `Ledger.AppendsGoThrough` | internal/runs/store.go:192-213 | wherever a schedule has left them, an open append to a run that exists, or that it creates, can be committed with nobody rolled back |
| `Brokers.Broker.constructor` | internal/runs/service.go:19-20 | a new broker is empty and satisfies the class invariant: fresh ids, no closed channel registered, no empty inner map |
| `Brokers.Broker.Subscribe` | internal/runs/service.go:22-33 | registers an empty channel under a never-used id and changes nothing else; the invariant is kept |
| `Brokers.Broker.Unsubscribe` | internal/runs/service.go:33-46 | removes and closes that channel once, drops an emptied inner map, and does nothing the second time; the invariant is kept |
| `Brokers.Broker.TrySend` | internal/runs/service.go:55-58 | a send appends when there is room for it among 64 and is dropped otherwise |
| `Brokers.Broker.Publish` | internal/runs/service.go:48-60 | every subscriber of the run is offered the entry, a full channel is left as it was, and no other run is touched |
| `Brokers.LeavingUndoesJoining` | internal/runs/service.go:23-46 | a subscriber that comes and goes leaves the registry exactly as it was |
| `Brokers.PublishIgnoresOtherSubscribers` | internal/runs/service.go:33-60 | publishing and somebody else's leaving commute |
| `Brokers.FirstSixtyFourAreKept` | internal/runs/service.go:22-60 | a subscriber that takes nothing finds on its channel the first 64 entries published since it came, in order, and the later ones are lost to it |
| `Streams.StreamRun` | internal/api/runs.go:245-290 | what one connection writes, for every replay and every sequence of wake-ups: the per-event specification, and the list told without it, of the replay, then the closing frame of a finished run or what each wake-up up to the first that ends the loop asks for |
| `Streams.ServeWrites` | internal/api/runs.go:242-290 | the two agree for all inputs, so everything proved of either holds of what the loop writes |
| `Streams.FinishedRunIsClosed` | internal/api/runs.go:258-260 | a connection to a run read as terminal writes the replay, then exactly one closing frame with that status, and nothing else |
| `Streams.LiveRunGoesOn` | internal/api/runs.go:262-290 | one to a live run closes with a frame without a status when its channel is closed under it, and every tick before it ends leaves one keep-alive |
| `Streams.NeverBackwards` | internal/api/runs.go:245-288 | with nothing assumed of the live side, what is written is strictly increasing, above `after`, and only repeats what was replayed or delivered |
| `Streams.DoneNamesTheEnd` | internal/api/runs.go:256-303 | a `done` frame is the last thing written and, when it names a status, names a terminal one: the one read before the subscription or the one the entry right before it announces; an announcing live entry is always followed by it |
| `StreamRace.StreamShowsOnlyTheLedger` | internal/api/runs.go:242-288 | for every interleaving of commits, publishes, drops, replay and deliveries, a connection writes committed entries of the run, strictly upwards from `after` |
| `StreamRace.StreamIsGapless` | internal/api/runs.go:242-283 | if since the subscription no publish overtook another, none met a full channel and the replay was whole, what has been written is an unbroken interval starting right after `after` |
| `StreamRace.UnharmedMeans` | internal/api/runs.go:242-254 | those conditions read off the schedule itself: none of its publishes to a subscriber still there left an earlier entry behind or found 64 waiting, and no replay failed or had more than a thousand entries to read |
| `StreamRace.NothingIsLost` | internal/api/runs.go:213-217 | under the same conditions, once everything is published and taken off the channel an open connection has written every entry past `after` |
| `StreamRace.ConnectionsCatchUp` | internal/api/runs.go:262-288 | and that can always come about: publishes and deliveries alone take an unharmed connection to the end of the ledger, or to the entry it closes on, with nothing missing |
| `StreamRace.ReplayReads` | internal/api/runs.go:245-254 | the replay reads the next thousand entries past `after`, and is whole exactly when there are no more |
| `StreamRace.LostExactlyWhen` | internal/api/runs.go:213-283 | whatever was reordered, dropped or cut from the replay, a serving connection with a drained channel has written a committed entry past `after` if and only if the replay reached it, or its channel accepted it and accepted no later entry ahead of it |
| `StreamRace.InOrderPublishingIsNecessary` | internal/runs/service.go:76-91 | a schedule with two swapped publishes in which entry 1 is committed and published and never written |
| `Browser.RunStream.Ingest` | web/src/lib/use-run-stream.ts:76-81 | the list stays ascending and in step with the seen set, a known number changes nothing, and `lastSeq` is the highest seen |
| `Browser.RunStream.Reset` | web/src/lib/use-run-stream.ts:62-69 | a reset empties list and seen set together and goes back to the starting number |
| `Browser.ListHoldsWhatArrived` | web/src/lib/use-run-stream.ts:76-81 | for any arrivals the list is ascending and holds under each number exactly what arrived first under it |
| `Browser.ListIsEverythingReceived` | web/src/lib/use-run-stream.ts:76-81 | when a number always carries the same entry, the list holds exactly the set of entries ever received |
| `Browser.ArrivalOrderIsIrrelevant` | web/src/lib/use-run-stream.ts:76-81 | deliveries of the same entries in any order, with any repetition, show the same list |
| `Browser.MergeEvents` | web/src/lib/use-run-stream.ts:140-147 | with live entries the result is ascending and holds the live entry of a number where there is one and the ledger's otherwise; without, it is the ledger as it is |
| `Browser.MergeIsTheSortedUnion` | web/src/lib/use-run-stream.ts:140-147 | merging two consistent ascending lists gives the ascending union |
| `Browser.MergeCommutes` | web/src/lib/use-run-stream.ts:140-147 | whichever side arrived first, the merge is the same list |
| `Browser.PageShowsTheLedger` | web/src/lib/use-run-stream.ts:76-147 | entries 1..k over REST plus any delivery of entries k+1..m show exactly entries 1..m |
| `Pages.ConnectionsSeeTheLedger` | internal/runs/store.go:163-213 | in every interleaving of append transactions, publishes and connections, each connection sees exactly the entries the database has committed for the run, numbered 1..n: a commit is one appended entry to it and no other statement shows |
| `Pages.PageIsHonest` | web/src/lib/use-run-stream.ts:76-147 | in every such interleaving, with any number of reconnects, the page begins with the ledger as it was loaded and goes on, strictly upwards, with committed entries of types it listens to |
| `Pages.PageShowsExactly` | web/src/lib/use-run-stream.ts:49-147 | once the browser has read what its connections wrote, an entry is on the page if and only if it was loaded, or the page listens to its type and some connection replayed it or took it off its channel before any later one, whatever was reordered, dropped, cut short or broken off |
| `Pages.PageIsTheLedger` | web/src/lib/use-run-stream.ts:49-147 | as soon as one connection, of however many, came unharmed to the end of what there is and was read, and the page listens to all it has not loaded, the page is the ledger |
| `Pages.SkippedAgentsAreNotHeard` | web/src/lib/types.ts:452-466 | of the fourteen types the program defines the page listens to all but `agent_skipped` |
| `Guards.Guard.BeforeTool` | internal/agents/guard.go:126-167 | the verdict and the whole new state of one tool call: allowlist, latch, budget, duplicate, count, ledger entry, in that order |
| `Guards.Guard.MarkExceeded` | internal/agents/guard.go:93-100 | the first caller sets the latch and writes the budget entry; later ones change nothing |
| `Guards.Guard.BeforeModel` | internal/agents/guard.go:206-221 | a spent token budget sets the latch, a set latch stops the call, and only a call let through is counted |
| `Guards.Guard.AfterModel` | internal/agents/guard.go:223-265 | reported usage is added whether or not the response is partial; only a whole response is logged |
| `Guards.SequentialBudgetHolds` | internal/agents/guard.go:126-160 | with callbacks serialised a positive tool limit is never passed, and at most one budget entry is written, none before the latch |
| `Guards.NoIdenticalRepeat` | internal/agents/guard.go:146-160 | over any run no tool and argument key is admitted twice, `exit_loop` aside |
| `Guards.DuplicateCitesTheFirstCall` | internal/agents/guard.go:146-153 | a refused repeat names the ledger number under which that same call stands |
| `Guards.AdmissionMeans` | internal/agents/guard.go:126-167 | at any point of any run a call gets through exactly when it is allowed, the latch is open, fewer calls than a positive limit have been counted, no admitted call was the same one, and the ledger takes it; only then is it recorded |
| `Guards.ToolAnswerMeans` | internal/agents/guard.go:128-167 | each of the five answers in terms of the run so far: unavailable unless permitted; then refused for the budget if one was found spent before or exactly the limit has been counted, with no limit never; then as a repeat; then let through or failed as the ledger takes it |
| `Guards.ModelAnswerMeans` | internal/agents/guard.go:206-221 | a model call is let through exactly when no budget was found spent before and the tokens reported so far are under a positive limit |
| `Guards.LatchMeans` | internal/agents/guard.go:93-100 | the latch is set exactly when some call of the run has found its budget spent, told from the calls alone |
| `Guards.AnswersAreWritten` | internal/agents/guard.go:128-265 | what each answer and each response leaves in the ledger, under which agent, and what leaves nothing |
| `Guards.WholeBudgetIsUsed` | internal/agents/guard.go:126-167 | from the start of a run any limit's worth of pairwise different calls of allowed tools that the ledger takes is admitted, all of them |
| `Guards.NothingAfterTheLatch` | internal/agents/guard.go:91-100 | once the latch is set it never resets, and over any continuation nothing is admitted or counted |
| `Guards.TokensAreWhatWasReported` | internal/agents/guard.go:223-245 | the token meter is exactly the sum of what the responses reported |
| `Guards.TokenOvershoot` | internal/agents/guard.go:206-221 | after an admitted model call the meter exceeds a positive limit by no more than what came back since |
| `Guards.KeysTellCallsApart` | internal/agents/guard.go:143-146 | calls of two tools never share a key, whatever their arguments, if and only if neither name followed by a colon begins the other; for one tool and its own arguments always |
| `GuardRace.ConcurrentBudgetHolds` | internal/agents/guard.go:138-153 | with k callbacks at a time, tool and model calls alike, a positive tool limit is passed by at most k - 1, in every interleaving |
| `GuardRace.OvershootIsReached` | internal/agents/guard.go:138-153 | for every positive limit and every k some interleaving ends exactly k - 1 above it |
| `GuardRace.OneBudgetEntry` | internal/agents/guard.go:93-100 | in every interleaving of tool and model calls the latch never resets and at most one budget entry is written |
| `GuardRace.RepeatsAreBounded` | internal/agents/guard.go:146-160 | with k calls at a time a call and its repeats get through at most k times |
| `GuardRace.RepeatsAreReached` | internal/agents/guard.go:146-160 | for every k and every key some interleaving lets one call through exactly k times |
| `GuardRace.FewAreCountedAfterTheLatch` | internal/agents/guard.go:138-221 | from the moment a tool or model call sets the latch, at most k - 1 more calls are counted over any continuation |
| `GuardRace.LateCallsAreReached` | internal/agents/guard.go:206-221 | with a token limit some interleaving counts exactly k - 1 calls after a model call has set the latch |
| `AlertKeys.JoinIdentifiesExactly` | internal/incidents/key.go:32-40 | the joined text identifies its three parts if and only if none of them holds the separator |
| `AlertKeys.SameAlertMeans` | internal/incidents/key.go:32-43 | sharing a key with an alert means agreeing with it in name, namespace and resource up to case and outer space, if and only if none of its own three parts, so normalised, holds a NUL without a space beside it |
| `AlertKeys.OtherFieldsDoNotMatter` | internal/incidents/key.go:20-43 | severity, kind, summary and labels are no part of an alert's identity |
| `AlertKeys.DifferencesMatter` | internal/incidents/key.go:32-43 | where an alert's parts hold no NUL, another is the same alert exactly when it agrees with it in name, namespace and resource up to case and outer space |
| `Incidents.Store.Track` | internal/incidents/store.go:35-88 | one call on its own: the new table, whether it created the row, which row it answers with, and what it logs |
| `Incidents.Store.ChangeState` | internal/incidents/store.go:147-188 | acknowledging sets who, resolving sets when, anything else reopens; a missing id changes nothing |
| `Incidents.Store.Attach` | internal/incidents/store.go:200-208 | attaching is idempotent, refused for an alert that does not exist, and logged even when it changed nothing |
| `Incidents.Store.Log` | internal/incidents/store.go:217-223 | a log line is written or silently lost, and nothing else changes |
| `Incidents.OneRowPerAlert` | internal/incidents/store.go:46-72 | over every interleaving of snapshots, number draws, upserts and state changes there is one row per (cluster, key), and numbers and ids are never shared |
| `Incidents.NumbersNeverChange` | internal/incidents/store.go:51-66 | no later step removes a row or changes its id, number, key, subject or origin |
| `Incidents.NumbersAreDrawn` | internal/incidents/store.go:51-57 | in every interleaving each statement whose snapshot showed no row takes one number, and nothing else does |
| `Incidents.OneAtATimeTheNumbersRun` | internal/incidents/store.go:51-57 | calls made one at a time number the alerts 1, 2, 3 and so on, without a gap |
| `Incidents.SightingMeans` | internal/incidents/store.go:46-72 | a sighting touches its alert's row alone: counted, payload and priority taken over, firing again if it was resolved, everything else as it was; or it adds one row, firing and seen once |
| `Incidents.ChangeMeans` | internal/incidents/store.go:147-188 | a state change touches that row alone, and of it the state, who acknowledged it only when it is acknowledged, and when it was resolved only when it is resolved or fires again |
| `Incidents.SeenCountIsTheHistory` | internal/incidents/store.go:57-59 | a row's `seen_count` is the number of Track calls that finished for it |
| `Incidents.CreatedExactlyOnce` | internal/incidents/store.go:39-44 | an alert has a row exactly when a Track call for it finished, and exactly one of those calls was told it created it |
| `Incidents.ResolutionIsConsistent` | internal/incidents/store.go:64-66 | over every history a firing alert has no `resolved_at` and a resolved one has |
| `Incidents.TrackOnlyReopens` | internal/incidents/store.go:63-66 | a sighting changes a state if and only if it found the row resolved, then to firing, and touches `resolved_at` only then |
| `Incidents.AloneTheLogIsTruthful` | internal/incidents/store.go:77-85 | undisturbed, the log says tracked exactly when a row was added and reopened exactly when the state moved |
| `Incidents.LogIsTruthfulExactlyWhen` | internal/incidents/store.go:45-85 | in every interleaving the line of a Track call says reopened exactly when its upsert reopened the alert, if and only if, of the state changes and finished sightings of that alert scheduled between its snapshot and its upsert, there is none or the last left it resolved or not just as the snapshot showed it; it says tracked exactly when a row was added |
| `Incidents.ReopeningCanGoUnlogged` | internal/incidents/store.go:45-85 | a schedule in which a resolve lands between snapshot and upsert: the alert reopens and its log says an ordinary sighting |
| `Incidents.ReopeningCanBeLoggedTwice` | internal/incidents/store.go:45-85 | a schedule in which two sightings share a snapshot of a resolved alert: the second logs a reopening that did not happen |
| `Incidents.PayloadIsTheLastSighting` | internal/incidents/store.go:57-62 | over every history a row keeps the subject of its first finished sighting and carries the payload of its last, so it is still what was taken on exactly when those two carried the same alert |
| `Incidents.PayloadCanBeOverwritten` | internal/incidents/store.go:57-62 | for any two different alerts with one key, a schedule in which the second replaces the payload the first was tracked with |
| `Incidents.AcknowledgingKeepsResolution` | internal/incidents/store.go:174-178 | acknowledging keeps `resolved_at`; coming from firing or resolved, it is then set exactly when the alert was resolved |
| `Rules.FirstClaimWins` | internal/rules/rules.go:185-199 | the rule found is the first that claims the alert, and none is found exactly when none claims it |
| `Rules.Decide` | internal/rules/rules.go:213-240 | the decision is the one the rule lists determine, and automatic implies shown |
| `Rules.DecisionMeans` | internal/rules/rules.go:213-277 | every field of a decision read off the lists: who hides an alert, who shows it, the first rule that gives its priority and why, the first that mutes it, and when it is automatic |
| `Rules.EachConditionCounts` | internal/rules/rules.go:142-183 | each further condition of a rule keeps, of what it claimed without, exactly what meets it: part of the name, one of the severities, namespaces or kinds, in any case |
| `Rules.EachLabelCounts` | internal/rules/rules.go:158-168 | so do a label and a label pattern |
| `Rules.OneConditionAlone` | internal/rules/rules.go:142-183 | a rule with one condition claims exactly what meets it; with none it claims nothing, unless it is enabled and asks for everything |
| `Rules.UnfinishedRuleIsInert` | internal/rules/rules.go:186-199 | a disabled rule, or an enabled one left blank, changes no decision wherever it is inserted in any list |
| `Rules.InertExactlyWhenUnfinished` | internal/rules/rules.go:258-270 | those are the only such rules: any other one changes the decision for every alert, in some list |
| `Rules.MutingOnlyShrinks` | internal/rules/rules.go:222-240 | with one more mute rule an alert is shown, or automatic, exactly when it was before and the rule does not claim it; its priority stays |
| `Rules.OnlyPriorityIsOrdered` | internal/rules/rules.go:213-240 | the show, mute and auto lists decide as sets of rules; only the label of the muting rule depends on their order |
| `Rules.Apply` | internal/rules/rules.go:242-256 | returns the shown alerts, each with its own decision beside it |
| `Rules.ApplyIsAnOrderedFilter` | internal/rules/rules.go:242-256 | the result lists, in input order, exactly the alerts that are shown |
| `Rules.ApplyIsIdempotent` | internal/rules/rules.go:242-256 | applying the rules to what they returned changes nothing |
| `Sweeper.AutoPicks` | internal/worker/sweeper.go:126-150 | returns, in order, each automatic alert that is the first automatic one with its key, with its priority |
| `Sweeper.PicksAreTheFirstOfEachKey` | internal/worker/sweeper.go:126-150 | the picks stand, in order, at ascending places: exactly those of the first automatic alert of every key |
| `Sweeper.PicksHaveDistinctKeys` | internal/worker/sweeper.go:126-150 | no two picks are the same alert |
| `Sweeper.EveryAutomaticKeyIsPicked` | internal/worker/sweeper.go:126-150 | every automatic alert's key has such a first one at or before it |
| `Sweeper.SweeperOpensOnce` | internal/worker/sweeper.go:152-191 | however sweeps, acknowledgements, resolves and re-firings interleave, the sweeper opens at most one run per (cluster, key), ever |
| `Claims.OpensExactlyWhenWanted` | internal/api/incidents.go:144-188 | whatever other calls are in the middle of, a call whose remaining statements succeed opens a run if and only if one is wanted and none attached to the alert is live; when one is wanted, one is attached and live afterwards |
| `Claims.OnlyTheEntitledOpen` | internal/api/incidents.go:144-188 | over every interleaving each run was opened by a call about its alert: a claim by rule whose own Track statement added the alert to the table, or a request with `investigate` |
| `Claims.RulesOpenOnce` | internal/worker/sweeper.go:152-191 | so with any number of claims and requests interleaved the rules open at most one run for an alert, ever |
| `Claims.EntitledCallsOpen` | internal/api/incidents.go:144-188 | and after every history a call so entitled, whose remaining statements succeed, opens one exactly when none attached is live, and a call not entitled opens none |
| `Claims.RequestsNameTheirAlert` | internal/api/incidents.go:128-131 | a Debug request without a cluster or an alert name never becomes a call; every other one can |
| `Claims.OneRunPerCall` | internal/api/incidents.go:144-188 | in every interleaving a call opens at most one run, and every run was opened by a call of its own |
| `Claims.NeverBesideALiveRun` | internal/api/incidents.go:146-188 | over every interleaving of claims and Debug requests no run is opened beside a live one attached to its alert, if and only if the alert's runs can always be read, no run leaves a terminal status, and no two calls for the alert overlap between reading its runs and attaching theirs |
| `Claims.OneLiveRunExactlyWhen` | internal/api/incidents.go:146-188 | no alert ever has two live runs if and only if reads and links never fail, no run leaves a terminal status, and no two calls for it overlap in that stretch |
| `Claims.LiveRunsAreBoundedExactlyWhen` | internal/api/incidents.go:146-188 | with any number of calls overlapping there, an alert has at most that many live runs over every history, if and only if reads and links never fail and no run leaves a terminal status |
| `Claims.OverlapIsReached` | internal/api/incidents.go:252-263 | for every such number, that many presses of which every statement succeeds leave exactly that many live runs for one alert |
| `Claims.TwoPressesOpenTwoRuns` | internal/api/incidents.go:252-263 | two overlapping presses, nothing failing: the second run is opened beside the first, attached and live |
| `Pipeline.Listen` | internal/agents/run.go:144-173 | follows the runner to its end or first error and brackets exactly the agents that took the floor, in order |
| `Pipeline.Run` | internal/agents/run.go:144-202 | for every script of runner events, context deaths and latches: the output and error the paths of the loop lead to, and every entry written; it succeeds without error and leaves nothing to store as a report if and only if it met a stray cancellation or the agent answered with a null report |
| `Pipeline.BracketsAreWellFormed` | internal/agents/run.go:165-178 | read mark by mark, agent brackets never overlap and no agent follows itself, however the run goes, and all are closed whenever the end is reached |
| `Pipeline.HeardMeans` | internal/agents/run.go:158-178 | an agent takes the floor exactly when it speaks and was not the last to do so, in the order of the events |
| `Pipeline.EveryOutcome` | internal/agents/run.go:100-262 | status, verdict, report and error of a run, case by case over how it was set up, what the first error was, the two readings of the latch, and the shape of the answer |
| `Pipeline.SuccessWithoutAReport` | internal/agents/run.go:152-296 | a clean success that leaves the report column NULL comes from exactly two causes, a cancellation error while the run's own context is alive and an answer whose report is spelled null, and each of them occurs |
| `Worker.Execution.Finish` | internal/runs/service.go:106-115 | the terminal status is announced in the ledger first, and the row is updated whether or not that write succeeded |
| `Worker.Execution.Execute` | internal/worker/worker.go:111-260 | every execution whose start succeeds asks for exactly the calls of the transcript, in order, and ends in a Finish with a terminal status; when it stores what it has, it ends as a success with a NULL report if and only if the agents ran and met a stray cancellation or a null report |
| `Worker.TranscriptParts` | internal/worker/worker.go:163-218 | the first pass is stored once, after the facts and its own entries and before anything the agents write, and what they answered is stored after that |
| `Worker.VerdictIsStored` | internal/worker/worker.go:209-213 | a verdict is stored exactly when the agents' answer carries one, once and with that value |
| `Worker.ReportIsStored` | internal/worker/worker.go:214-244 | so is the report, the whole object standing for one it does not carry; the unverified first pass is stored instead exactly when they answered within budget and gave none |
| `Worker.WorkIsWritten` | internal/worker/worker.go:136-228 | the entries other than status are the facts, the first pass, what the guard saw and the agents' brackets and findings, each once, under its agent and in that order, and a last error exactly when the agents failed in a live context |
| `Worker.RefusalsAreWritten` | internal/worker/worker.go:136-162 | an execution that does not get to the agents writes one error and stores nothing |
| `Worker.HowExecutionsEnd` | internal/worker/worker.go:209-258 | when exactly an execution ends canceled, over budget, partial or succeeded, and when a success leaves its report column NULL |
| `Worker.EndedMeans` | internal/runs/service.go:106-115 | an execution that came to its end was marked running at the start, announced its outcome in its last entry and was finished with it in its last call, and announced no terminal status before |
| `Worker.OnlyTheLastEntryCloses` | internal/api/runs.go:284-287 | of what such an execution wrote to the ledger only the last entry can close a stream, it does exactly when its write succeeded, and then with the outcome |
| `Lifecycle.RunStore.Start` | internal/runs/store.go:115-121 | sets the status to running whatever it was |
| `Lifecycle.RunStore.Finish` | internal/runs/store.go:141-147 | sets the given status whatever the row held |
| `Lifecycle.RunStore.Cancel` | internal/runs/store.go:149-161 | changes a queued or running row only, and says whether it did |
| `Lifecycle.RunStore.Reclaim` | internal/runs/store.go:240-251 | fails every queued or running row and no other, so none is left open |
| `Lifecycle.NeverCanceledRunsAreOrderly` | internal/worker/worker.go:90-135 | over every history a run nobody canceled is queued, then running, then one terminal status, or goes from queued straight to failed |
| `Lifecycle.OnlyCanceledIsEverLeft` | internal/runs/types.go:33-40 | the only terminal status any row ever leaves is canceled, and only while the process still holds the run |
| `Lifecycle.FinalExactlyWhenLetGo` | internal/runs/store.go:115-161 | a terminal status stays for good if and only if the process no longer holds the run |
| `Lifecycle.HeldRunsCanSucceed` | internal/worker/worker.go:56-135 | from every reachable state a run the process holds, canceled or not, can be brought to succeed |
| `Lifecycle.FirstInFirstOut` | internal/worker/worker.go:56-99 | runs are taken in the order they were submitted; one that finds 256 waiting is turned away, and none that found room is lost but to a restart |
| `Candidates.Classify` | internal/devtron/discover.go:781-821 | the recognised Services in rank order, scrape targets last, none lost or added, equals in their original order |
| `Candidates.CandidatesAre` | internal/devtron/discover.go:786-842 | a Service is a candidate exactly when it has a name, a namespace and one of nine words in its name or its two labels |
| `Candidates.AlertSourcesAre` | internal/devtron/discover.go:105-110 | it is an alert source exactly when they say alertmanager or vmalert |
| `Candidates.OrderMeans` | internal/devtron/discover.go:806-883 | in the list what answers queries stands before what is merely scraped, servers before the rest, those before headless Services, then by namespace and name |
| `Discovery.Halves` | internal/devtron/discover.go:513-527 | each half lists its own candidates, scrape targets only in a full probe |
| `Discovery.HalfIsExact` | internal/devtron/discover.go:513-527 | a half is ascending and holds exactly the candidates that belong to it |
| `Discovery.ResolvePin` | internal/devtron/discover.go:463-496 | finds the candidate the pick stands for |
| `Discovery.PinMeans` | internal/devtron/discover.go:463-496 | a pick stands for the first candidate of its half that fits it, and for none exactly when none fits |
| `Discovery.PinnedIsUsed` | internal/devtron/discover.go:413-447 | in every schedule the first candidate that fits the operator's pick is probed, and is the one used whether or not it answered |
| `Discovery.HalfChoosesTheBest` | internal/devtron/discover.go:529-579 | a half that ran to its end in a live context chooses the best-ranked candidate that answers, and has asked it and every better one |
| `Discovery.WalkChoosesTheBest` | internal/devtron/discover.go:413-461 | for every schedule, if the walk is complete and uncancelled, each half ends with the candidate its pick stands for, otherwise with the best-ranked answering candidate, all better ones of that half having been asked |
| `Discovery.PartialMeans` | internal/devtron/discover.go:403-461 | an answer is partial exactly when the walk's context died in the schedule |
| `Discovery.FullWalkAsksEverybody` | internal/devtron/discover.go:413-461 | in every schedule a complete, uncancelled full walk has asked every candidate, beside a pin too, scrape targets too |
| `Discovery.NobodyElseIsAsked` | internal/devtron/discover.go:413-461 | in every schedule whoever was asked is the pin of its half, or the probe is full, or it is no scrape target and its half has no fitting pin |
| `Discovery.QuickAgreesWithFull` | internal/devtron/discover.go:513-579 | the early-stopping walk and the full probe agree on an unpinned half if and only if the walk found something or no scrape target of that half answers |
| `Discovery.NothingProbedTwice` | internal/devtron/discover.go:498-569 | in no schedule is a candidate probed twice, pins included, and never are more than six probes of a half in flight |
| `Discovery.WalkCanComplete` | internal/devtron/discover.go:403-461 | from every reachable state a walk can be completed without its context dying, so what is said of complete walks is about real ones |
| `Discovery.NeverStuck` | internal/devtron/discover.go:541-568 | until a half has come to its end some step of it can be taken |
| `Discovery.StepsAreBounded` | internal/devtron/discover.go:541-568 | every step uses up one of at most five per candidate and one, so every schedule of a half ends |
| `DiscoveryCache.OnlyCompleteWalksAreKept` | internal/devtron/discover.go:273-315 | over every interleaving of reads, probes, invalidations, restarts and walks, what is cached or stored for a cluster was returned by a walk of that cluster and is not partial |
| `DiscoveryCache.OneWalkPerKey` | internal/devtron/discover.go:228-232 | at most one flight runs for a cluster and kind of walk |
| `DiscoveryCache.RepliesAreAboutWhatWasAsked` | internal/devtron/discover.go:302-315 | every answer is one some walk of the asked cluster returned |
| `DiscoveryCache.CachedIsServed` | internal/devtron/discover.go:255-285 | as long as nothing drops a cached stack, whoever asks is answered from it at once, and a flight that queued for it asks nobody |
| `DiscoveryCache.UncachedIsWalkedFor` | internal/devtron/discover.go:255-302 | a full probe always walks, and others when nothing is cached; whoever asks the same meanwhile waits for the one flight |
| `DiscoveryCache.ProbesMeasureAnew` | internal/devtron/discover.go:262-302 | whatever is cached or under way, a probe that finds no other of its cluster asks the cluster again, is answered with that, and keeps it |
| `DiscoveryCache.InvalidatedExactlyWhen` | internal/devtron/discover.go:273-383 | after any history, some continuation stores for an invalidated cluster what had been measured before, if and only if a walk of it has a complete answer not yet stored, or one stored but not yet persisted, or its stack is on disk |
| `DiscoveryCache.InvalidateCanBeOvertaken` | internal/devtron/discover.go:273-383 | for each of those three, a schedule after which it alone is the case |
| `DiscoveryCache.OutlivesExactlyWhen` | internal/devtron/discover.go:250-315 | at any moment of any history, some continuation serves the answer of a flight opened by then if and only if it is in the cache, on disk, or the flight has still to walk, to store a complete answer or, for a real cluster, to persist one |
| `DiscoveryCache.InvalidationSpares` | internal/api/api.go:395-397 | after an invalidation that is the disk and those flights, the ones still asking under the old choice among them |
| `DiscoveryCache.SettingsSpare` | internal/api/settings.go:86-96 | after saving other settings, which drops the cache and then the stored rows, it is exactly those flights |
| `Probes.LimitNamespaces` | internal/devtron/capability.go:596-612 | the first distinct non-empty names, up to the cap |
| `Probes.FirstsAreDistinct` | internal/devtron/capability.go:596-612 | those names are distinct, none is empty, and every non-empty name is among them |
| `Probes.Probe` | internal/devtron/capability.go:246-370 | at most five recorded steps, each with its answer; usable exactly when a node or pod read returned objects, unreachable exactly when the listing failed so, empty exactly when every sampled namespace answered with none, forbidden in exactly three cases, and which sentence goes with the last two |
| `Probes.ReachMeans` | internal/devtron/capability.go:246-370 | the verdict read off the answers: the listing's failure, nothing to list, nodes, else the first namespace whose answer settles it, else a refusal if there was one and empty if there was none |
| `Probes.SampledMeans` | internal/devtron/capability.go:318-330 | the namespaces asked are distinct, the first that the fallbacks and the listing name, and three unless there are fewer |
| `Probes.RefusalIsOverstated` | internal/devtron/capability.go:355-359 | when a probe says that every namespace tried refused, that is true exactly when none of them answered |
| `Probes.OneAnsweredAllBlamed` | internal/devtron/capability.go:329-359 | for any two namespaces, one answering with nothing and one refusing, the probe says so although one answered |
| `ProbeSweep.RequestsStayBounded` | internal/devtron/capability.go:657-691 | in every schedule requests in flight stay within max(1, MaxInFlight) and clusters within max(1, Concurrency), and every slot taken is given back once |
| `ProbeSweep.SweepNeverDeadlocks` | internal/devtron/capability.go:221-370 | while a goroutine is left one of them can go on without giving a question up, where each needs a slot for every question its probe still has and may judge only when it has none |
| `ProbeSweep.SweepCanComplete` | internal/devtron/capability.go:221-370 | wherever a schedule has brought a sweep, it can be completed with no further question lost |
| `ProbeSweep.VerdictsAreProbes` | internal/devtron/capability.go:246-370 | in every schedule a published verdict is what a probe of that cluster on its own concludes: in a live sweep from the cluster's answers, after its end from those and the questions lost to it |
| `ProbeSweep.SweepStepsAreBounded` | internal/devtron/capability.go:666-691 | every step of a goroutine uses one up, so every sweep ends |
| `ProbeSweep.OneVerdictPerCluster` | internal/devtron/capability.go:664-699 | a complete sweep reports every cluster exactly once with its published verdict; if its context lived, with what a probe of that cluster on its own concludes, however the goroutines took turns |
| `ProbeSweep.ReportIsOrdered` | internal/devtron/capability.go:692-715 | the report lists usable clusters first, then empty, forbidden, broken ones, and by name where the verdicts agree |
| `Turns.BlocksFollowTheParts` | internal/agents/anthropic.go:266-303 | each part gives at most one block, the blocks come in the order of their parts, and nothing else gives one |
| `Turns.ToolBlocksHaveIds` | internal/agents/anthropic.go:266-303 | no tool call or result is without an id |
| `Turns.FallbackIdsPair` | internal/agents/anthropic.go:266-303 | a call and a response that both came without an id get the same one exactly when they name the same tool |
| `Turns.Messages` | internal/agents/anthropic.go:208-249 | for every history the turns alternate, none is empty, the last is the user's, and they say, block by block and in the same roles, what the history says, closed with one "Continue." exactly when the assistant spoke last |
| `Turns.OnePartSays` | internal/agents/anthropic.go:266-303 | a call is said with its own name, arguments and id, a response with its own result and id, a text as it is, and of a part that is several of these the first |
| `Turns.OneContentIsSaidBy` | internal/agents/anthropic.go:225-228 | a content is said by the user exactly when it is labelled so in any case, not labelled, or carries a tool response |
| `Turns.HistorySaysAll` | internal/agents/anthropic.go:219-241 | a history says its contents one after the other |
| `Turns.ResultsAreSaidByTheUser` | internal/agents/anthropic.go:221-229 | every tool result of a history is said by the user, whatever role it was labelled with |
| `Turns.ResultsRideWithTheUser` | internal/agents/anthropic.go:221-229 | so any turn that carries a tool result is a user turn |
| `Turns.TurnsAreUnique` | internal/agents/anthropic.go:240-243 | alternation leaves no choice: what is said determines the turns |
| `Sse.HandleFrame` | web/src/lib/use-chat.ts:138-149 | event and data of a frame as its lines give them; a frame without data is not delivered |
| `Sse.LinesAddUp` | web/src/lib/use-chat.ts:138-144 | the lines of a frame add up: data is joined in order over any split, and the last event line counts |
| `Sse.ReadLoop` | web/src/lib/use-chat.ts:104-119 | for any text in any chunks, what is delivered and what is left over is what parsing the whole text gives |
| `Sse.ParseOnwards` | web/src/lib/use-chat.ts:106-119 | parsing may stop anywhere in any text and go on with what was left |
| `Sse.Transmit` | internal/api/chat.go:75-82 | frames the format can carry arrive exactly as sent, whatever the chunks |
| `Sse.CarriedExactly` | internal/api/chat.go:75-82 | a printed frame parses back to itself if and only if it is one line each, trimmed, and has data |

## Left out

- HTTP handling, TLS, SQL text, the ADK runtime and the model providers: their answers are inputs; a table is a sequence or map of rows.
- JSON encoding: taken to be injective, on one line, non-empty and without outer space where frames are printed (section 7 of RFC 8259).
- SHA-256 in alert keys: taken to be injective, so a key is the text that is hashed.
- Regular expressions in rules: a parameter of every decision; redaction and chat intent are not modelled.
- Unicode: letters are folded for ASCII only.
- Clocks, timeouts and TTLs: expiry and cancellation are steps that may happen at any time.
- Integer widths: sequence numbers, counters and token sums are unbounded.
- Channels and objects as heap cells: a subscriber's channel is a value in the broker's registry, keyed by its id; two references to one channel are not modelled.
- Goroutines that share one broker: `Publish` is one step; its loop over subscribers is proved inside the method.
- How old a cached stack may grow, and any statement that a cluster without an answering candidate has no monitoring: the code does not promise them.
- How one candidate is probed (API bases, ports, retries) and why it failed: part of whether it answers.
- The order in which guard entries and agent brackets reach the ledger within one execution: the model writes them one after the other.
- Replacing the request semaphore while a sweep runs: a release then goes to the new one; the bounds are for one sweep without replacement.
- The SSE fields other than `event` and `data`, CR line ends, and what the chat client does with a payload.
- `thinkingFor`, `keepThinking`, prompt rendering, intelligence text, notifications, knowledge scoring, tool bodies, settings and every page component: arithmetic, formatting or plumbing.
- The context of a run in `Lifecycle.dfy`: one canceled while in hand may finish with any terminal status there.
- The stream hook's `reset` and remounting the page: one page, loaded once, with any number of connections.
- A crash in the middle of a claim or a Debug request: such a call takes no further step; what a restart does to its run is a status change.
