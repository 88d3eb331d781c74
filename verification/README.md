# Prepaid pipeline metering and Naryo provisioning, verified

Agents rent *pipelines*. A pipeline session moves between created, running, paused and stopped. While it runs with an
active payment stream, a tick once a second accrues its rate in sixtieths of a unit; every debit interval the whole
units are taken from the agent's prepaid balance and the remainder is carried. Debits and top-ups carry keys that make
repeating them harmless. A debit that finds the balance short gets one grace retry after 60 seconds; a second failure
pauses the session. Meanwhile a client keeps each session provisioned in Naryo (a broadcaster configuration, a filter,
a broadcaster), and a dashboard counts the activity feed from sliding snapshots.

This project models that behaviour and proves what it keeps.

* `Ledger` — the ledger: decimal text and keys, credits and charges as functions, `MemoryLedger` as a class.
* `Sessions`, `Metering` — a session with the history of its billing, and the service as a state machine:
  `Step` performs one call or one tick, `Run` a list of them. The history is a ghost notebook; every counter is proved
  against a reading of it.
* `Invariants`, `Ticks` — what every step keeps, and how a tick composes from visits to single sessions.
* `Promises` — what each call and each tick promises, field by field.
* `Conservation`, `Billing`, `TickOrder`, `Contention`, `Exhaustion`, `Runway`, `Widths` — the whole-run results.
* `Service` — the mutable service: records updated in place, the store, the service. Each method equals its `Step`.
* `NaryoPlan`, `NaryoRemote`, `NaryoLists`, `NaryoSync`, `NaryoClient`, `NaryoRuns`, `NaryoSharing` — the filter plan,
  the remote with its failures, the client's searches, the agreement of records and remote, the client as a class, and
  runs of it.
* `Egress`, `System`, `Orchestration` — service and client together, and Naryo's rows with them.
* `EventStore`, `ActivityFeed`, `Telemetry`, `TelemetryWindow` — bounded logs against their ideal histories.
* `Strings`, `Collections` — shared vocabulary.

Integers are unbounded; `Widths` gives the int64 range in which they agree with the program's. A clock reading is a
number of nanoseconds since the zero time, 0 being the zero time itself. Runs assume what the program guarantees or
needs: ids of sixteen hexadecimal digits that are fresh at creation, agent names without `|`, the three fixed top-up
sources, a clock that is set, and a tick that visits every stored session once in some order. Each call is one step.

A remote is *faithful* when an operation it reports as done was done and one it reports as failed was not, a list it
gives is complete, new rows get unused ids and a hash, and a delete that quotes the current hash of an existing row
works. A faithful remote may still reject posts, refuse any list, lose any answer on its way although the request took
effect, and lose any rows. The results about Naryo's side (`InStep`, `Provisioned`) are for faithful remotes; the
results about the client's own records (`LocalOK`, which calls track a broadcaster, what is ever deleted) hold for every
remote. A session is *in step* when its record agrees with the remote: no filter or broadcaster but the tracked ones
belongs to it, tracked rows that are still there have the recorded hash. All sessions are in step when moreover every
configuration is owned by exactly one session or foreign, that is, not created by this client.

## What turned out differently from the documentation

* A start from paused resets the debit sequence (internal/pipeline/service.go:301-303), so the next debits reuse buckets
  the ledger already holds; they are charged to the session but not debited. `ConservedIffNoReusedBucket` is the exact
  condition, `MoneyAccount` the exact gap, `RestartRunIsNotConserved` a run that loses money this way.
* EnsurePipeline can leave rows at Naryo that no record tracks. `Orphans` is the exact condition
  (`CallKeepsInStepIff`): the plan changes while the tracked broadcaster is up, which forgets it instead of deleting it
  (internal/naryo/http_client.go:154-162); or an answer that mattered is missing: the list that would have shown a live
  broadcaster, whose error is discarded (line 155), or a live filter (line 216), or, for a configuration, filter or
  broadcaster that was just created, an answer to its creation or the list that would have shown it (lines 208, 234,
  434, 561). The plan change is also met by repeating the very same call after a fallback to ALL
  (`EnsureAfterFallbackOrphans`), as Resume of a running session does.
* EnsurePipeline repairs a lost broadcaster, but not a lost filter: it looks for the broadcaster alone
  (internal/naryo/http_client.go:154-159), so while that is listed it answers success and changes nothing, and the
  session is delivered nothing (`EnsureOverLostFilter`). `EveryEnsureProvisions` and `RepairedIff` give this as the exact
  condition; a pause in between repairs it (`PauseThenEnsureRepairs`).
* "Shared" is what a session's own record says. A session that attached to a configuration another session created
  (internal/naryo/http_client.go:426-428) loses it when the creator stops; `StopTakesConfigIff` is the exact condition, `SharedConfigIsLost` a run.
* Resume asks Naryo before its state check (internal/pipeline/service.go:392-399), so resuming a session that was never
  started provisions it and then fails (`ResumeFromCreatedIsServed`). `EgressKeptIff` gives, in terms of the state and
  the answers, exactly which operations keep "a broadcaster is tracked for the running sessions and no others".
* The ids are visited in the order of a map (internal/pipeline/state_store.go:61-69). That order decides who is charged
  exactly when an agent's debits are affordable one by one but not together (`OrderFreeIffJointlyAffordable`), which
  happens (`ContentionIsReachable`).
* StopPipeline ends by calling the locking clearErr while it holds the same lock
  (internal/naryo/http_client.go:337-340, 389-393), which would block for ever. It does so whenever the session has a
  record; without one it returns before (lines 316-318). The model takes the unlocked variant that the sibling methods
  use.
* itoa prints the least int64 as a bare minus sign (internal/ledger/ledger.go:112-133): it stays injective but does not
  read back.
* The substring rule for destinations (internal/naryo/http_client.go:734) takes one session's broadcaster for another's
  exactly if the other's id is a proper prefix and its path has at least twelve characters (`DestinationsConfusedIff`).
  The service creates ids of sixteen digits only (internal/pipeline/service.go:149-155), so it never meets this input
  (`PipelinesAreApart`).

## Model

| member | source | states |
|---|---|---|
| Ledger.Itoa | internal/ledger/ledger.go:112-133 | filling the buffer from the right yields the decimal text, for every int64 |
| Ledger.DecimalReadsBack | internal/ledger/ledger.go:112-133 | the text of every int64 but the least parses back to the number |
| Ledger.DecimalInjective | internal/ledger/ledger.go:112-133 | different numbers have different texts, the least int64 included |
| Ledger.LeastInt64DoesNotReadBack | internal/ledger/ledger.go:117-131 | the least int64 prints as "-" and is the one value that does not parse back |
| Ledger.CreditKeyInjective | internal/ledger/ledger.go:26-28 | a top-up key determines agent, transaction and source when agent and source carry no bar |
| Ledger.ChargeKeyInjective | internal/ledger/ledger.go:97 | a charge key determines agent, pipeline and bucket |
| Ledger.CreditAndChargeKeysDisjoint | internal/ledger/ledger.go:26-28 | no top-up takes a charge's key unless its source is that pipeline's id |
| Ledger.AgentKeysCollideIffBar | internal/ledger/ledger.go:26-28 | an agent name can share a top-up key with a shorter name if and only if it contains a bar |
| Ledger.DeliveryPaysFirstOccurrences | internal/ledger/ledger.go:31-49 | after any list of deliveries each agent holds the sum of the first occurrences, and exactly the seen transactions are remembered |
| Ledger.CreditsExactlyOnce | internal/ledger/ledger.go:30-49 | two delivery lists with the same requests, in any order and with any repetitions, give every agent the same balance |
| Ledger.InconsistentAmountsDependOnOrder | internal/ledger/ledger.go:40-47 | in any list of deliveries that brings one transaction with two valid amounts, some reordering changes a balance |
| Ledger.OrderFreeIffConsistent | internal/ledger/ledger.go:31-49 | for any list of deliveries: all reorderings give the same balances if and only if the valid requests never disagree about a transaction's amount |
| Ledger.MemoryLedger.Credit | internal/ledger/ledger.go:31-49 | the new books are those of the credit function; false for an invalid request, which changes nothing |
| Ledger.ChargeIs | internal/ledger/ledger.go:87-110 | when a charge is invalid, accepted or refused; the figure in the answer is the balance then left; money moves only on a new key, exactly the units, from that agent alone |
| Ledger.MemoryLedger.CanAfford | internal/ledger/ledger.go:75-84 | answers whether the balance reaches the minimum, and the balance |
| Ledger.MemoryLedger.ChargeUsage | internal/ledger/ledger.go:87-110 | result and new books are those of the charge function; a refused or repeated charge moves nothing |
| Invariants.SettleMovesBalance | internal/pipeline/service.go:587-628 | a settled window moves the balance if and only if it is worth a unit, its bucket exceeds every earlier one and the balance covers it; then by exactly the recorded units |
| Invariants.StepKeeps | internal/pipeline/service.go:189-470 | every call and every tick keeps: counters equal to readings of the history, ledger keys exact, money accounted for |
| Invariants.RunKeeps | internal/pipeline/service.go:189-672 | so does every run |
| Ticks.TickVisitsOnce | internal/pipeline/service.go:543-664 | a tick over distinct ids visits a given session exactly once, with the ledger the earlier visits left |
| Promises.SettingsAre | internal/pipeline/service.go:99-140 | positive options are taken, others default to rate 1, interval 300, minimum 10; the summary window is the nearest number from 5 to 15 |
| Promises.UnixIs | internal/pipeline/service.go:534-535 | a clock reading counts whole seconds, from zero at the beginning of 1970 |
| Promises.CreateIs | internal/pipeline/service.go:208-267 | refused with the agent's balance and the requirement when that is not covered; otherwise exactly one idle session more, with the service's rate and summary window |
| Promises.StartIs | internal/pipeline/service.go:270-308 | which error comes first; otherwise the session runs, streams, remembers the operation and has a new meter, all else unchanged |
| Promises.StopIs | internal/pipeline/service.go:320-337 | a stop ends a session in any known state and switches its stream off; what was metered stays |
| Promises.PauseIs | internal/pipeline/service.go:352-364 | only a running session is paused; its meter and grace period stay |
| Promises.ResumeIs | internal/pipeline/service.go:376-406 | which error comes first; otherwise the paused session runs with its stream active and no grace pending, its meter and charges as before |
| Promises.SetStreamIs | internal/pipeline/service.go:447-460 | only a running session; the flag becomes what was asked for, nothing else changes |
| Promises.TopUpIs | internal/pipeline/service.go:189-206 | which error comes first; otherwise exactly the amount for exactly that agent, once for each transaction |
| Promises.PauseThenResume | internal/pipeline/service.go:352-406 | pausing and resuming gives back the running session, its stream active and its grace period forgiven |
| Promises.TickMeters | internal/pipeline/service.go:552-585 | every tick bills one second to a running, streaming session, and with a ledger and an agent and no retry awaited meters exactly one rate, however the debit ends; any other session is untouched |
| Promises.ResumedTickMeters | internal/pipeline/service.go:400-585 | after a resume the next tick bills a second and meters one rate |
| Promises.TickSummarisesIffDue | internal/pipeline/service.go:621-652 | a tick that commits a debit reports all pending units and seconds, this debit included, if and only if the session's window since the last summary is over, and then nothing is pending; a tick without a debit reports nothing |
| Promises.NoSummaryOverdue | internal/pipeline/service.go:621-652 | on every run, right after a debit the summary window is not over or nothing is pending |
| Conservation.MoneyAccount | internal/pipeline/service.go:597-628 | on every run: credits (each transaction once) = balance + charged units − units committed on reused buckets; balances are never negative |
| Conservation.ConservedIffNoReusedBucket | internal/pipeline/service.go:288-303 | credits = balance + charged units if and only if no session of the agent ever committed a bucket it had reached before |
| Conservation.MoneyConserved | internal/pipeline/service.go:543-656 | credits = balance + charged units on every run in which no paused session is started (they are resumed) |
| Conservation.LedgerHoldsExactlyTheBuckets | internal/ledger/ledger.go:97-109 | on every run the ledger holds exactly the buckets 1 to the highest one reached; charged units exceed real debits by exactly the replayed ones |
| Conservation.FreshStartsStartOnce | internal/pipeline/service.go:288-307 | without starts from paused a session starts at most once |
| Conservation.RestartRunIsNotConserved | internal/pipeline/service.go:290-303 | a concrete run: start, tick, pause, start, tick does not conserve |
| Billing.NoRoundingDrift | internal/pipeline/service.go:580-628 | since the last start 60 * units charged + numerator = rate * seconds; the numerator is the window's worth plus a carry below 60; at an empty window the units are the metered amount rounded down |
| Billing.DebitIntervalIsInvisible | internal/pipeline/service.go:583-628 | services with different debit intervals charge the same wherever both have settled after as many seconds |
| Billing.AutoPauseNeedsTwoFailures | internal/pipeline/service.go:576-617 | every auto-pause follows a refused debit on the same bucket at least 60 seconds before, for no more units, short both times, with nothing ending the grace in between |
| Billing.AutoPausedFlagIsJustified | internal/pipeline/service.go:599-616 | on every run a session is marked auto-paused if and only if an auto-pause happened that no start or resume followed; two debits of that bucket had failed, 60 seconds apart, short both times |
| Billing.SummariesConserveUnits | internal/pipeline/service.go:626-652 | units reported in summaries plus units pending equal units charged |
| Billing.SummariesAreSpaced | internal/pipeline/service.go:630-652 | a summary reports something and follows the previous one by at least its window of 5 to 15 minutes |
| Billing.SummariesAccountForRuntime | internal/pipeline/service.go:591-628 | on every run reported + pending + current + forfeited seconds equal the accrued seconds |
| Billing.SummariesConserveRuntime | internal/pipeline/service.go:591-653 | nothing is forfeited when a full window is worth a unit and sessions start once |
| Billing.LifecycleSafety | internal/pipeline/service.go:288-457 | an active stream implies running; auto-paused implies paused or stopped; created implies nothing charged |
| Billing.StoppedIsAbsorbing | internal/pipeline/service.go:330-337 | a stopped session never changes again, over any run |
| Billing.FailingCallChangesNothing | internal/pipeline/state_store.go:43-58 | although Update does not roll back, a call that returns an error leaves sessions and ledger as they were |
| Billing.TickNeverSticks | internal/pipeline/service.go:600-619 | the tick's branch for another ledger error, which would keep half an update, is never taken |
| TickOrder.TickSettlesAll | internal/pipeline/service.go:543-656 | when affordable debits are jointly affordable, a tick in any order equals one outcome defined without an order: exactly the sessions whose debit the balance covers are charged |
| TickOrder.OrderFreeIffJointlyAffordable | internal/pipeline/state_store.go:61-69 | for any store: all orders of a tick leave the same fields if and only if, for each agent, the debits its balance covers one by one are covered together |
| TickOrder.OrderFreeHistoryIffUncontended | internal/pipeline/service.go:599-616 | for any store: all orders leave the same billing history as well if and only if each agent's balance covers the sum of its dues or no single one |
| TickOrder.TickOrderIsIrrelevant | internal/pipeline/state_store.go:61-69 | when each agent's balance covers the sum of its dues or no single one, any two orders perform the same step |
| Contention.ContentionIsReachable | internal/pipeline/service.go:543-656 | some valid run ends in a store whose next tick charges different sessions in different orders |
| Exhaustion.DrainingTick | internal/pipeline/service.go:576-628 | each tick lowers the bound on the ticks left until auto-pause |
| Exhaustion.ExhaustionBound | internal/pipeline/service.go:576-617 | without credits, a fresh session is auto-paused within (B/q + 1) * interval + 60 ticks, whatever the agent's other sessions do |
| Runway.RunwayGuarantee | internal/pipeline/service.go:208-233 | after a start passed the prepaid check of an agent's only session, no debit fails in the first k windows when k * interval <= 60 * minimum minutes |
| Widths.CountersFitInt64 | internal/pipeline/model.go:16-42 | when rate * billed seconds, the credits and the clock of a run fit in int64, then at every moment of it so do all counters, the next bucket, the retry time, the balance and each accrued numerator |
| Widths.PrepaidMinFits | internal/pipeline/service.go:208-217 | the prepaid minimum, rate times minutes, fits in int64 when both stay within the square root of its range |
| Service.SessionRecord.Start | internal/pipeline/service.go:288-308 | the start closure: refuses other states and a Naryo error untouched, else resets the metering and runs |
| Service.SessionRecord.Settle | internal/pipeline/service.go:587-628 | settling in place equals the settle function on record, ledger and pause request |
| Service.SessionRecord.Commit | internal/pipeline/service.go:621-653 | an accepted debit is booked and summarised in place as the commit function says |
| Service.SessionRecord.Tick | internal/pipeline/service.go:552-656 | the tick closure equals the tick function on record, ledger and pause request |
| Service.MemoryStore.Put | internal/pipeline/state_store.go:25-29 | the session is stored under its own id, the others stay |
| Service.MemoryStore.Get | internal/pipeline/state_store.go:32-40 | a copy of all fields of the stored session, or none |
| Service.MemoryStore.IDs | internal/pipeline/state_store.go:61-69 | every stored id exactly once |
| Service.PipelineService.constructor | internal/pipeline/service.go:99-140 | over any store and ledger the parameters are the sound ones that every run result asks for; options that are not positive get their defaults, the summary window is clamped to 5 to 15 |
| Service.PipelineService.CheckPrepaid | internal/pipeline/service.go:208-233 | an error with balance and requirement exactly when the agent cannot afford the minimum |
| Service.PipelineService.CreditTopUp | internal/pipeline/service.go:189-206 | one step of the machine |
| Service.PipelineService.Create | internal/pipeline/service.go:236-267 | one step of the machine |
| Service.PipelineService.Start | internal/pipeline/service.go:270-317 | one step of the machine |
| Service.PipelineService.Stop | internal/pipeline/service.go:320-349 | one step of the machine |
| Service.PipelineService.Pause | internal/pipeline/service.go:352-373 | one step of the machine |
| Service.PipelineService.Resume | internal/pipeline/service.go:376-415 | one step of the machine |
| Service.PipelineService.SetPaymentStreamActive | internal/pipeline/service.go:447-470 | one step of the machine |
| Service.PipelineService.BillingTick | internal/pipeline/service.go:533-664 | the loop over the listed ids equals the tick of the machine, and returns exactly the sessions it auto-paused |
| Strings.TrimSpaceParts | internal/naryo/pipeline_filter_plan.go:98-100 | trimming takes away white space at the ends and nothing else |
| Strings.LowerCharIs | internal/naryo/pipeline_filter_plan.go:237 | each capital letter becomes its small one, every other character stays |
| Strings.DropSlashIs | internal/naryo/http_client.go:720-726 | one slash at the end is taken away, and nothing else |
| NaryoPlan.ResolvePlan | internal/naryo/pipeline_filter_plan.go:24-67 | on the raw fields: the first subscription of kind hedera_hcs_topic with a topic neither blank nor 0.0.0, else such a default topic, else the first of kind erc20_transfer with a contract, its address in lower case behind 0x, else ALL if allowed, else nothing |
| NaryoPlan.PlanKindIff | internal/naryo/pipeline_filter_plan.go:24-67 | for every list: when the plan is for a topic, a contract, ALL or nothing, both ways; and there is only one such plan |
| NaryoPlan.KeyIdentifiesPlan | internal/naryo/pipeline_filter_plan.go:15 | two resolved plans have equal keys if and only if they ask for the same filter |
| NaryoPlan.NormalAddress | internal/naryo/pipeline_filter_plan.go:236-245 | a normalised address is the trimmed one in lower case behind exactly one more 0x if it had none; blank stays blank |
| NaryoPlan.AddressesAgreeIff | internal/naryo/pipeline_filter_plan.go:236-245 | two spellings name one contract if and only if they differ only in case, surrounding space or a leading 0x |
| NaryoPlan.NormalizeIsIdempotent | internal/naryo/pipeline_filter_plan.go:236-245 | normalising a contract address twice is normalising it once |
| NaryoPlan.DestinationPathIs | internal/naryo/http_client.go:530-533 | one slash joins destination and session, however the destination was written |
| NaryoPlan.DestinationMatchesIff | internal/naryo/http_client.go:715-739 | a stored destination is recognised if and only if, spaces and a last slash aside, it is the wanted path behind anything, or from twelve characters on contains it |
| NaryoPlan.DestinationsConfusedIff | internal/naryo/http_client.go:715-739 | one session's destination is taken for another's if and only if the ids are equal, or the wanted id is a prefix and its path has at least 12 characters |
| NaryoPlan.DestinationsAreApart | internal/naryo/http_client.go:715-739 | sessions with ids of equal length never match each other's destination |
| NaryoLists.ConfigHash | internal/naryo/http_client.go:753-771 | the hash of the first row with the id, an error if it is blank or there is none |
| NaryoLists.ConfigFor | internal/naryo/http_client.go:457-481 | the first complete HTTP configuration with the same normalised URL, none only if there is none |
| NaryoLists.ReusableIff | internal/naryo/http_client.go:451-486 | a configuration is reused if and only if it is a complete HTTP one whose URL differs in space and trailing slashes at most |
| NaryoLists.FilterNamed | internal/naryo/http_client_filter.go:86-107 | the first complete filter of the name, none only if there is none |
| NaryoLists.BestBroadcaster | internal/naryo/http_client.go:631-682 | the earliest suitable row of maximal score, none only if no row suits |
| NaryoLists.ScoreOrder | internal/naryo/http_client.go:662-676 | the right configuration, in any case of letters, outweighs a known hash, which decides between equals |
| NaryoLists.HasId | internal/naryo/http_client.go:615-629 | found if and only if a row has the id |
| NaryoClient.HttpClient.constructor | internal/naryo/http_client.go:83-122 | the destination is the given one, trimmed, or the default, behind a slash; nothing is tracked |
| NaryoClient.HttpClient.AttachExistingConfig | internal/naryo/http_client.go:451-482 | on success a complete configuration is tracked and marked shared, on failure nothing changes |
| NaryoClient.HttpClient.CreateConfig | internal/naryo/http_client.go:399-442 | tracks a configuration with its hash; it is shared exactly if it is the fixed one or its creation was reported as failed; at a faithful remote an owned one is new and its hash current, a shared one is there, and one that was created is not owned exactly if an answer or the list that would have shown it was lost; the operation recorded is the one of that very post; reuse is tried whenever the remote reports the special failure |
| NaryoClient.HttpClient.CreateFilter | internal/naryo/http_client.go:193-215 | posts exactly the plan's filter under the session's name; at a faithful remote a failure leaves no filter unless it was created and lost, and what is tracked is a filter of that name with its current hash; the operation recorded is the one of that very post |
| NaryoClient.HttpClient.CreateBroadcaster | internal/naryo/http_client.go:535-576 | posts exactly one broadcaster for the target to the session's destination and tracks it; at a faithful remote what is tracked is listed, and a failure adds nothing unless it was created and lost; the operation recorded is the one of that very post |
| NaryoClient.HttpClient.HashOf | internal/naryo/http_client.go:565-592 | the listed hash, or a fetched one that is not blank |
| NaryoClient.HttpClient.ProvisionAll | internal/naryo/http_client.go:499-509 | drops the session's filter, then adds a broadcaster for everything |
| NaryoClient.HttpClient.Fallback | internal/naryo/http_client.go:514-528 | provisions everything exactly after a hook failure and if allowed; otherwise changes nothing; a failure is the original one |
| NaryoClient.HttpClient.HaveFilter | internal/naryo/http_client.go:192-242 | keeps a tracked filter that still exists, otherwise forgets it and creates one; a live filter whose check was refused, or a new one that was lost, is left astray, and nothing else is |
| NaryoClient.HttpClient.KeepBroadcaster | internal/naryo/http_client.go:154-162 | the tracked broadcaster is kept if and only if its check is not refused, it is listed and it was made for the same plan; otherwise it is forgotten, not deleted |
| NaryoClient.HttpClient.ProvisionScoped | internal/naryo/http_client.go:192-256 | filter then broadcaster; success if and only if a broadcaster is tracked, under the plan's key, or under ALL after an allowed hook failure of the filter operation or of the broadcaster, which is always answered by falling back |
| NaryoClient.HttpClient.Provision | internal/naryo/http_client.go:154-256 | at any moment a listed broadcaster for the same plan is left alone and nothing changes, even if its filter is gone; otherwise a session in step is provisioned anew, with the effects of Ensured on filters, broadcasters and configurations |
| NaryoClient.HttpClient.EnsurePipeline | internal/naryo/http_client.go:126-257 | bad input is refused untouched; success if and only if a broadcaster is tracked afterwards, and then the answer is the operation of the broadcaster just posted, or the one remembered when nothing was asked for; deletes no broadcaster and no configuration; other sessions' records and the record invariant are kept under any remote; at a faithful one it succeeds unless some answer was a failure or got lost, and is an ensure step: a listed broadcaster for the plan is kept as it is, and a session in step stays so exactly if nothing is orphaned |
| NaryoClient.HttpClient.PauseEgress | internal/naryo/http_client.go:260-288 | asks for exactly the tracked broadcaster's deletion; success forgets it, records that operation and keeps filter and configuration; a failure keeps the record, and at a faithful remote everything, unless only the answer was lost |
| NaryoClient.HttpClient.ResumeEgress | internal/naryo/http_client.go:291-303 | ensures again and counts the success; the operation recorded is that of the broadcaster just posted, or stays |
| NaryoClient.HttpClient.TearDown | internal/naryo/http_client.go:319-336 | requests the deletion of every tracked resource once, and of no configuration the record marks as found; at a faithful remote each of the three rows goes whenever its own hash is current, whatever the others do |
| NaryoClient.HttpClient.StopPipeline | internal/naryo/http_client.go:306-342 | the session is forgotten whatever the remote answers, with exactly those requests and effects; without the second lock (see above) |
| NaryoSync.ConfinedKeepsOthers | internal/naryo/http_client.go:530-533 | a change confined to one session keeps every other session in step |
| NaryoSync.ProvisionedIff | internal/naryo/http_client.go:154-159 | a session in step whose broadcaster is up is provisioned if and only if the filter it targets was not lost |
| NaryoSync.ProvisioningIsInStep | internal/naryo/http_client.go:164-256 | provisioning a session that nothing serves leaves it in step, served if it succeeded |
| NaryoSync.ProvisioningBesideAnother | internal/naryo/http_client.go:154-162 | provisioning beside a forgotten live broadcaster leaves that one in place and the session out of step |
| NaryoSync.EnsuredKeepsAllInStep | internal/naryo/http_client.go:126-257 | ensuring keeps all sessions in step, every configuration accounted for, if and only if it orphans nothing |
| NaryoSync.StopKeepsAllInStep | internal/naryo/http_client.go:319-336 | stopping leaves no broadcaster and no filter of the session nor the configuration it created, all others in step |
| NaryoSync.StopTakesConfigIff | internal/naryo/http_client.go:332-334 | a stop takes away a configuration another session tracks if and only if it is the one the stopping session created |
| NaryoSync.PauseKeepsAllInStep | internal/naryo/http_client.go:270-284 | pausing leaves nothing serving the session, all sessions in step |
| NaryoSync.LossKeepsInStep | internal/naryo/http_client.go:155-162 | whatever rows the remote loses, all records stay in step |
| NaryoSync.RepairedIff | internal/naryo/http_client.go:154-159 | the next successful ensure that leaves no strays repairs a loss if and only if the broadcaster does not outlive its filter; if it does, nothing changes |
| NaryoRuns.CallKeepsInStepIff | internal/naryo/http_client.go:126-342 | a call of any kind, or a loss of any rows, keeps all sessions in step if and only if it orphans nothing: it does not change the plan under a live broadcaster, and no answer is missing that would have shown a live or a new row |
| NaryoRuns.RunKeepsInStep | internal/naryo/http_client.go:126-342 | on every run without such a call, whatever rows are lost, all sessions are in step at every moment |
| NaryoRuns.EveryEnsureProvisions | internal/naryo/http_client.go:126-257 | on such a run, after each successful ensure exactly the tracked broadcaster serves the session; it delivers what the plan asks for, or ALL after a hook failure that was allowed to fall back, if and only if the ensure did not find it up with its filter gone |
| NaryoRuns.UntrackedIsUnserved | internal/naryo/http_client.go:260-342 | on such a run nothing serves a session without a tracked broadcaster |
| NaryoRuns.StopRemovesEverything | internal/naryo/http_client.go:319-336 | on such a run a stop leaves no broadcaster and no filter of the session, and no configuration but foreign ones and those other sessions own |
| NaryoRuns.PauseThenEnsureKeepsFilter | internal/naryo/http_client.go:259-288 | pausing and ensuring again for the same plan keeps the filter id, unless the check for the filter is refused or a hook failure is allowed to fall back to ALL |
| NaryoRuns.EnsureAgainChangesNothing | internal/naryo/http_client.go:154-159 | ensuring twice for one plan is ensuring once, at any faithful remote, unless the first met a hook failure that is allowed to fall back or the second check for the broadcaster is refused |
| NaryoRuns.EnsureOverLostFilter | internal/naryo/http_client.go:154-159 | while the broadcaster is listed an ensure for the same plan succeeds and changes nothing although the filter is gone, and the session stays undelivered |
| NaryoRuns.PauseThenEnsureRepairs | internal/naryo/http_client.go:259-288 | a pause followed by a successful ensure that orphans nothing leaves the session provisioned, whatever was lost before |
| NaryoRuns.EnsureAfterFallbackOrphans | internal/naryo/http_client.go:155-162 | after a fallback, ensuring the same scoped plan again leaves the fallback broadcaster serving untracked, beside a second one if it succeeds |
| NaryoSharing.SharedConfigIsLost | internal/naryo/http_client.go:426-428 | a concrete run: one session creates a configuration, another finds it, the first stops, the second tracks a configuration that is gone |
| Egress.TickPausesTheRest | internal/pipeline/service.go:603-612 | a tick takes out of running exactly the sessions it marks for pausing |
| Egress.EgressKeptIff | internal/pipeline/service.go:288-415 | an operation keeps "tracked exactly when running" if and only if: a Resume that reaches Naryo comes from paused, or from running and succeeds or has no usable plan, or from another state and fails; and no pause of the tick fails |
| Egress.EgressMatchesState | internal/pipeline/service.go:270-415 | on every run that resumes only paused sessions and whose ticks manage to pause, a broadcaster is tracked exactly for the running sessions at every moment |
| Egress.ResumeFromCreatedIsServed | internal/pipeline/service.go:392-406 | resuming a created session fails and leaves it provisioned |
| Egress.PipelinesAreApart | internal/pipeline/service.go:149-155 | no session with an id as the service creates them ever matches another one's destination |
| System.StartIsAligned | internal/naryo/http_client.go:83-122 | runs start aligned: no session, no record, and a remote at which nothing serves a session or is named for one; the configurations found there are foreign |
| System.AlignedKeptIff | internal/pipeline/service.go:288-415 | one operation of service and client keeps "tracked exactly when running, and nothing astray at Naryo" if and only if it keeps the egress and orphans nothing |
| System.OnlyRunningAreServedAlways | internal/pipeline/service.go:288-664 | on every run of such operations, with rows lost at any time, every broadcaster that serves a session is the one tracked for a running session |
| System.RunningIsServed | internal/pipeline/service.go:288-308 | then a running session whose broadcaster was not lost is served by it and by no other |
| Orchestration.Orchestrator.Start | internal/pipeline/service.go:288-308 | service and client together perform one platform step, in skip mode too, and the operation the session remembers is the client's; at a faithful remote the client's calls are traced to one step of the whole system |
| Orchestration.Orchestrator.Resume | internal/pipeline/service.go:376-406 | service and client together perform one platform step, in skip mode too; at a faithful remote the client's calls are traced to one step of the whole system |
| Orchestration.Orchestrator.Pause | internal/pipeline/service.go:352-364 | service and client together perform one platform step, in skip mode too; at a faithful remote the client's calls are traced to one step of the whole system |
| Orchestration.Orchestrator.Stop | internal/pipeline/service.go:320-337 | service and client together perform one platform step, in skip mode too; at a faithful remote the client's calls are traced to one step of the whole system |
| Orchestration.Orchestrator.BillingTick | internal/pipeline/service.go:533-671 | the tick with its pauses performs one platform step, traced likewise, and returns the sessions whose pause failed; there are none if and only if "tracked exactly when running" is kept |
| Orchestration.Orchestrator.PerformsWholeStep | internal/pipeline/service.go:288-415 | what the methods of the program do at a faithful remote is one step of the whole system, to which the run results apply |
| EventStore.DedupKeyInjective | internal/pipeline/naryo_events.go:32 | the dedup key determines session and event when session ids carry no NUL |
| EventStore.NulSharesKeys | internal/pipeline/naryo_events.go:32 | with a NUL two sessions can share a key |
| EventStore.StoreRefinesHistory | internal/pipeline/naryo_events.go:17-48 | for every interleaving each session holds the last 256 first occurrences of its deliveries, and the shared map knows exactly them |
| EventStore.SessionsAreIndependent | internal/pipeline/naryo_events.go:26-46 | what a session holds depends on its own deliveries alone |
| EventStore.VerdictOfHistory | internal/pipeline/naryo_events.go:17-38 | from the history alone: an incomplete delivery is invalid, one to an unregistered session unknown, one delivered before a duplicate, any other stored |
| EventStore.NaryoEventStore.AppendNaryoEvent | internal/pipeline/naryo_events.go:17-48 | stored, duplicate, invalid or unknown, as the state says; the store stays the image of its history |
| EventStore.NaryoEventStore.NaryoEvents | internal/pipeline/naryo_events.go:51-75 | the requested suffix of the deduplicated history, oldest first, limit 10 by default and 256 at most |
| ActivityFeed.DropOldestIsNewest | internal/pipeline/activity.go:44-48 | dropping the oldest at each step keeps the newest of the whole history |
| ActivityFeed.ActivityLog.Record | internal/pipeline/activity.go:32-49 | the feed stays the newest part of the whole history |
| ActivityFeed.ActivityLog.Snapshot | internal/pipeline/activity.go:52-67 | the newest entries of the whole history, newest first |
| Telemetry.PushKeepsQueue | dashboard/src/lib/telemetryFromSummary.ts:49-58 | the set always equals the queue's contents, within the cap, oldest evicted first |
| Telemetry.DedupeKeyIdentifies | dashboard/src/lib/telemetryFromSummary.ts:19-25 | entries without a NUL have the same key if and only if timestamp, kind, session and data are the same |
| Telemetry.NulHidesEntry | dashboard/src/lib/telemetryFromSummary.ts:19-25 | with a NUL two different entries can share a key; the one ingested second is not counted |
| Telemetry.FloorToMinuteIs | dashboard/src/lib/telemetryFromSummary.ts:15-17 | the whole minute in which a moment lies |
| Telemetry.SightedAgainIsQueued | dashboard/src/lib/telemetryFromSummary.ts:86-94 | an entry that is sighted again is still remembered |
| Telemetry.CapIsInvisible | dashboard/src/lib/telemetryFromSummary.ts:49-95 | the capped set counts what an unbounded set would |
| Telemetry.CountedIffSighted | dashboard/src/lib/telemetryFromSummary.ts:86-94 | an entry is counted if and only if some poll saw it |
| Telemetry.SnapshotsCountExactlyOnce | dashboard/src/lib/telemetryFromSummary.ts:63-95 | after any polls of one log of pairwise different entries, a minute's count is the number of its entries that some poll saw |
| Telemetry.FeedPollIsValid | internal/http/observability.go:31 | a snapshot of a feed that keeps at least a hundred entries is the newest hundred of the whole log |
| TelemetryWindow.EarnedIsMaxOfPolls | dashboard/src/lib/telemetryFromSummary.ts:82-84 | with polls in minute order, the value charted at a minute is the greatest reported so far, and never falls |
| TelemetryWindow.PipelinesFollowPolls | dashboard/src/lib/telemetryFromSummary.ts:68-72 | what is kept for a minute is the number of pipelines its last poll reported |
| TelemetryWindow.ForwardFill | dashboard/src/lib/telemetryFromSummary.ts:97-109 | each slot shows the value stored at the last slot up to it where one is stored, or the fallback |
| TelemetryWindow.TelemetryAccumulator.PushDedupe | dashboard/src/lib/telemetryFromSummary.ts:49-58 | false exactly for a remembered key; the new state is the push function's |
| TelemetryWindow.TelemetryAccumulator.IngestSummarySnapshot | dashboard/src/lib/telemetryFromSummary.ts:63-95 | the new state is the ingest function's; a poll without a time changes nothing |
| TelemetryWindow.TelemetryAccumulator.PrefixCumulative | dashboard/src/lib/telemetryFromSummary.ts:129-138 | each slot's running total is the count of the whole history up to that minute |
| TelemetryWindow.TelemetryAccumulator.ProjectTelemetryWindow | dashboard/src/lib/telemetryFromSummary.ts:114-164 | the rows are the whole minutes up to now; each shows the pipelines of the last poll in the latest polled minute of the window, and the cumulative count of the full history, wherever the window starts; with polls in minute order every row's earnings are the most any poll reported up to its minute, so they never fall along the window |

## Left out

- HTTP handlers, MCP tools, x402 middleware, the facilitator, dashboard components and scripts: thin wrappers.
- Hedera and HCS clients, message envelopes, and the mirroring of service calls into the activity feed: side effects of calls whose state changes are modelled. Of an audit summary the units, seconds, time and window are kept; its remaining balance is not, as it depends on the visiting order.
- Session configuration and Reconfigure: the subscriptions reach the client as an argument. Descriptive strings, RateCentsPerSecond and CheckStatusPrepaid are not modelled.
- Random ids: they are arguments or arbitrary non-empty strings; a failing random source is not modelled. TestingSetBalance is not modelled.
- Nil receivers and the check for blank base URLs in NewHTTPClient: a client or service exists.
- The dashboard's canonical text of an entry's data is given; which data share a text is not modelled.
- Raw HTTP and JSON: the remote's rows are decoded values, already trimmed where the client trims them. Of a remote error only the two tests the client makes on its text are kept. Destinations come back as they were posted.
- Retries, polling intervals and deadlines: a list is read once after a creation, an operation is decided when it is waited for, so an effect that comes after the client gave up polling is not modelled.
- Path escaping of session ids: the identity, as for the ids the service creates. Lower-casing is for ASCII letters.
- Concurrency: a call that holds a lock is one step. Start holds the store's lock while it asks Naryo, so the model asks first and updates after.
- NaryoClient.HttpClient.EnsurePipeline: the session's record is taken out of the map, worked on in place as a SessionState object and put back, where the program works through a pointer kept in the map; aliasing of that pointer is not captured.
- EventStore.NaryoEventStore.Put: the session table is modelled here as the set of known ids, apart from the session store.
- NaryoClient.HttpClient.StopPipeline: the second lock that the source takes at its end, and blocks on, is left out.
- NaryoRuns.RunKeepsInStep: for faithful remotes, where operations reported as failed have no effect and deletes that quote the current hash work; with any other remote only the record invariants and the requests are claimed.
- Service.PipelineService.BillingTick: requires bucket numbers within int64, as the program's counter is.
