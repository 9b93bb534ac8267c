# Durable "never twice" protocols of the integration layer, in Dafny

The repository moves orders, shipments and tracking between Odoo, a warehouse
gateway (KSP), a tracking provider (Terminal49) and several OAuth providers.
Its difficult part is not the traffic but the bookkeeping around it: an outside
effect must not happen twice, whatever crashes, times out or runs concurrently,
and what is reported must never exceed what was released. This project models
that bookkeeping and proves it over all runs.

How it is built:

- A protocol is a step machine over plain values. One step is one database
  transaction or one outside call. The answers of the outside world are
  arguments of the step and may be anything; a worker may crash between any two
  steps; API calls and other workers interleave as the program allows.
- An invariant is kept by every step; the theorems follow for every run.
- The program's own methods are written beside the machine as imperative code
  over store classes. Each one states that what it does is a run of the machine
  (`World(..) == Run(old(World(..)), steps)`) in which its inputs decide every
  step (`Goes`, `PollSteps`, `Follows`, `AsCalled`), or exactly one transaction.
  As such a run ends with the worker idle, the contract fixes the final world
  (for `Follows` that is `T49Inputs.InputsDecide`), and the theorems hold of
  that code too.
- What a call comes to (the stored row, the calls made outside, the result) is
  also said without the machine and without the functions that compute it, by
  the tests and values that the program promises (`T49Outcomes`, `KspResults`,
  `KspAcceptance`, `T49Readings`, the contracts of `TokenStore`).
- Algorithms (pack arithmetic, snapshot validation, choosing a container,
  discovery, merging) are loops proved against specifications that mention no
  order of processing; their laws are lemmas about the specifications.

The modules by subject:

| modules | subject |
|---|---|
| `Outcomes`, `Ordering`, `Sums`, `Counting` | result types; sorting; sums; selections from lists |
| `KspMapping`, `KspTracking`, `KspTrackingLaws`, `KspAcceptance` | allocations to whole packs; tracking snapshots to package reports; what is taken and what a report says |
| `KspJournal`, `KspJournalLaws` | the connector's journal and its transactions |
| `KspProtocol`, `KspInvariant`, `KspSteps`, `KspTheorems`, `KspAttribution`, `KspProgress`, `KspResults`, `KspWorker` | the connector with any number of workers, which SKU its events ship, and the worker as written |
| `KspClient` | rate slots and the request loop |
| `T49Choice`, `T49Discovery`, `T49Readings` | reading provider documents |
| `T49Tables`, `T49Store`, `T49Machine`, `T49Invariant`, `T49Steps`, `T49Theorems`, `T49Inputs`, `T49Outcomes`, `T49Endings`, `T49Attempts`, `T49Initiator` | the container and the shipment start/link workflows and the mapping table; what one attempt comes to |
| `T49Hub`, `T49HubLaws`, `T49HubStore`, `T49Inbox`, `T49Consumer`, `T49Queue` | inbox, publishing, feed, waiting in the inbox, consumer, refresh queue |
| `TokenCache`, `TokenStore` | token refresh across processes |
| `StateTree` | the nested-dictionary state |

Conventions of the model:

- Quantities and times are exact numbers. Text fields arrive stripped (KSP) or
  cleaned (Terminal49); a missing, blank or mistyped field is `None` or "".
- SHA-256 digests are treated as injective: a fingerprint is the content itself,
  and the event id of a package is the pair of order id and tracking number,
  ordered as a pair instead of by hash.
- `Review` stands for `ReconciliationRequired`, `ReviewRequired` and
  `IdentityConflict`; messages are not modelled.
- Reports carry no SKU, and SKUs may share an Odoo line. The quantity of a SKU
  over the staged or booked events is therefore read off the snapshot last
  staged for the code (`latest`, a history that no step reads), of which the
  code's events are exactly the reports (`KspTheorems.StagedIsLatestSnapshot`).
- Odoo replays a shipment event it has already booked
  (`src/integrations/ksp_gateway/worker.py:90-91` relies on this).
- In the hub, `now` is the start time of a transaction and transactions take
  effect in the order of the labels. Times need not be ordered, except where a
  statement says so; the worker's fetch clock does not run backwards.

## Model

| member | source | states |
|---|---|---|
| KspMapping.AllocationBinding | src/integrations/ksp_gateway/mapping.py:56-96 | Accepts an allocation exactly when header, rules and lines are acceptable, every SKU has one identity and every SKU's total is a whole number of packs; the binding then holds the unique per-SKU summary |
| KspMapping.SumLines | src/integrations/ksp_gateway/mapping.py:71-88 | The `by_sku` loop succeeds exactly on acceptable lines, whatever their order, and gives each SKU its identity, its rule and the sum of its quantities |
| KspMapping.SummaryUnique | src/integrations/ksp_gateway/mapping.py:71-96 | A list of lines has at most one such summary, so "some summary is whole" and "the computed one is whole" agree |
| KspMapping.BuildOrder | src/integrations/ksp_gateway/mapping.py:99-164 | Succeeds exactly when the allocation and the rest of the body are acceptable; body and binding carry the same code, and the order lines are by the rules |
| KspMapping.OrderIsByTheRules | src/integrations/ksp_gateway/mapping.py:75-133 | For every order line and every released line of its SKU there is a given rule of that SKU and unit with the line's pack type, whose pack size times the packs is what the lines of the SKU release; the order has exactly the released SKUs |
| KspAcceptance.ReleaseTakenExactly | src/integrations/ksp_gateway/mapping.py:56-96 | A release is taken exactly if its header is the one supported, no rule is given twice, there are lines, each is complete and has a rule, no SKU is split over identities, and every SKU fills whole packs |
| KspMapping.PackLines | src/integrations/ksp_gateway/mapping.py:129-133 | The order lists each allocated SKU once, in string order, with its pack type |
| KspMapping.PackConservation | src/integrations/ksp_gateway/mapping.py:91-133 | Over the whole order, packs times units per pack equal the sum of the allocation's lines, for every SKU |
| KspMapping.OrderListsEvery | src/integrations/ksp_gateway/mapping.py:129-133 | Every allocated SKU has exactly one order line |
| KspTracking.PackageReports | src/integrations/ksp_gateway/mapping.py:167-230 | Accepts a snapshot exactly when its header fits, each package is acceptable, tracking numbers differ and no SKU exceeds its release; the result is the sorted list of the package reports |
| KspTracking.OnePackage | src/integrations/ksp_gateway/mapping.py:179-229 | One round of the package loop, with the exact reasons for which it may refuse |
| KspTracking.SumItems | src/integrations/ksp_gateway/mapping.py:198-211 | Succeeds exactly when all items are acceptable and sums packs times pack size per SKU |
| KspTracking.AddLines | src/integrations/ksp_gateway/mapping.py:212-222 | Adds a package to the running totals, refused only if a SKU would exceed its release |
| KspAcceptance.SnapshotTakenExactly | src/integrations/ksp_gateway/mapping.py:167-222 | A snapshot is taken exactly if it is of this order and shipped, every package and item is complete, no tracking number repeats, and no SKU exceeds its release in packs times pack size |
| KspAcceptance.ReportsSay | src/integrations/ksp_gateway/mapping.py:212-230 | Each report is of one package: its tracking number, carrier, order, code and warehouse, and one line per SKU of its items on the SKU's Odoo line with the units they bring; each package has one |
| KspTrackingLaws.SnapshotWithinRelease | src/integrations/ksp_gateway/mapping.py:208-222 | The lines of an accepted snapshot report, of every SKU and of every Odoo line, no more than was released |
| KspTrackingLaws.SkuTotalIsShipped | src/integrations/ksp_gateway/mapping.py:208-222 | What the lines of a package say of a SKU is what its items ship of it, packs times pack size |
| KspTrackingLaws.LabelsAreTheLines | src/integrations/ksp_gateway/mapping.py:213-222 | The lines counted per SKU are the report's lines, one by one, each on the Odoo line that its SKU is bound to |
| KspTrackingLaws.ReleasedOfSku | src/integrations/ksp_gateway/mapping.py:81-88 | If no other SKU shares its Odoo line, that line's release is the SKU's quantity, so the bound per line is then the bound per SKU |
| KspTrackingLaws.PacksWithinOrder | src/integrations/ksp_gateway/mapping.py:208-217 | Packs of a SKU over all packages of an accepted snapshot never exceed the packs ordered |
| KspTrackingLaws.SnapshotSorted | src/integrations/ksp_gateway/mapping.py:223-230 | The reports are exactly the package reports, in strictly ascending order of event id |
| KspTrackingLaws.SnapshotDistinct | src/integrations/ksp_gateway/mapping.py:183-187 | No event id occurs twice in the reports of an accepted snapshot |
| KspTrackingLaws.ReorderedSnapshot | src/integrations/ksp_gateway/mapping.py:176-230 | Permuting packages, and items inside packages, changes neither acceptance nor the resulting list |
| KspJournal.GatewayStore.StageOrder | src/integrations/ksp_gateway/store.py:62-71 | First content of a code is frozen; the same content again changes nothing; other content is refused |
| KspJournal.GatewayStore.BeginPost | src/integrations/ksp_gateway/store.py:82-84 | The conditional update has one winner, for a ready row only, which is then posting |
| KspJournal.GatewayStore.Update | src/integrations/ksp_gateway/store.py:86-89 | State is overwritten; a missing order id keeps the stored one |
| KspJournal.GatewayStore.StageReports | src/integrations/ksp_gateway/store.py:91-106 | The whole snapshot is judged before anything is inserted; refused means unchanged |
| KspJournal.GatewayStore.MayStage | src/integrations/ksp_gateway/store.py:91-104 | A snapshot may be staged exactly if it still has every event of the code and none of its ids is another code's or has another content |
| KspJournal.GatewayStore.InsertAll | src/integrations/ksp_gateway/store.py:104-106 | Every report has its event then, unmarked and of this code if it is new, and no event there was changes |
| KspJournal.GatewayStore.Unfinished | src/integrations/ksp_gateway/store.py:108-111 | Exactly the reports of the code's events that are not marked, each once, by event id |
| KspJournal.GatewayStore.Applied | src/integrations/ksp_gateway/store.py:113-115 | Marks one event and nothing else |
| KspJournalLaws.StagedIsSnapshot | src/integrations/ksp_gateway/store.py:91-106 | After a successful staging the code's events are exactly the snapshot, and no earlier event changed |
| KspJournalLaws.RestagingChangesNothing | src/integrations/ksp_gateway/store.py:91-106 | Staging the same snapshot again succeeds and changes nothing |
| KspJournalLaws.RepollOfReorderedSnapshot | src/integrations/ksp_gateway/worker.py:82-86 | Polling a reordered snapshot raises nothing and changes nothing, in any later journal in which the code has the same events, however many of them are booked and marked |
| KspJournalLaws.StagingWithinRelease | src/integrations/ksp_gateway/store.py:91-106 | Staging a validated snapshot leaves everything ever staged for the code within the release of every SKU and of every Odoo line |
| KspSteps.StepKeeps | src/integrations/ksp_gateway/worker.py:20-94 | Every step of every worker, and every crash, keeps the invariant, and frozen or written-once content stays |
| KspTheorems.AtMostOneEffectivePost | src/integrations/ksp_gateway/worker.py:20-36 | In every run of any number of workers at most one POST of a code ended with anything but a definitive 429 |
| KspTheorems.EffectivePostIsLast | src/integrations/ksp_gateway/worker.py:26-35 | The POST that may have reached the warehouse is the last of its code: every earlier one was definitively rate-limited |
| KspTheorems.EveryPostConserves | src/integrations/ksp_gateway/worker.py:20-29 | Every POST ever sent orders exactly the units of each SKU that the allocation frozen for its code released, and nothing else, each line in packs of the frozen type and size |
| KspTheorems.FrozenForever | src/integrations/ksp_gateway/store.py:62-89 | Body, mapping and claim never change, the order id is written at most once, and every POST carries the body frozen first |
| KspTheorems.JournalIntegrity | src/integrations/ksp_gateway/worker.py:38-76 | Each state proves its history: no POST before ready is left, an order id for pending and accepted, Odoo's confirmation of exactly the frozen anchor, claim, order id and warehouse for acknowledged |
| KspTheorems.NeverStageMoreThanReleased | src/integrations/ksp_gateway/worker.py:78-94 | Over polls, crashes and concurrent pollers all events ever staged for a code stay within the release of every SKU and of every Odoo line, whether SKUs share lines or not |
| KspTheorems.StagedIsLatestSnapshot | src/integrations/ksp_gateway/worker.py:82-86 | In every reachable state the code's events are exactly the reports of one accepted snapshot, the one last staged; the quantities per SKU are read off it |
| KspAttribution.SkusMakeUpLines | src/integrations/ksp_gateway/worker.py:82-86 | In every reachable state the units staged of an Odoo line are the sum of what is staged of the SKUs bound to it |
| KspAttribution.ReportHidesSku | src/integrations/ksp_gateway/mapping.py:213-230 | Two SKUs bound alike on one Odoo line give identical reports, so the event alone cannot say which was shipped |
| KspAttribution.RepollAnyTime | src/integrations/ksp_gateway/worker.py:82-86 | In every reachable state, marks and bookings included, the latest snapshot in any order is accepted again and changes nothing |
| KspAttribution.BookedSnapshotIsDone | src/integrations/ksp_gateway/worker.py:82-92 | Once all events of a code are marked, the latest snapshot in any order changes nothing and leaves nothing to book |
| KspTheorems.NeverBookMoreThanReleased | src/integrations/ksp_gateway/worker.py:88-92 | What Odoo has booked for a code stays within the release of every SKU and of every Odoo line |
| KspTheorems.LedgerIsExact | src/integrations/ksp_gateway/worker.py:86-94 | Whatever crashes between booking and marking, each ledger entry is its one staged report on the frozen anchor, for ever; events never change owner or content |
| KspTheorems.FinishedPollAppliedAll | src/integrations/ksp_gateway/worker.py:86-94 | A poll that finishes leaves every event of its list marked and booked with the staged content |
| KspProgress.LosesStateExactlyWhen | src/integrations/ksp_gateway/worker.py:62-76 | An acknowledged order loses its state exactly when a worker that read it pending receives its tracking answer now |
| KspProgress.LateAnswerLosesState | src/integrations/ksp_gateway/store.py:86-89 | A run of two workers in which that happens: acknowledged goes back to pending |
| KspProgress.OnlyForward | src/integrations/ksp_gateway/worker.py:51-76 | With one worker at a time every order only moves forward: acknowledged and uncertain are final, accepted can only become acknowledged, pending never falls back to ready or posting |
| KspWorker.Worker.SubmitAllocation | src/integrations/ksp_gateway/worker.py:20-36 | For an accepted allocation with a claim exactly the machine's run of the submission built from it, by the rules, with the row, POSTs, acknowledgements and result that the answers call for; a preview exactly when only the flag is off; otherwise nothing happens |
| KspWorker.Worker.Submit | src/integrations/ksp_gateway/worker.py:24-36 | Other content under the code changes nothing. Otherwise a ready row is posted exactly once with the body, and the stored row, the acknowledgements and the result are those that the answers call for, state by state |
| KspWorker.Worker.SubmitStaged | src/integrations/ksp_gateway/worker.py:26-36 | The same from the staged row on |
| KspWorker.Worker.TryPost | src/integrations/ksp_gateway/worker.py:26-35 | The machine's run from the conditional update on: a ready row is posted once and then ready, uncertain, pending, accepted or still posting as its answer says; any other row and the gateway are untouched |
| KspWorker.Worker.Post | src/integrations/ksp_gateway/worker.py:29-35 | The one attempt and what is recorded: ready again after a 429, uncertain after any other error, posting if the worker is lost, and after a reply what `AcceptResponse` says |
| KspWorker.Worker.AcceptResponse | src/integrations/ksp_gateway/worker.py:38-49 | Own code, order id and a known status: accepted or pending with that id. Unknown status: uncertain with that id, raised. Another code: uncertain with the old id, raised. No id: nothing changed, raised |
| KspWorker.Worker.Reconcile | src/integrations/ksp_gateway/worker.py:51-76 | The machine's run with the given answers, and exactly its result, its row and whether Odoo is told: posting and uncertain rows are only looked up, a pending one is judged by its own tracking answer, an accepted one is told to Odoo |
| KspWorker.Worker.ReconcilePending | src/integrations/ksp_gateway/worker.py:62-76 | The pending branch, and the acknowledgement if the order proves accepted |
| KspWorker.Worker.CheckStatus | src/integrations/ksp_gateway/worker.py:62-71 | The pending branch as the machine's run, up to the row read once more: accepted, pending or uncertain by the status of its own order, otherwise unchanged |
| KspWorker.Worker.Confirm | src/integrations/ksp_gateway/worker.py:72-75 | Acknowledged exactly when Odoo confirmed the row's own data, raised otherwise |
| KspWorker.Worker.PollShipments | src/integrations/ksp_gateway/worker.py:78-94 | Exactly the steps and the result that the stored row, the snapshot and the booking answers call for. Odoo is told only of events that were not marked before, each once, as staged and on the frozen anchor; success is reported exactly with their number, and then every event of the code is marked and booked. A second poll of a booked snapshot tells nothing and returns zero |
| KspWorker.Worker.PollAcknowledged | src/integrations/ksp_gateway/worker.py:82-94 | The poll of an acknowledged order: one snapshot step, then the booking of every pending report up to the first that is not confirmed; success, with the count, exactly when all are confirmed |
| KspWorker.Worker.Snapshot | src/integrations/ksp_gateway/worker.py:82-86 | Preview exactly for a readable snapshot while a flag is off, going on exactly for a readable and stageable one; otherwise nothing is staged |
| KspWorker.Worker.BookAll | src/integrations/ksp_gateway/worker.py:87-94 | The booking loop: each report booked with its own answer, then marked, in order, up to the first failure; it succeeds exactly when none fails and counts all that were pending |
| KspClient.RateIsKept | src/integrations/ksp_gateway/store.py:54-60 | Any sixty seconds, ends included, hold at most `requests_per_minute` slots, whatever the clock reads |
| KspClient.SlotsAreEarliest | src/integrations/ksp_gateway/store.py:54-60 | The slots are the earliest possible: no request waits longer than its predecessors and the interval make it |
| KspClient.BurstAtFullRate | src/integrations/ksp_gateway/store.py:17-60 | Requests made at once get their slots one interval apart, so the rate is used up: a minute's worth takes sixty seconds and a twentieth of a second for each |
| KspClient.RateSlots.Reserve | src/integrations/ksp_gateway/store.py:54-60 | The slots granted are exactly those of the clock history; a request waits only for the interval after the slot before it, and no longer |
| KspClient.Request | src/integrations/ksp_gateway/client.py:55-76 | A POST goes out once; a GET again only after a transient answer and at most three times; each in its own slot and after the pause its last answer asks for, one to sixty seconds; the last answer decides |
| KspClient.PauseIsClosest | src/integrations/ksp_gateway/client.py:67-72 | The pause is, of one to sixty seconds, what comes closest to the header, and one second without one |
| KspClient.FindOrder | src/integrations/ksp_gateway/client.py:88-98 | A row exactly when it is the only one with the code, nothing exactly when none has it |
| T49Choice.ChooseContainer | src/integrations/terminal49_client/initiation.py:35-66 | An id exactly when all exact-number containers can be judged and one is live; nothing exactly when they can be judged and none passes; review otherwise |
| T49Readings.JudgedExactly | src/integrations/terminal49_client/initiation.py:35-46 | A container of the number can be judged exactly if its one shipment is known and has the kind of reference that was asked for, unless its carrier is another one |
| T49Readings.PassesExactly | src/integrations/terminal49_client/initiation.py:35-58 | It passes exactly if that shipment is of our carrier and has the bill of lading, for a bill, or the booking, for a booking, that was asked for |
| T49Readings.LiveExactly | src/integrations/terminal49_client/initiation.py:35-62 | It is live exactly if, besides, the shipment is explicitly not stopped and the container not returned |
| T49Choice.ChoiceIgnoresOrder | src/integrations/terminal49_client/initiation.py:35-66 | The choice depends neither on the order of the list nor, in a consistent document, on that of the included resources |
| T49Choice.SameIndex | src/integrations/terminal49_client/core.py:43-47 | The resource index of a consistent document does not depend on order |
| T49Choice.ChooseRequest | src/integrations/terminal49_client/initiation.py:69-86 | Our own request when there is one, else a sole match; nothing exactly when nothing matches |
| T49Choice.ChooseShipment | src/integrations/terminal49_client/shipments.py:161-173 | The one shipment of the bill, if it is explicitly active; nothing exactly when none fits |
| T49Discovery.Discover | src/integrations/terminal49_client/shipments.py:20-51 | Succeeds exactly when every listed container is known, valid, of this shipment and listed once, and then nothing is dropped or reordered; fails as an ordinary error exactly when the first bad link fails by its number; review otherwise |
| T49Readings.ListedExactly | src/integrations/terminal49_client/shipments.py:20-51 | A listing is taken exactly if the shipment is explicitly active, of our carrier and bill and not cut off, and each link is to a known container with a valid number that names the shipment, no two alike |
| T49Readings.MisnumberedListing | src/integrations/terminal49_client/shipments.py:38-41 | An ordinary error only for a link to a known container with an invalid number, and always if the first link is such a one |
| T49Readings.LetterValues | src/integrations/terminal49_client/initiation.py:20-24 | The letters have the values of ISO 6346, which leave out the multiples of eleven |
| T49Readings.CheckSum | src/integrations/terminal49_client/initiation.py:20-24 | The check sum weighs the first ten characters by the powers of two |
| T49Readings.OneCheckDigit | src/integrations/terminal49_client/initiation.py:20-24 | The first ten characters decide the last one |
| T49Discovery.ContainerOn | src/integrations/terminal49_client/initiation.py:163-176 | A container exactly when it is the only one of the number on a shipment that is not stopped and names that shipment |
| T49Readings.FoundExactly | src/integrations/terminal49_client/initiation.py:163-176 | It is found exactly if the shipment is not stopped and the document has that one container of the number, which names the shipment |
| T49Readings.NoCandidateExactly | src/integrations/terminal49_client/initiation.py:167-173 | Waiting for the container is right exactly when the document has no container of the number |
| T49Discovery.ResolutionsAgree | src/integrations/terminal49_client/shipments.py:190-205 | Where the shipment workflow resolves a request to a shipment, the container workflow resolves it to the same |
| T49Tables.BindKeeps | src/integrations/terminal49_client/store.py:95-116 | Binding keeps the bijection and rebinds nothing; it is refused exactly when no bijection that keeps all bindings contains the pair |
| T49Store.TrackingStore.StartBox | src/integrations/terminal49_client/store.py:186-208 | One queued operation per Odoo container with its normal terms, one open operation per number; a repeat with the same terms changes nothing and any other request is refused |
| T49Store.TrackingStore.StartFreight | src/integrations/terminal49_client/shipments.py:59-76 | One queued operation per Odoo shipment and per reference; refused exactly if another shipment has the reference or this one other terms |
| T49Store.TrackingStore.BindMapping | src/integrations/terminal49_client/store.py:95-116 | The mapping transaction, for every way it can end: refused exactly if half of the pair is bound elsewhere; due at once if it is new, changed or to be refreshed |
| T49Store.TrackingStore.UpdateRow | src/integrations/terminal49_client/shipments.py:96-111 | Missing ids keep the stored ones; a shipment that another row has is refused |
| T49Store.TrackingStore.DeferRow | src/integrations/terminal49_client/store.py:237-243 | Counts the failure; the eighth in a row asks for attention |
| T49Store.TrackingStore.ShipmentSubmission | src/integrations/terminal49_client/store.py:245-250 | The request to join, that the way is free, or that the reference is taken without a request |
| T49Store.TrackingStore.LegacyRequest | src/integrations/terminal49_client/shipments.py:120-133 | The same, asked of the container operations |
| T49Steps.LabelKeeps | src/integrations/terminal49_client/initiation.py:93-184 | Every worker step, crash and API call keeps the invariant, and what is written once stays |
| T49Theorems.OnePostPerOperation | src/integrations/terminal49_client/initiation.py:123-138 | No operation, container or shipment, sends two POSTs in any run |
| T49Theorems.NeverRepeated | src/integrations/terminal49_client/shipments.py:174-182 | An operation found past queued by an idle worker is never sent again, whatever became of its POST |
| T49Theorems.WhenPosted | src/integrations/terminal49_client/shipments.py:146-182 | At the moment of a POST its row is committed as submitting and every earlier POST of the other workflow for the reference belongs to a FAILED operation |
| T49Theorems.WorkflowsExclude | src/integrations/terminal49_client/initiation.py:114-128 | A container and a shipment operation never both POST one reference unless the earlier one is FAILED |
| T49Theorems.StatusMeans | src/integrations/terminal49_client/store.py:229-243 | Pending has a request id, linked has its container or shipment id, queued has sent nothing, and every POST carries the row's terms |
| T49Theorems.WrittenOnce | src/integrations/terminal49_client/shipments.py:96-111 | Request, container and shipment ids are written at most once, FAILED and linked containers stay, no mapping is rebound |
| T49Theorems.IndexesHold | src/integrations/terminal49_client/schema.sql:65-81 | The unique indexes are never violated: one shipment operation per reference, one open container operation per number |
| T49Theorems.Bijection | src/integrations/terminal49_client/initiation.py:178-184 | Mappings are one-to-one, every linked container operation is in them for ever, and no two shipment operations share a shipment |
| T49Initiator.Initiator.Once | src/integrations/terminal49_client/initiation.py:93-146 | One due operation with its exception handlers is the machine's run that the documents and the faults call for; it keeps the invariant, an operation past queued sends nothing, FAILED needs a dead request, and when every write commits the row, mapping and POSTs are those of `AttemptEnds` |
| T49Attempts.JudgedRequest | src/integrations/terminal49_client/initiation.py:148-162 | The request that an attempt judges decides its row: one of another reference or carrier, or tracking anything but one shipment, NEEDS_REVIEW; a dead one FAILED; a live one that tracks nothing yet PENDING; its id is stored |
| T49Attempts.FailsOnlyWhenDead | src/integrations/terminal49_client/shipments.py:190-197 | No attempt writes FAILED unless the request it judged is for this reference and dead |
| T49Attempts.NeverFailsAlive | src/integrations/terminal49_client/initiation.py:139-156 | The same whatever call fails and wherever the worker stops |
| T49Attempts.PostsExactlyWhenUnknown | src/integrations/terminal49_client/initiation.py:100-138 | A POST is sent exactly when nothing is known of the reference here, in the other table or at the provider, and the row was not submitting; a submitting row then asks for review |
| T49Endings.ReadAs | src/integrations/terminal49_client/shipments.py:190-205 | A request is read as rejected, failed, waiting or naming a shipment exactly by its reference, its carrier, whether it is dead and what it tracks |
| T49Inputs.InputsDecide | src/integrations/terminal49_client/shipments.py:138-185 | Runs that follow the same inputs and end idle end in the same world, so the contracts of the workflow class leave nothing open |
| T49Initiator.Initiator.FindContainer | src/integrations/terminal49_client/initiation.py:103-108 | An existing container is linked exactly when the choice names one; the machine's run for the inputs and what it comes to |
| T49Initiator.Initiator.AskOther | src/integrations/terminal49_client/initiation.py:114-122 | A row of the other workflow that may be known to the provider is joined by its request, or asks for review; the machine's run for the inputs and what it comes to |
| T49Initiator.Initiator.Submit | src/integrations/terminal49_client/initiation.py:123-138 | A row read as submitting sends nothing and asks for review; otherwise one POST of the row's terms, after submitting is committed, whose answer is stored and judged |
| T49Initiator.Initiator.LookAtShipment | src/integrations/terminal49_client/shipments.py:207-211 | The fetched shipment: linked, waiting, for review or put off by its container or its whole listing; the machine's run for the inputs |
| T49Initiator.Initiator.LinkContainer | src/integrations/terminal49_client/initiation.py:178-184 | The mapping before the operation: refused if half of the pair is bound elsewhere, else active with the row's number and the row linked |
| T49HubLaws.FirstBodyForever | src/integrations/terminal49_client/store.py:50-80 | A notification keeps its first accepted body, and no delivery with another body is ever accepted for it |
| T49HubLaws.LeavesTheInbox | src/integrations/terminal49_client/worker.py:79-104 | Between two operator resets at most `max_attempts` attempts are committed, and after that many the notification no longer waits |
| T49Inbox.StepTriesOrShortens | src/integrations/terminal49_client/worker.py:79-104 | A step attempts the notification or keeps its row and its turn, and an attempt of another one uses up an attempt of those received no later |
| T49Inbox.BoundedWaiting | src/integrations/terminal49_client/worker.py:79-104 | A due notification is attempted within one attempt more than the notifications received no later than it have left, whatever arrives or fails meanwhile |
| T49HubLaws.AllOrNothing | src/integrations/terminal49_client/worker.py:85-104 | The notification is processed exactly when every container was fetched and has a number; then each active mapping has gained exactly one entry per fetched container that it expects, the last message and the events of each container are stored and no mapping is changed; otherwise nothing but its own row changes |
| T49HubLaws.BackoffDoubles | src/integrations/terminal49_client/worker.py:97-103 | The wait after a failure doubles from half a minute up to an hour |
| T49HubLaws.PublishReaches | src/integrations/terminal49_client/store.py:126-168 | A refresh gives each active mapping that expects the number exactly one entry and nobody else any |
| T49HubLaws.RefreshReschedules | src/integrations/terminal49_client/worker.py:105-119 | A refresh that succeeds makes every active mapping of the container due after the configured time, failing exactly if it expects another number; one that fails puts its own mapping off by five minutes; nothing else changes |
| T49HubLaws.FeedIsOrdered | src/integrations/terminal49_client/store.py:155-164 | In every run versions are contiguous from one, times never go back, entries match their mapping, and nothing published disappears |
| T49Consumer.EachEntryOnceInOrder | src/integrations/terminal49_client/store.py:118-124 | A consumer following `next_cursor` with any limits while the service goes on has each entry of its company up to its cursor once and in order, and all of them when a page is empty |
| T49Queue.StepServesOrShortens | src/integrations/terminal49_client/worker.py:105-119 | A step serves the target or lets nobody pass it, and a refresh of another mapping shortens the queue ahead |
| T49Queue.BoundedWaiting | src/integrations/terminal49_client/worker.py:105-119 | A due, unlocked, untouched mapping is served within K + 1 refresh steps, K being the active mappings ahead of it |
| T49HubStore.FeedStore.Receive | src/integrations/terminal49_client/store.py:50-80 | A new id is filed unread; a duplicate changes no row and conflicts exactly when its body differs; every delivery is recorded as it was judged |
| T49HubStore.FeedStore.RetryNotification | src/integrations/terminal49_client/worker.py:137-145 | The notification is as new and due at once; nothing else changes |
| T49HubStore.FeedStore.ReadFeed | src/integrations/terminal49_client/store.py:118-124 | The first `limit` entries of the company after the cursor, all of them if there are fewer, and the cursor they lead to |
| T49HubStore.FeedStore.PublishContainer | src/integrations/terminal49_client/store.py:126-168 | The publishing loops, or nothing when the number is missing |
| T49HubStore.FeedWorker.PublishContainers | src/integrations/terminal49_client/worker.py:86-90 | All containers, or a rollback to the savepoint |
| T49HubStore.FeedWorker.ProcessNote | src/integrations/terminal49_client/worker.py:79-104 | The notification transaction |
| T49HubStore.FeedWorker.RefreshMapping | src/integrations/terminal49_client/worker.py:105-119 | The refresh transaction |
| T49HubStore.FeedWorker.Once | src/integrations/terminal49_client/worker.py:79-120 | Takes the earliest due notification and, in any case, the earliest due unlocked mapping, and is idle only when there is none |
| TokenCache.UpsertWritesMerged | src/integrations/_base_client/token_cache.py:348-376 | What is stored is what is returned and cached, and a stored refresh token is not erased |
| TokenCache.SingleFlight | src/integrations/_base_client/token_cache.py:553-689 | A second committed refresh for one presented token needs that token handed out again, the row deleted, or the stored token expired |
| TokenCache.AtMostOneRefresh | src/integrations/_base_client/token_cache.py:553-689 | Callers that all present one token, with answers that differ from it and stay unexpired, commit at most one refresh over all processes |
| TokenCache.OthersGetStoredTokens | src/integrations/_base_client/token_cache.py:587-617 | Every other successful caller gets a record the row has held, unexpired and different from the token it presented |
| TokenCache.RefreshTokenIsKept | src/integrations/_base_client/token_cache.py:666-683 | Without a deletion a stored refresh token is never lost |
| TokenStore.TokenStore.ForceRefresh | src/integrations/_base_client/token_cache.py:553-585 | A usable record is returned as it is. Otherwise the provider's token, with the refresh token it may lack kept from the row, is returned, stored and cached exactly if the call does not fail, the provider answers, and there is a row or none is needed; else nothing is returned or stored. It is the machine's run for its inputs |
| TokenStore.TokenStore.GetValidAccessToken | src/integrations/_base_client/token_cache.py:519-551 | An unexpired token without a refresh, one that another process has stored since, or the provider's new one, also when there was none before; an error exactly if none of these is to be had |
| TokenStore.TokenStore.LookUp | src/integrations/_base_client/token_cache.py:569-578 | Cache or row and the first check, as the machine's run; a record comes back exactly when it is unexpired and not the presented token |
| TokenStore.TokenStore.RefreshUnderLock | src/integrations/_base_client/token_cache.py:619-689 | The critical section and the caching after it: returned as it is, refreshed or nothing, under the conditions of `ForceRefresh` |
| TokenStore.TokenStore.Transact | src/integrations/_base_client/token_cache.py:627-683 | The transaction alone: the provider is asked exactly if the row is not usable and there is a row or none is needed |
| TokenStore.AuthTable.UpsertToken | src/integrations/_base_client/token_cache.py:348-376 | Overwrites the access token and its expiry; a missing refresh token keeps the stored one |
| StateTree.GetAfterPut | src/storage/states/state_store.py:91-146 | Reading a path after writing it gives the value |
| StateTree.PutElsewhere | src/storage/states/state_store.py:116-146 | Writing leaves every path unchanged that is neither above nor below the written one |
| StateTree.PutBelow | src/storage/states/state_store.py:116-146 | Below the written path the written value is read |
| StateTree.PutPut | src/storage/states/state_store.py:116-146 | The later of two writes to a path wins |
| StateTree.MergeShared | src/storage/states/state_store.py:77-89 | What a merge holds at paths that run in dictionaries of both trees |
| StateTree.MergedLeafIsRead | src/storage/states/state_store.py:77-89 | Every non-dictionary value of the updates is read back |
| StateTree.MergeLeavesAlone | src/storage/states/state_store.py:77-89 | A path that leaves the updates at an absent key below shared dictionaries is unchanged |
| StateTree.MergeReplaces | src/storage/states/state_store.py:85-89 | Where the updates meet a missing value or a non-dictionary they replace it |
| StateTree.MergeIsCovered | src/storage/states/state_store.py:77-89 | Every path falls under one of these three |
| StateTree.MergeTwice | src/storage/states/state_store.py:77-89 | Merging the same updates twice is merging them once |
| StateTree.StateStore.GetPath | src/storage/states/state_store.py:91-114 | The stored value, or the default for an absent or empty path |
| StateTree.StateStore.SetPath | src/storage/states/state_store.py:116-146 | The written tree; the empty path is refused |
| StateTree.StateStore.Update | src/storage/states/state_store.py:50-61 | The merged tree |
| StateTree.DeepMerge | src/storage/states/state_store.py:77-89 | The loop over the updates computes the merge, whatever their order |

## Left out

- KspTheorems.NeverStageMoreThanReleased: which SKU a staged event ships is that of the last snapshot; should KSP restate the SKU of a package between two SKUs bound alike, the journal cannot notice (KspAttribution.ReportHidesSku) and an older attribution is not kept.
- KspTracking.PackageReports: decimals and the conversion to float (`mapping.py:219-221`) are exact numbers, and date parsing is a flag.
- KspMapping.BuildOrder: the customer, address and option fields are one validated part `rest` that succeeds or not.
- KspWorker.Worker.Reconcile: the answer of `find_order` is an input and its request, which changes nothing, is not a step; note, Logiwa id and result columns are omitted.
- KspClient.RateIsKept: is over exact numbers, not SQLite's REAL.
- KspClient.Request: the pauses are values; sleeping and header spelling are omitted.
- T49Theorems.WorkflowsExclude: says nothing about two container operations that share a bill of lading, which rests on what the provider lists.
- T49Initiator.Initiator.Once: which due operation is taken, and when it is due again, is an argument; both workflows are one class because they share all but their first questions. `AttemptEnds` is for writes that commit; when one fails, the run, the invariant and the condition for FAILED are stated.
- T49Endings.ReadAs: what is fetched by a request id is a tracking request; the container workflow does not look at its type.
- T49Discovery.Discover: ports, names and the master bill of the listing are not kept.
- T49Choice.ChooseContainer: a document with missing keys or malformed identifiers is an ordinary error in the program and a broken answer in the workflow, not an outcome here.
- T49HubLaws.FeedIsOrdered: one account; two workers at once are excluded by the advisory lock.
- T49Queue.BoundedWaiting: a mapping that the API re-registers while it waits is not covered, since that moves it by design.
- TokenCache.SingleFlight: counts committed refreshes; a provider call whose transaction then fails is not stored and not counted.
- TokenStore.TokenStore.ForceRefresh: one provider; rows and caches of different providers do not interact. `set`, startup warm-up and the provider payloads are omitted.
- StateTree.StateStore.SetPath: works on values, so sharing of nested dictionaries between callers and the store is not captured; loading, saving and the lock are omitted.
- KspProgress.OnlyForward: is for one worker at a time, because with two it is false (KspProgress.LateAnswerLosesState).
- `Worker.resolve`, `event_records`, `normalize_snapshot` and the paging of `terminal49_client/client.py`: what they fetch is an argument of the publishing steps.
- File archiving, HTTP transports, signatures, routers, ORM models, migrations and settings.
- The remaining integrations, the retries of `base_client.py` and the shipment queue (`src/database/utils/shipment_sync_queue.py`): single calls and single statements, not protocols over several steps.
