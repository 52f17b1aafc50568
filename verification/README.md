# Transactional outbox and idempotent consumer: a verified model

The platform publishes integration events through a transactional outbox. A domain transaction inserts an event row;
any number of relay workers lease rows, publish them to a JetStream stream outside any transaction, and settle them
with guarded updates; a durable consumer turns each message into at most one receipt. Around that core stand two retry
schedules, the UUIDv7 codec (written once in Go and once in TypeScript), the event envelope with its subject, and the
lifecycle of the process that runs it all. This project models these parts in Dafny and proves what they promise.

## How the project is laid out

| module | what it holds |
|---|---|
| `Wrappers` | optional values and results |
| `RetryPolicy` | the two doubling loops and their common closed form |
| `Uuid` | UUIDv7 codec and validator, Go and TypeScript |
| `Event` | envelope, validation, subject printer and parser |
| `OutboxTable` | rows, constraints, and each SQL statement as a function on tables |
| `OutboxMachine` | the outbox as a state machine over table, clock, stream and per-loop batches |
| `OutboxHistory` | what the shape of one row's history implies: exclusion, conservation, bounds, spacing |
| `OutboxInvariants`, `OutboxFence`, `OutboxStream`, `OutboxSettlement` | inductive invariants of the machine |
| `OutboxTheorems`, `OutboxWaiting`, `OutboxDrain` | what holds of every run |
| `OutboxColumns` | what each column of a row says, in every reachable state, in terms of its history alone |
| `OutboxLate` | the outbox with settling statements that are executed after their call has failed |
| `Database`, `Repository`, `Relay` | the imperative code as classes, each call tied to a step of the machine |
| `ConsumerMachine`, `Consumer` | the consumer as a state machine and as it is written |
| `ConsumerSettlement` | how messages end, over every interleaving of handlers |
| `ConsumerRecords` | what acknowledgements, receipts and dead letters say about their messages, over every trail |
| `EndToEnd` | outbox, stream and consumer together |
| `Lifecycle` | the dependency set and the process runtime |

The machine's steps are the atomic actions of the source: a committed statement, a broker call, a reading of the clock.
Each step carries what the environment decided about it (did it take effect, was the caller told), so crashes, lost
leases, cancellation and ambiguous outcomes are ordinary steps. Every row has a history of facts that no step reads;
the main results are statements about the histories of all reachable states. `Relay.Relay` and `Consumer.Consumer`
keep a ghost machine state beside the real fields, and their methods prove that each call is a step. What an operation
writes is stated on the operation itself in columns, times, codes and envelopes, and again as a theorem about every
reachable state; the functions that the machine and the code share are never the only place where it is said.

## Modelling assumptions

- A new row carries the time at which its transaction began, which may be long before it is committed; it may then sort
  before rows that were committed earlier.
- A claim is atomic; `FOR UPDATE SKIP LOCKED` appears as an arbitrary set of rows that the claim may not take.
- One monotone clock, in nanoseconds, stands for the database's `now()` and the relay's `time.Now()`
  (backend/internal/platform/outbox/relay.go:204, backend/internal/platform/outbox/repository.go:112).
- All relays share one configuration.
- Worker ids of different loops differ. `NewRelay` allocates one id per relay, so a `Close` that times out followed by
  a `Start` gives two loops one id (backend/internal/platform/outbox/relay.go:93-137). The assumption is a premise
  (`DistinctOwners`) only where it is needed. `FencingExact` proves that the outbox machine's fencing needs it and
  nothing else; in that machine no settling statement takes effect after its call has returned an error. `OutboxLate`
  lifts that restriction.
- The order of the rows that a claim returns is unspecified; only the set is determined.
- The lease interval is the configured duration truncated to microseconds.
- A call that returns an error may have taken effect before it returned.
- The JSON codec is abstract: a payload is an encoded envelope or something else, and decoding an encoded envelope gives
  it back. Of event data only "is an object" is kept.
- The stream is an append-only log. Other publishers may append anything, under any message id. A publish whose id is
  taken may be acknowledged without being appended (backend/internal/platform/natsclient/client.go:147,161); how long
  the broker remembers an id is left open.
- A `uuid` column holds the 128-bit value of the identifier's text.
- Between two calls of a relay, the method `Relay.Relay.Interfere` stands for everyone else: callers may rely on its
  contract alone, which allows any run of the machine that leaves this loop's own memory alone. The consumer class is
  sequential; the consumer machine covers interleavings of many handlers, and `ConsumerSettlement` proves settlement
  over all of them.
- Settlement results speak of *calm* trails: delivery metadata can be read, the consumer's calls to the broker succeed,
  no delivery overlaps another of the same message (no acknowledgement wait runs out) and no handler crashes. Databases
  may fail in any way.

## What the proofs found

- The settling updates are guarded by id, status and lease owner, not by the attempt number. That fences stale workers
  exactly when no two loops share a worker id; otherwise a loop can settle a later claim (`SharedOwnerUnfenced`).
- A settling statement that is executed after its call has failed breaks fencing even for one loop alone
  (`LateMisfire`). With distinct worker ids fencing holds in a run if and only if no such statement is executed while
  its own loop holds a newer claim of the row (`LateFencing`); accounting, bounds and lease exclusion hold regardless.
- A published row's event need not be in the stream: the broker recognises duplicates by message id alone, so a message
  that someone else stored under that id is acknowledged in its place (`PublishedButUsurped`). Otherwise it is there
  (`PublishedIsInStream`).
- A nil result of a batch does not mean that every leased row was settled. It does exactly if the claim was returned or
  had leased nothing (`ProcessBatch`); a claim that is cancelled after its commit took effect leaves its rows leased and
  unsettled (`UnreturnedClaim`), and `NoStuckRow` bounds the delay.
- "Acknowledged with a receipt or terminated with a dead letter, never both" fails. A terminated message has a receipt
  if and only if one of its own transactions - any of the five - took effect without being reported, or a transaction
  for another copy of the same event took effect (`TerminatedHasReceiptIff`). Both happen: `TerminatedAfterUnreported`
  for every valid message, `TerminatedAfterCopy` for every second copy even when every outcome is reported. What does
  hold is that no message is both acknowledged and terminated, and that an acknowledged one has no dead letter.
- Without overlapping deliveries, a message stays open after its fifth delivery if and only if that delivery ended in a
  crash, in a lost acknowledgement or termination, in a dead letter whose publish was not acknowledged, or in a retry
  because its metadata could not be read (`StrandedIff`).
- When delivery metadata cannot be read the consumer assumes the first delivery, so such a delivery is never the last.
- An envelope whose version exceeds 2^31 - 1 passes `Validate` but is refused by the table.
- Retry spacing is measured from the moment at which the relay saw the first failure, which is when the source reads the
  clock; the moment of recording can be later.

## Model

| member | source | states |
|---|---|---|
| `OutboxFence.FencingExact` | backend/internal/platform/outbox/repository.go:169-238 | In every reachable state every settlement hit the very claim it belonged to, if and only if no two relay loops share a worker id |
| `OutboxFence.Fencing` | backend/internal/platform/outbox/relay.go:139-234 | With distinct worker ids, over all runs with crashes, expired leases and ambiguous calls, a settlement recorded for attempt a happens while the row's count is a, right after the same loop's claim |
| `OutboxFence.SharedOwnerUnfenced` | backend/internal/platform/outbox/relay.go:93-137 | For any two loops with one worker id, a reachable state in which the first settled the second's claim |
| `OutboxTheorems.SettlementsFenced` | backend/internal/platform/outbox/repository.go:118-181 | In any reachable state each settlement directly follows its own loop's claim with the same attempt number, and no attempt number is settled twice |
| `OutboxTheorems.LeaseExclusion` | backend/internal/platform/outbox/repository.go:109-126 | Of two claims of one row, the later comes at or after the earlier lease's expiry unless a settlement lies between |
| `OutboxTheorems.AttemptsConserved` | backend/internal/platform/outbox/repository.go:112-126 | attempt_count = failures + completions + reclaims + (1 while publishing); relays put at most attempt_count copies of the event into the stream |
| `OutboxTheorems.FailuresBounded` | backend/internal/platform/outbox/repository.go:211-225 | A pending row has an attempt left; at most MaxAttempts failures whatever the reclaims; claims exceed MaxAttempts only by the number of reclaims |
| `OutboxTheorems.RetriesSpaced` | backend/internal/platform/outbox/relay.go:203-213 | A claim after k recorded failures comes at least the sum of the first k delays after the first failure was observed, even when reclaims make attempt numbers jump |
| `OutboxTheorems.NoStuckRow` | backend/internal/platform/outbox/repository.go:111-123 | Every unfinished row of every reachable state is claimable after at most max(lease, MaxBackoff), however it was abandoned |
| `OutboxTheorems.ProgressPossible` | backend/internal/platform/outbox/relay.go:158-234 | In any run that outlasts that horizon the row was touched meanwhile or can be claimed at its end |
| `OutboxTheorems.SchemaHolds` | backend/migrations/000002_outbox_and_consumers.up.sql:24-46 | In every reachable state, in columns: owner and expiry are set iff the row is publishing, published_at iff published, dead_lettered_at iff dead-lettered; the event is valid with a version in 32 bits, and the row holds its own id and subject |
| `OutboxTheorems.Absorbing` | backend/internal/platform/outbox/repository.go:162-240 | A published or dead-lettered row never changes again, in any column |
| `OutboxTheorems.AttemptsGrow` | backend/internal/platform/outbox/repository.go:118-126 | Along any run a row keeps its event and its creation time, its history only grows and attempt_count never falls |
| `OutboxTheorems.PublishedIsInStream` | backend/internal/platform/outbox/relay.go:202-230 | A published row's event is in the stream under its own id and its own subject, unless someone other than a relay stored a message under that id |
| `OutboxTheorems.PublishedButUsurped` | backend/internal/platform/natsclient/client.go:135-161 | Whatever other message is stored first under an event's id, a state can be reached in which the event's row is published and the event is nowhere in the stream |
| `OutboxTheorems.RelayedIsCommitted` | backend/internal/platform/outbox/relay.go:172-202 | Every message that a relay published carries the event of a committed row under its own id and subject, sent under one of that row's attempts |
| `OutboxColumns.UntouchedRow` | backend/migrations/000002_outbox_and_consumers.up.sql:13-23 | A row without history is pending with no attempts, leases, ends or errors, and due, created and updated at one time |
| `OutboxColumns.LeasedIff` | backend/internal/platform/outbox/repository.go:118-126 | In every reachable state a row is publishing iff its history ends in a claim; owner, expiry (lease truncated to microseconds), count and updated_at are that claim's |
| `OutboxColumns.PublishedIff` | backend/internal/platform/outbox/repository.go:169-172 | In every reachable state a row is published iff its history ends in a completion; published_at and updated_at are its time, and no error code is left |
| `OutboxColumns.DeadLetteredIff` | backend/internal/platform/outbox/repository.go:211-225 | In every reachable state a row is dead-lettered iff its history ends in a failure that was permanent or found attempt_count at MaxAttempts or above - never earlier; time and error code are that failure's |
| `OutboxColumns.AttemptsGranted` | backend/internal/platform/outbox/repository.go:211-216 | A row that ended by a transient failure failed or was reclaimed at least MaxAttempts times, and without reclaims failed exactly MaxAttempts times |
| `OutboxColumns.RetrySchedule` | backend/internal/platform/outbox/relay.go:176-213 | Every transient failure of every run is rescheduled exactly min(Base * 2^(a-1), Max) after it was observed, a being the attempt; every permanent one is stamped with the moment itself |
| `OutboxColumns.DueAtOnce` | backend/migrations/000002_outbox_and_consumers.up.sql:16-22 | Until its first failure a row is due from its creation and shows no error |
| `OutboxColumns.DueAfterFailure` | backend/internal/platform/outbox/repository.go:217-223 | Afterwards next_attempt_at is what the latest failure asked for, and last_error_code is its code until the row is published |
| `OutboxColumns.StepColumns` | backend/internal/platform/outbox/repository.go:105-240 | Every step keeps those columns tied to the row's history |
| `OutboxWaiting.BoundedWaiting` | backend/internal/platform/outbox/repository.go:109-126 | Over any run without reclaims and without inserts that sort earlier by (created_at, id), a row with k unfinished rows before it in that order is skipped while due and unlocked by at most floor(k * MaxAttempts / BatchSize) claims, whatever claims are made while it is locked, not due or leased |
| `OutboxDrain.Drains` | backend/internal/platform/outbox/relay.go:158-234 | One healthy loop over n due rows: all are published with one more attempt each if and only if at least ceil(n / BatchSize) batches were claimed |
| `OutboxLate.LateFencing` | backend/internal/platform/outbox/repository.go:162-240 | With settling statements that may be executed any time after their call failed, and distinct worker ids: every settlement of a run hit its own claim if and only if no late statement was executed while its own loop held a newer claim of the row |
| `OutboxLate.GuardMisfires` | backend/internal/platform/outbox/repository.go:169-225 | The guard lets a late statement through to a claim that is not its own exactly if the last thing that happened to the row is a newer claim by the same loop |
| `OutboxLate.LateMisfire` | backend/internal/platform/outbox/repository.go:169-172 | One loop alone can reach a state in which its late statement completed its own later claim |
| `OutboxLate.LateRowsKept` | backend/internal/platform/outbox/repository.go:105-240 | Late statements break none of: schema, attempt conservation, the bound on failures, lease exclusion, and that every unfinished row becomes claimable |
| `OutboxInvariants.StepInv` | backend/internal/platform/outbox/repository.go:105-240 | Every step keeps the invariant linking each row to its history and each remembered record to a claim, and loses nothing recorded |
| `OutboxStream.StepStream` | backend/internal/platform/outbox/relay.go:172-230 | Every step keeps: stream entries come from claims, no attempt is copied twice, unsent records are not in the stream, the ids of published rows are taken |
| `OutboxStream.CopiesBounded` | backend/internal/platform/outbox/relay.go:202-202 | Relayed copies of an event never outnumber its row's attempts |
| `OutboxSettlement.StepSettlement` | backend/internal/platform/outbox/relay.go:172-232 | Every step keeps: what a loop still remembers it has not settled |
| `OutboxSettlement.UnreturnedClaim` | backend/internal/platform/outbox/relay.go:159-170 | Any loop can reach a state in which its claim took effect without being returned: the row is leased, nobody remembers it and nobody has settled it |
| `OutboxSettlement.ReachableGood` | backend/internal/platform/outbox/relay.go:139-234 | All invariants hold together in every reachable state when worker ids differ |
| `OutboxHistory.Growth` | backend/internal/platform/outbox/repository.go:118-126 | Along a row's history time and count never fall, and a claim raises the count |
| `OutboxHistory.SettledOnce` | backend/internal/platform/outbox/repository.go:169-225 | Of two settlements of one row the later has the higher attempt number |
| `OutboxHistory.LeasesExclude` | backend/internal/platform/outbox/repository.go:111-123 | Lease exclusion read off one history |
| `OutboxHistory.Conservation` | backend/internal/platform/outbox/repository.go:118-126 | The latest count of a history is its failures, completions, reclaims and open claim |
| `OutboxHistory.BoundedFailure` | backend/internal/platform/outbox/repository.go:211-222 | Failures of a history are bounded by MaxAttempts (by MaxAttempts - 1 while the row lives) and by its count |
| `OutboxHistory.Spacing` | backend/internal/platform/outbox/relay.go:203-213 | After k failures the earliest next claim is at least the sum of the first k delays after the first failure |
| `OutboxHistory.ClaimSpacing` | backend/internal/platform/outbox/repository.go:112-112 | The same for every later claim that is in the history |
| `OutboxTable.FirstExists` | backend/internal/platform/outbox/repository.go:109-117 | A claim always has an answer: the first min(limit, eligible) rows by (created_at, id), each once |
| `OutboxTable.FirstUnique` | backend/internal/platform/outbox/repository.go:109-117 | The set of rows a claim takes is determined |
| `OutboxTable.ReturnedOldest` | backend/internal/platform/outbox/repository.go:109-117 | In columns: what a claim returns is unlocked and due; a due and unlocked row is left out only at the limit, and then everything returned has an earlier created_at, or the same one and a smaller id |
| `Database.Database.InTransaction` | backend/internal/platform/database/transaction.go:14-47 | All or nothing: committed data is the old or the operation's whole result; each error is reported exactly in its case, an operation error with its cause and without effect; only an unreported commit changes data behind an error |
| `Repository.Repository.Insert` | backend/internal/platform/outbox/repository.go:45-85 | Succeeds exactly if the event is valid, its version fits and its id is new; then adds exactly one row, given column by column, to the caller's transaction; otherwise reports the error and changes nothing |
| `Repository.Repository.InsertInTransaction` | backend/internal/platform/database/transaction.go:27-46 | Succeeds exactly if the event can be inserted, the caller asks for no rollback and the commit is reported; an event is committed only with its transaction, and a rollback leaves no row behind |
| `Repository.DecodeAll` | backend/internal/platform/outbox/repository.go:136-153 | Decoding succeeds iff no scan fails and every claimed envelope is valid, and then yields one record per row |
| `Repository.IdentityDecodes` | backend/migrations/000002_outbox_and_consumers.up.sql:30-35 | In a table that meets its constraints every claimed row decodes, to a record with the row's own id |
| `Repository.CheckClaim` | backend/internal/platform/outbox/repository.go:95-103 | A claim refuses exactly a worker id that is no UUIDv7, a limit outside 1 to 1000 and a lease that is not positive |
| `Repository.Repository.Claim` | backend/internal/platform/outbox/repository.go:89-159 | Leases rows if and only if all decode and the commit takes effect, and returns exactly those if and only if it is also reported; no due and unlocked row that was left out is older by (created_at, id); every column of leased and other rows is given; refuses exactly the bad arguments |
| `Repository.Repository.MarkPublished` | backend/internal/platform/outbox/repository.go:162-183 | Succeeds exactly if the statement executes on a publishing row with this owner and is reported; the row is then published now, without lease or error code, and nothing else changed |
| `Repository.Repository.MarkFailed` | backend/internal/platform/outbox/repository.go:186-240 | Succeeds exactly if the arguments are good and the statement executes on a publishing row with this owner and is reported; the row is then dead-lettered exactly if the failure is permanent or its attempts have reached the maximum, pending otherwise, with the given time and code, and nothing else changed |
| `Relay.NewRelay` | backend/internal/platform/outbox/relay.go:53-85 | Succeeds exactly if the dependencies are there, the policy meets what every theorem assumes and a worker id can be made; that id is a UUIDv7; otherwise names the first check that fails |
| `Relay.Relay.ProcessRecord` | backend/internal/platform/outbox/relay.go:172-232 | Under any interference, by steps of the machine: what does not encode is never sent and ends as a dead letter; anything else is sent once, unchanged; unacknowledged, it is due again min(Base * 2^(attempt-1), Max) after the failure, or dead-lettered at its last attempt; acknowledged, it is published; the batch goes on exactly if the record is settled, and no later record is |
| `Relay.Relay.Backoff` | backend/internal/platform/outbox/relay.go:236-248 | The wait after an attempt under the relay's own policy is min(Base * 2^(attempt-1), Max) |
| `Relay.Relay.ProcessRecords` | backend/internal/platform/outbox/relay.go:172-233 | No error means that every record was settled; an error means that a prefix was, and nothing after the record it stopped at |
| `Relay.Relay.ProcessBatch` | backend/internal/platform/outbox/relay.go:158-234 | A run of the machine; nil exactly if the claim was cancelled or every returned record was settled; a nil result has settled every leased row if and only if the claim was returned or leased nothing, and rows leased by a claim that failed mean an unreported commit; an error settles a prefix |
| `Relay.Relay.Run` | backend/internal/platform/outbox/relay.go:139-156 | A first batch and one per tick are a run of the machine, after which lastError is the latest batch's outcome |
| `ConsumerMachine.StepCInv` | backend/internal/platform/eventconsumer/consumer.go:156-274 | Every step keeps: one effect per receipt, receipts account to valid messages, acknowledged messages have receipts, terminated ones dead letters |
| `ConsumerMachine.ReplayInv` | backend/internal/platform/eventconsumer/consumer.go:156-220 | Whatever trail of steps a consumer leaves, the invariant holds at its end |
| `ConsumerMachine.ReplayGrows` | backend/internal/platform/eventconsumer/consumer.go:282-292 | A consumer's trail stays the same trail when the stream grows |
| `ConsumerRecords.AcknowledgedIsValid` | backend/internal/platform/eventconsumer/consumer.go:163-203 | Over every trail, whatever fails, an acknowledged message is one of the filter subject that holds a valid envelope, and the receipt of consumer and event id is there |
| `ConsumerRecords.ReceiptsTell` | backend/internal/platform/eventconsumer/consumer.go:178-191 | Over every trail every receipt stands for a message with a valid envelope of that id and type, and carries a delivery count of one to five |
| `ConsumerRecords.LettersTell` | backend/internal/platform/eventconsumer/consumer.go:163-252 | Over every trail every dead letter names its message's subject and readable event id; its reason is the envelope exactly if that is not valid, and a valid message is given up only at its fifth delivery |
| `ConsumerRecords.StepRecords` | backend/internal/platform/eventconsumer/consumer.go:156-252 | Every step keeps what handlers know and what dead letters say true of the message |
| `ConsumerSettlement.CalmStep` | backend/internal/platform/eventconsumer/consumer.go:156-274 | Every calm step of any handler keeps, for every message: one handler at a time, its count is the broker's, and its dead letters are none or the one final one |
| `ConsumerSettlement.SettlementHolds` | backend/internal/platform/eventconsumer/consumer.go:156-292 | After any calm trail a message that nobody handles is acknowledged with a receipt and no dead letter because a transaction of its own was reported, or terminated at its last delivery with exactly one dead letter because none was, or has deliveries left; never more than five deliveries, and the delays asked for are the schedule's |
| `ConsumerSettlement.StepsBounded` | backend/internal/platform/eventconsumer/consumer.go:156-292 | At most 17 steps of a calm trail concern one message (4 if it is invalid), however many steps others take in between |
| `ConsumerSettlement.SettledIffDone` | backend/internal/platform/eventconsumer/consumer.go:156-292 | A message is settled if and only if no calm step about it is possible any more |
| `ConsumerSettlement.ReceiptIffRecorded` | backend/internal/platform/eventconsumer/consumer.go:178-191 | Over any trail there is a receipt for a key if and only if some transaction for that key took effect |
| `ConsumerSettlement.TerminatedHasReceiptIff` | backend/internal/platform/eventconsumer/consumer.go:178-208 | A message terminated in a calm trail has a receipt if and only if one of its transactions took effect unreported or a transaction for another copy took effect |
| `ConsumerSettlement.TerminatedAfterUnreported` | backend/internal/platform/eventconsumer/consumer.go:192-208 | Every valid message can be terminated with a receipt in a calm trail: its first commit goes unreported, the others fail |
| `ConsumerSettlement.TerminatedAfterCopy` | backend/internal/platform/eventconsumer/consumer.go:178-208 | A second copy of a consumed event can be terminated with a receipt although every transaction's outcome was reported |
| `ConsumerSettlement.StrandedIff` | backend/internal/platform/eventconsumer/consumer.go:157-274 | Over every trail without overlapping deliveries, with any failures, a message is left open after five deliveries if and only if its fifth ended in one of the named ways |
| `ConsumerSettlement.LettersBounded` | backend/internal/platform/eventconsumer/consumer.go:222-267 | Over every trail, whatever fails and however deliveries overlap, a message has at most as many dead letters as deliveries, hence at most five |
| `ConsumerSettlement.FirstDelays` | backend/internal/platform/eventconsumer/consumer.go:308-317 | A message whose transaction always fails waits exactly 1, 2, 4 and 8 seconds, in nanoseconds |
| `Consumer.Consumer.Bury` | backend/internal/platform/eventconsumer/consumer.go:222-274 | Publishes a dead letter with count, reason, event id and subject; terminates the message only after it is acknowledged, otherwise asks for redelivery in a minute |
| `Consumer.Consumer.RecordInTransaction` | backend/internal/platform/eventconsumer/consumer.go:178-192 | Adds the receipt, unless there is one, exactly if the transaction takes effect; succeeds exactly if that is reported |
| `Consumer.Consumer.Process` | backend/internal/platform/eventconsumer/consumer.go:156-220 | Without a valid envelope: no receipt changes and the message is buried as invalid; with one: acknowledged iff the commit is reported, retried after 1, 2, 4 or 8 seconds below the fifth delivery, buried otherwise; the receipt, the dead letter field by field, the broker standing and when lastError changes are given |
| `Consumer.Consumer.DeliverUntilSettled` | backend/internal/platform/eventconsumer/consumer.go:156-292 | The code itself, driven by a working broker, settles a message within five deliveries: acknowledged at the first reported commit, or terminated with one dead letter; the receipts afterwards are given exactly, and a terminated message has one iff there was one before or a commit went unreported |
| `Consumer.RecordedUnreported` | backend/internal/platform/eventconsumer/consumer.go:178-208 | Deliveries without a reported commit leave a receipt iff there was one before or one of their commits went unreported |
| `EndToEnd.SystemStepInv` | backend/internal/platform/eventconsumer/consumer.go:163-203 | Every step of outbox or consumer keeps the joint invariant and loses nothing recorded |
| `EndToEnd.Provenance` | backend/internal/platform/eventconsumer/consumer.go:163-203 | Every receipt descends from a committed, attempted row with a valid event of that id and type under the filter subject, unless another publisher sent that event id |
| `EndToEnd.ExactlyOnce` | backend/migrations/000002_outbox_and_consumers.up.sql:61-67 | Over any run a receipt never changes once written, and exactly one insertion took effect for each receipt's key |
| `EndToEnd.SettledWithRecord` | backend/internal/platform/eventconsumer/consumer.go:190-267 | Over any run an acknowledged message holds a valid envelope and has its receipt, a terminated one its dead letter, and both stay as they are |
| `EndToEnd.Projects` | backend/internal/platform/eventconsumer/consumer.go:129-154 | What the consumer does in any run of the whole system is a trail over the stream as it is at the end |
| `EndToEnd.MessageSettles` | backend/internal/platform/eventconsumer/consumer.go:156-292 | Settlement over every run of the whole system in which the consumer's steps are calm, however relays, inserts, publishers and handlers interleave |
| `EndToEnd.MessageDone` | backend/internal/platform/eventconsumer/consumer.go:156-292 | At the end of those runs a message of the consumer's subject is settled if and only if no calm step about it is possible any more |
| `EndToEnd.LettersBoundedInSystem` | backend/internal/platform/eventconsumer/consumer.go:222-267 | Over every run of the whole system, whatever fails, dead letters about a message never outnumber its deliveries |
| `EndToEnd.LettersTellInSystem` | backend/internal/platform/eventconsumer/consumer.go:222-252 | Over every run of the whole system every dead letter tells the truth about its message |
| `EndToEnd.BothIff` | backend/internal/platform/eventconsumer/consumer.go:178-208 | The exact condition for a terminated message with a receipt, over those runs |
| `EndToEnd.OpenIff` | backend/internal/platform/eventconsumer/consumer.go:156-292 | The exact condition for a message left open after five deliveries, over every run without overlapping deliveries |
| `RetryPolicy.RelayBackoff` | backend/internal/platform/outbox/relay.go:236-248 | min(Base * 2^(n-1), Max) for every attempt, with no 64-bit overflow on the way |
| `RetryPolicy.RedeliveryBackoff` | backend/internal/platform/eventconsumer/consumer.go:308-317 | The same closed form at one second and one minute for every 64-bit delivery, with min(n-1, 6) doublings |
| `RetryPolicy.CappedClosedForm` | backend/internal/platform/outbox/relay.go:236-248 | The recursive schedule is min(base * 2^(n-1), max) |
| `RetryPolicy.CappedMonotone` | backend/internal/platform/outbox/relay.go:236-248 | Delays lie between base and cap and never shrink with the attempt number |
| `Uuid.NewUuidV7` | backend/internal/platform/identifier/uuidv7.go:17-45 | The in-place byte writes and group-wise formatting produce the generated text; an error only if randomness fails |
| `Uuid.HexEncode` | backend/internal/platform/identifier/uuidv7.go:34-42 | Writes two digits per byte into its slice and nothing else |
| `Uuid.Format` | backend/internal/platform/identifier/uuidv7.go:33-44 | Five groups with dashes, digit for digit |
| `Uuid.IsUuidV7` | backend/internal/platform/identifier/uuidv7.go:48-66 | Accepts exactly 36 characters with dashes at 8, 13, 18 and 23, a 7 at 14, one of 8, 9, a, b at 19 and lowercase hexadecimal elsewhere |
| `Uuid.AcceptedIffGenerated` | backend/internal/platform/identifier/uuidv7.go:17-66 | The validator accepts exactly the image of the generator |
| `Uuid.GenerateRoundTrip` | backend/internal/platform/identifier/uuidv7.go:23-31 | The timestamp modulo 2^48 and the 74 random bits can be read back (section 5.7 of RFC 9562) |
| `Uuid.GenerateInjective` | backend/internal/platform/identifier/uuidv7.go:17-45 | Two texts are equal iff time modulo 2^48 and random bits are |
| `Uuid.TextFollowsTime` | backend/internal/platform/identifier/uuidv7.go:23-29 | Below 2^48 milliseconds texts sort by time (section 6.11 of RFC 9562) |
| `Uuid.TimestampOrder` | backend/internal/platform/identifier/uuidv7.go:23-29 | A canonical text with the smaller timestamp is the smaller text |
| `Uuid.WrappedBytes` | backend/internal/platform/identifier/uuidv7.go:23-23 | The conversion of a negative time to unsigned 64 bits keeps the six bytes that are written |
| `Uuid.TextOrder` | backend/internal/platform/identifier/uuidv7.go:33-44 | Canonical texts sort as the numbers they denote |
| `Uuid.KeyInjective` | backend/migrations/000002_outbox_and_consumers.up.sql:2-2 | Distinct identifiers are distinct keys and sort alike |
| `Uuid.CreateCorrelationId` | frontend/lib/backend-client.ts:101-122 | The client's shift loop writes the same text as the server on every time and random block |
| `Uuid.ClientPatternAgrees` | frontend/lib/backend-client.ts:3-4 | The client's pattern accepts exactly what the server's validator accepts |
| `Event.Validate` | backend/internal/platform/event/envelope.go:40-77 | No error iff the envelope is valid; otherwise the error names the first invalid of the ten fields, listed in the order of the checks |
| `Event.Subject` | backend/internal/platform/event/envelope.go:81-86 | A subject iff the envelope is valid, and it parses back to the envelope's type and version |
| `Event.SubjectRoundTrip` | backend/internal/platform/event/envelope.go:85-85 | Splitting a subject at its last dot recovers type and version |
| `Event.SubjectInjective` | backend/internal/platform/event/envelope.go:85-85 | Equal subjects iff equal type and version |
| `Event.SubjectMeetsConstraint` | backend/migrations/000002_outbox_and_consumers.up.sql:28-29 | A valid envelope's subject meets the table's format constraint |
| `Event.SubjectTokens` | backend/internal/platform/event/envelope.go:85-85 | The tokens of a subject are the prefix's, the type's and the version's, none of them empty |
| `Event.FilterSubject` | backend/internal/platform/eventconsumer/consumer.go:27-27 | A subject is the consumer's filter iff type is infrastructure.probe and version is 1 |
| `Event.EventTypeIsJoin` | backend/internal/platform/event/envelope.go:15-15 | The type predicate is the pattern: a join of two or more segments |
| `Event.SegmentPattern` | backend/internal/platform/event/envelope.go:15-16 | A segment is a lowercase letter followed by lowercase letters, digits and underscores |
| `Lifecycle.CheckComponents` | backend/internal/platform/dependency/set.go:46-67 | Accepted iff the timeout is positive, no component is missing and names are distinct and non-empty |
| `Lifecycle.Set.Start` | backend/internal/platform/dependency/set.go:70-86 | Calls the components in order, each exactly once, up to and including the first that fails; refuses a second start and then calls none |
| `Lifecycle.Set.Close` | backend/internal/platform/dependency/set.go:90-104 | Calls exactly the started components, latest first, whatever fails, and reports the failing ones |
| `Lifecycle.CloseErrorsTell` | backend/internal/platform/dependency/set.go:94-104 | The reported names are exactly those of the components that failed to close, latest first |
| `Lifecycle.Set.Readiness` | backend/internal/platform/dependency/set.go:108-147 | Ready iff all components are started and healthy; one check per component in order |
| `Lifecycle.StartsAndCloses` | backend/internal/platform/dependency/set.go:70-104 | In a disciplined trace each start is closed exactly once, except those still open |
| `Lifecycle.CallDisciplined` | backend/internal/platform/dependency/set.go:70-104 | Each call keeps the stack discipline: only the latest open component is ever closed |
| `Lifecycle.CallsDisciplined` | backend/internal/platform/dependency/set.go:70-104 | Over any sequence of calls and failures closes mirror starts, and after a Close nothing is left open |
| `Lifecycle.CloseAfterStartupFailure` | backend/internal/platform/appruntime/run.go:71-79 | Closes what was started and reports the cause first, then the close errors |
| `Lifecycle.Run` | backend/internal/platform/appruntime/run.go:23-69 | On every return path each started component was closed exactly once in reverse order; the errors are those of the failed stages in order and then the close errors; none iff every stage succeeded |

## Left out

- Driver and broker internals (connection pools, drain, stream creation, the broker's duplicate window): an abstract store and an append that may fail or be ambiguous take their place.
- Eventual delivery without assumptions: it does not hold; `StrandedIff` says which messages stay open. With overlapping deliveries (an acknowledgement wait that runs out) the invariants of `ConsumerMachine` and `LettersBounded` are stated.
- JSON, RFC 3339, SHA-256 and regular-expression engines: abstract codec; the few patterns are written out as predicates.
- backend/internal/platform/config/config.go: only its numeric ranges matter here, and the model does not need them.
- Redis, object storage, HTTP server, health endpoint, logging, request context, frontend pages and the client's request method: thin wrappers with easy properties.
- Goroutine scheduling, contexts, locks and the cancel and done fields of relay and consumer: outcomes are nondeterministic steps; the poll interval and the consumer's fetch loop are not modelled.
- Expiry of stream entries: the stream only grows.
- Statements that take effect after their call has returned an error: modelled for the settling statements only (`OutboxLate`), where stream provenance and retry spacing are not restated; a claim, an insert or a receipt takes effect during its call or not at all.
- Rounding of next_attempt_at to microseconds and overflow of the 32-bit attempt_count column: times are whole nanoseconds and counts are unbounded.
- Bit masks and shifts in the UUID code: written as the equivalent division and remainder on bytes.
- Indexes and columns that only repeat envelope fields (tenant, aggregate, correlation, causation): the stored envelope holds them.
- Consumer.Consumer.Process: no other handler acts during the call; the consumer machine covers interleaving.
- Consumer.Consumer.Bury: the payload hash and the time in a dead letter are not kept.
- Consumer.Consumer.DeliverUntilSettled: one message alone, with no other handler in between; `ConsumerSettlement.SettlementHolds` holds over all interleavings.
- Relay.Relay.Run: the number of ticks before cancellation is given; when cancellation arrives is not modelled.
- OutboxTheorems.RetriesSpaced: measured from the observation of the first failure, not from the later moment at which it is recorded.
