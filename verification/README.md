# Lead pipeline: model and proofs

This project models the path of a lead through the system, from a webhook request to an SMS delivery, as
Dafny state machines over three shared stores: the MySQL tables, the RabbitMQ queues, and the local state of
every request or message being handled. Faults are choices of the environment, so a statement about all
choice sequences is a statement about every interleaving and every failure pattern.

Where the Python and SQL code changes state step by step, a class or a loop of the same shape is proved
against a specification function, and the theorems are proved about that function: the retry loop
(`Retry.ConsumeScope`), the stored procedure (`LeadStore.Database`), the lead handler
(`LeadWorker.Consumer`), the SMS handler (`Sms.Distributor`) and the webhook handler
(`WebhookHandler.Webhooks`).

| module | contents |
|---|---|
| `Wrappers`, `Config` | optional values and counting; constants and the values that travel between components |
| `Retry` | the in-process retry loop, its recursive specification, and what that specification means |
| `Schema` | the four relational tables, their unique and foreign keys, the set of recorded events they stand for |
| `StoredProc`, `StoredRows`, `LeadStore` | `sp_insert_lead` as a transformer of the tables; the rows it writes; its statements; sequences of calls |
| `LeadWorker` | any number of interleaved `lead.received` deliveries with retries, redeliveries and dead-lettering |
| `LeadDelivery` | the step system of `LeadWorker` agrees with the retry loop around the lead handler |
| `LeadLedger` | what one attempt of the lead handler publishes, and which steps leave dead-letter records |
| `Sms` | one `dist.sms` handler call, as program points and as code with a session |
| `SmsFlow`, `SmsBounds`, `SmsExamples` | the SMS messages of an order: conservation, cost bounds, termination, runs that reach the bounds or break a promise |
| `SmsLedger` | which steps deliver, dead-letter, drop, requeue and expire SMS messages |
| `SmsDelivery` | the step system of `SmsFlow` agrees with the retry loop around the handler |
| `Receiver` | any number of interleaved webhook requests |
| `WebhookHandler`, `WebhookBatch` | one request served to its end; batches served without faults |
| `Pipeline` | receiver, lead worker and SMS consumer composed over the same tables and queues |
| `EndToEnd` | from every reachable state a new approved order can be carried through to its SMS delivery |
| `Codecs`, `Decryption` | hexadecimal, base64 (section 4 of RFC 4648), CBC (section 6.2 of NIST SP 800-38A), padding (section 6.3 of RFC 5652) and `decrypt_grummer` over an abstract 16-byte block cipher |

## Assumptions

- Generated UUIDs are fresh when they are used, and an event id is never reused for another event.
- A publish that raises enqueued nothing.
- On the SMS path a commit that raises had no effect, and a commit with nothing pending cannot raise.
- An insert on a unique key holds that key until its session commits or rolls back.
- The row count of the idempotency insert is 1 for a new row and 2 or 0 for a duplicate.
- `CALL sp_insert_lead` is one atomic step with three endings: rolled back and raised, committed and
  returned, committed with the reply lost.
- Request bodies and decrypted bodies are JSON objects.
- `b64decode(validate=True)` reads every base64 text of section 4 of RFC 4648. Nothing is assumed about what
  else it accepts, surplus padding for instance, which differs between Python releases; the strict decoder
  (`Codecs.Decode`) is one decoder of this kind.
- Results of decryption and schema validation are part of a request, because both are stateless.

## Where the code and its documentation differ

The model follows the code.

- `README.md:342` and the docstring at `apps/receiver/src/gex_receiver/db.py:97` say that the gateway is not
  part of the idempotency key. The table has it (`sql/001_create_tables.sql:51`), and so has the model.
- A publish that fails in the receiver becomes a returned 503 (`routes.py:263-269`), so the session still
  commits. The key is then used up without a message: `WebhookHandler.RowAndMessageAgreeIff` says exactly
  when for a request served alone, `Receiver.CommittedReplyDecides` for every interleaving, and
  `WebhookHandler.LostForGood` says that no later request repairs it.
- The procedure commits by itself (`sql/003_stored_procs.sql:127`), so a retry after a failed distribution
  publish finds the event not new. Distribution is at most once: `LeadWorker.PublishedAsPrefix`, and
  `LeadWorker.AckedWithNothingPublished` for a message that is acknowledged with nothing published.
- A `failed` status is final in every run exactly when there are no backoffs or the retry limit is at least
  twice their number: `SmsExamples.FailedIsFinalIff`. With the configured 3 backoffs and limit 3 it is not:
  `SmsExamples.FailedThenDelivered`.
- If an SMS row were missing, the attempts read back would be 1 for ever (`main.py:212`):
  `SmsExamples.MissingRowNeverEnds`, and `SmsExamples.MissingRowNeverEndsIff` for exactly which settings. `Pipeline.SmsRowAlwaysThere` shows that no reachable state gets there.
- `retry_backoffs_ms[attempts - 1]` is in range in every run exactly when the retry limit is at most the
  number of backoffs: `SmsExamples.LookupInRangeIff`.
- The number of accepted requests of a batch survives reordering exactly when requests with the same key
  agree on approval: `WebhookBatch.AcceptedStableIff`. Keys, duplicates and failures always survive it.

## Model

| member | source | states |
|---|---|---|
| Retry.ConsumeScope | apps/worker/src/gex_worker/middleware.py:47-64 | The loop computes the recursive specification and never reaches its trailing `return None` |
| Retry.ConsumeMeaning | apps/worker/src/gex_worker/middleware.py:47-64 | The handler is called until the first success, the first `_no_retry` failure or the call after the last backoff, and no further; the sleeps are exactly the matching prefix of the list; the last outcome and state are handed on |
| Schema.UpdateSmsKeeps | apps/worker/src/gex_worker/main.py:189-201 | An SMS row update keeps every table invariant, changes exactly the row of its order if there is one, and no other order's row |
| StoredProc.UpsertLeadKeeps | sql/003_stored_procs.sql:64-76 | After the upsert exactly one lead has the email, the lookup returns it with the new contact fields, and every other lead is as it was |
| StoredProc.UpsertOrderKeeps | sql/003_stored_procs.sql:78-101 | After the upsert exactly one order has the gateway and transaction id and the lookup returns it; an existing order keeps its id, lead, time and event, a new one has the caller's; other orders are as they were |
| StoredProc.InsertEventKeeps | sql/003_stored_procs.sql:109-115 | The event insert keeps (order, event) unique and adds exactly one pair |
| StoredProc.InsertStatusRowsKeeps | sql/003_stored_procs.sql:117-122 | For an order with all of its status rows or none, the multi-row `INSERT IGNORE` leaves one row a channel and preserves every row that was there |
| StoredProc.CallMeaning | sql/003_stored_procs.sql:52-134 | The procedure refines insertion into the set of (gateway, transaction id, event): it adds exactly its key, `is_new` holds exactly when the key was absent, an error leaves the tables unchanged, all keys stay unique, foreign keys resolve, every order has an event and four status rows, and no order changes its lead |
| StoredRows.CallWrites | sql/003_stored_procs.sql:62-133 | For new and repeated events alike, the four tables after a call as explicit updates: the lead under the email (or the fresh one) has exactly the message's contact fields, a known order has its sale replaced and a new one is the message's in full, a new event and a new order's four pending status rows are added, nothing else changes; the call errs exactly when the event id is taken by another event |
| LeadStore.Database.InsertLead | sql/003_stored_procs.sql:64-72 | The statement performs the upsert of the specification |
| LeadStore.Database.InsertOrder | sql/003_stored_procs.sql:79-97 | The statement performs the upsert of the specification |
| LeadStore.Database.SelectLeadId | sql/003_stored_procs.sql:76 | The parameter is reassigned to the id under the email, or keeps its value |
| LeadStore.Database.SelectOrderId | sql/003_stored_procs.sql:101 | The parameter is reassigned to the id under gateway and transaction id, or keeps its value |
| LeadStore.Database.CountEvents | sql/003_stored_procs.sql:103-106 | The count is zero exactly when the order does not have the event |
| LeadStore.Database.Statements | sql/003_stored_procs.sql:62-125 | The statement sequence computes the specification, unless MySQL raises at one of them |
| LeadStore.Database.SpInsertLead | sql/003_stored_procs.sql:52-134 | The procedure keeps all table invariants; an error at any statement leaves every table as it was, anything else is the specification's result, and a returned row says which rows of the four tables were written |
| LeadStore.RunMeaning | sql/003_stored_procs.sql:62-133 | From the empty database, any sequence of calls with any endings records exactly the keys of the calls that were not rolled back, and every invariant holds |
| LeadStore.LastCallDecides | sql/003_stored_procs.sql:64-97 | Over any sequence of calls with any endings, a lead has the contact fields of the last committed call with its email and an order the sale of the last committed call with its key, and every such email and key has its row |
| LeadStore.OrderAndRepetitionIrrelevant | sql/003_stored_procs.sql:103-125 | Two call sequences that commit the same keys, in whatever order and multiplicity, leave the same recorded set |
| LeadWorker.StepKeeps | apps/worker/src/gex_worker/consumers.py:93-124 | Every step of every delivery keeps the tables sound, one publisher for each (order, event), the published channels equal to the publisher's progress, persistence of what got past the call, and one dead-letter record for each dead-lettered delivery |
| LeadWorker.PublishedAsPrefix | apps/worker/src/gex_worker/consumers.py:103-124 | Over every run with retries, redeliveries and faults, the channels published for an (order, event) are a prefix of SMS, EMAIL, CALL_CENTER, WHATSAPP, each at most once; with no publisher at work they are all four exactly when none raised |
| LeadWorker.NoConsumedLeadVanishes | apps/worker/src/gex_worker/main.py:83-88 | An acknowledged delivery has its order, event and four status rows committed; a dead-lettered one has exactly one `lead.dead.consumer_failed` record, any other none |
| LeadLedger.AttemptMeaning | apps/worker/src/gex_worker/consumers.py:93-124 | For every fault pattern, which of the four messages one attempt publishes, in the order SMS, EMAIL, CALL_CENTER, WHATSAPP up to the first publish that raises, and whether it returns |
| LeadLedger.LiveCanMove | apps/worker/src/gex_worker/middleware.py:47-64 | In every reachable state a delivery that is not over can move, whatever the environment answers |
| LeadLedger.GivenUpStep | apps/worker/src/gex_worker/exception_handlers.py:84-106 | The dead-letter publish of a delivery given up enqueues one record of it and ends it dead-lettered, or raises, enqueues none and ends it dropped |
| LeadLedger.RecordsArePublishes | apps/worker/src/gex_worker/exception_handlers.py:84-106 | Over every run the records of a delivery number its dead-letter publishes that went through, which are what ends it dead-lettered; those that raised are what ends it dropped |
| LeadWorker.DeadLetterKeeps | apps/worker/src/gex_worker/exception_handlers.py:55-106 | The dead-letter publish of a delivery given up, enqueued or raised, keeps the invariant, in particular one record for each dead-lettered delivery |
| LeadWorker.RepeatPublishesNothing | sql/003_stored_procs.sql:103-125 | A call for an event that is stored publishes nothing and stores nothing new |
| LeadWorker.AckedWithNothingPublished | apps/worker/src/gex_worker/consumers.py:93-104 | For every new event some run stores it, acknowledges the message and publishes nothing, so distribution is not exactly once |
| LeadWorker.DeliveriesEnd | apps/worker/src/gex_worker/middleware.py:47-64 | In every run a delivery makes at most 6 * (backoffs + 1) + 1 steps, whatever fails and whatever the other deliveries do |
| LeadWorker.Consumer.HandleLead | apps/worker/src/gex_worker/main.py:83-88 | The handler, with its call and publish loop, does to tables and queues what the handler steps do run to their end |
| LeadDelivery.AttemptRuns | apps/worker/src/gex_worker/main.py:83-88 | One handler attempt of a lead delivery is a run of the step system with the same tables, queues and ending |
| LeadDelivery.DeliveryIsRetriedHandler | apps/worker/src/gex_worker/middleware.py:47-64 | An uninterrupted lead delivery leaves the tables and queues that the retry loop around the handler leaves, and is acknowledged exactly when the loop returns |
| Sms.CallEnds | apps/worker/src/gex_worker/distributors.py:44-101 | A call delivers exactly for a committed 2xx answer and rejects for good, leaving the row failed with attempts 1, exactly for a committed 4xx other than 408 and 429; any other response, the simulated failure and an unreachable provider cost one attempt; a crash leaves the row alone |
| Sms.RetryDecision | apps/worker/src/gex_worker/main.py:116-173 | After the n-th counted attempt: above the limit the row is failed and the message dead-lettered, otherwise it comes back after backoff number n if there is one, and the row says so |
| Sms.Distributor.Commit | apps/worker/src/gex_worker/db.py:57-63 | A commit publishes the session's rows or raises and changes nothing |
| Sms.Distributor.MarkFailed | apps/worker/src/gex_worker/distributors.py:86-101 | The row is failed with attempts 1 and committed, or nothing is committed and it raises |
| Sms.Distributor.ProcessSms | apps/worker/src/gex_worker/distributors.py:31-83 | Which exception each answer of the provider leads to, and what the row is then |
| Sms.Distributor.IncrementAttempts | apps/worker/src/gex_worker/main.py:184-212 | The increment is committed before the row is read back, also when the read then raises; without a row the answer is 1 |
| Sms.Distributor.ScheduleRetryOrDlq | apps/worker/src/gex_worker/main.py:110-181 | The requeue or dead-letter decision agrees with the step system, queue contents included |
| Sms.Distributor.HandleSms | apps/worker/src/gex_worker/main.py:99-107 | A handler call changes its own row, the two queues and its outcome as the step system says, and no other row |
| SmsFlow.StepConserves | apps/worker/src/gex_worker/main.py:110-181 | No step makes or loses an SMS message, for any number of messages of an order |
| SmsFlow.RunConserves | apps/worker/src/gex_worker/main.py:99-181 | Over every run the messages, wherever they are, grow by exactly the number published by `process_lead` |
| SmsLedger.StepBooks | apps/worker/src/gex_worker/exception_handlers.py:84-106 | Every step moves exactly the counters of its kind: delivered by a committed 2xx post, dead-lettered by a dead-letter publish that went through, dropped by the middleware's that raised, requeued by a republish |
| SmsLedger.RunBooks | apps/worker/src/gex_worker/main.py:99-181 | Over every run, for any number of messages, each counter is the number of steps of its kind |
| SmsFlow.StepKeeps | apps/worker/src/gex_worker/main.py:99-181 | Every step keeps the single-message invariant that ties place, row status, attempts, calls and sleep together |
| SmsBounds.CostIsBounded | apps/worker/src/gex_worker/main.py:110-212 | For every setting and failure pattern: at most (D+1)*(B+1) calls, (D+1)*sum(backoffs) ms of sleep and attempts at most D+B+1, with D the retry limit clipped to 0..B |
| SmsBounds.ConfiguredCost | libs/common/src/gex_common/config.py:65 | With the configured values: 16 calls, 84000 ms, attempts at most 7 |
| SmsBounds.OneEnding | apps/worker/src/gex_worker/main.py:99-181 | At every step the message is in exactly one place; the row says delivered exactly when the message ended so; delivery and dead-letter record never coexist; a republished message has between 1 and the retry limit attempts |
| SmsBounds.RankFalls | apps/worker/src/gex_worker/main.py:110-181 | Every step lowers a rank that is never negative |
| SmsBounds.NeverStuck | apps/worker/src/gex_worker/main.py:99-107 | A message that has not ended can always move |
| SmsBounds.EveryRunEnds | apps/worker/src/gex_worker/main.py:99-212 | Every run has at most (D+1)*(5*(B+1)+3) steps, and until the message has ended it can move |
| SmsExamples.BoundsAreReached | apps/worker/src/gex_worker/main.py:110-212 | The three bounds are exact: for every setting one failure pattern reaches all of them |
| SmsExamples.EveryEndingReached | apps/worker/src/gex_worker/main.py:99-181 | Delivered, dead-lettered and dropped are reached by some run for every setting, expired whenever a message can come back |
| SmsExamples.LookupInRangeIff | apps/worker/src/gex_worker/main.py:147 | The backoff lookup is in range in every reachable state exactly when the retry limit is at most the number of backoffs |
| SmsExamples.LookupPastEnd | apps/worker/src/gex_worker/main.py:147 | A concrete run reaches the lookup past the end when the limit is larger |
| SmsExamples.MissingRowNeverEnds | apps/worker/src/gex_worker/main.py:212 | Without a row, when the limit allows a retry and there is a backoff, some run takes one message from the queue any number of times; MissingRowNeverEndsIff has the other settings |
| SmsExamples.MissingRowNeverEndsIff | apps/worker/src/gex_worker/main.py:116-147 | Without a row a message can come back any number of times exactly when the limit is at least 1 and there is a backoff; otherwise every run takes it once and never requeues it |
| SmsExamples.FailedThenDelivered | apps/worker/src/gex_worker/main.py:118-138 | With backoffs and a limit below twice their number, a run takes a row from failed to delivered within one delivery, after the dead-letter publish raises |
| SmsExamples.FailedStays | apps/worker/src/gex_worker/distributors.py:67-99 | With no backoffs or a limit of at least twice their number, a failed row stays failed in every continuation |
| SmsExamples.FailedIsFinalIff | apps/worker/src/gex_worker/main.py:118-138 | A failed status is final in every run exactly when there are no backoffs or the limit is at least twice their number |
| SmsDelivery.AttemptRuns | apps/worker/src/gex_worker/main.py:99-107 | A whole handler call is a run of the step system with the same row and ending |
| SmsDelivery.DeliveryIsRetriedHandler | apps/worker/src/gex_worker/middleware.py:47-64 | An uninterrupted delivery calls, sleeps and ends exactly as the retry loop around the handler does |
| Receiver.StepKeeps | apps/receiver/src/gex_receiver/routes.py:122-269 | Every step of every request keeps one holder for each key, the absence of a key someone holds as new, the publish ledger, and only approved orders on `lead.received` |
| Receiver.IdempotencyStep | apps/receiver/src/gex_receiver/routes.py:184-214 | Whatever other requests do, the answer is new exactly when the key is not stored, and a new event goes on to acceptance exactly when it is "order.approved" with an approved payment |
| Receiver.OneNewPerKey | apps/receiver/src/gex_receiver/db.py:100-123 | For every interleaving at most one open request holds a key, and committed requests with a "new" answer for it number one exactly when the key is committed |
| Receiver.PublishLedger | apps/receiver/src/gex_receiver/routes.py:185-269 | The `lead.received` messages of a key are one if its committed new request published, plus the publishers rolled back, plus the one still open |
| Receiver.MessagesAreAcceptedReplies | apps/receiver/src/gex_receiver/routes.py:211-269 | For every interleaving the `lead.received` messages of a key number exactly the new approved requests answered 200 |
| Receiver.CommittedReplyDecides | apps/receiver/src/gex_receiver/routes.py:263-269 | For every interleaving a committed new approved request published exactly when its reply is 200, and the messages of its key are that one plus the publishers rolled back |
| Receiver.CommittedKeyIsFrozen | apps/receiver/src/gex_receiver/dependencies.py:14-23 | Once a key is committed no continuation of the run adds a message for it |
| Receiver.MessageHasPublisher | apps/receiver/src/gex_receiver/routes.py:226-238 | Behind every message stands a request that published it |
| WebhookHandler.ServeRuns | apps/receiver/src/gex_receiver/routes.py:89-269 | A request served alone is a run of the concurrent system |
| WebhookHandler.ServeRejected | apps/receiver/src/gex_receiver/routes.py:100-117 | Exactly a gateway other than "grummer" and "lous" ends in 422, a body that is not JSON in 400, and nothing is touched |
| WebhookHandler.ServeFailed | apps/receiver/src/gex_receiver/routes.py:32-75 | For every fault pattern, what an encrypted "grummer" body that cannot be decrypted, or a body that does not validate, leaves in tables and dead-letter queues, and its reply |
| WebhookHandler.ServeValid | apps/receiver/src/gex_receiver/routes.py:184-269 | For every fault pattern, the key, raw row, message and reply of a valid payload: a new event is accepted exactly when it is "order.approved" with an approved payment, and discarded otherwise |
| WebhookHandler.FaultFreeOutcome | apps/receiver/src/gex_receiver/routes.py:100-259 | Without faults every request has one of seven outcomes, told apart by its fields and whether its key is stored |
| WebhookHandler.RowAndMessageAgreeIff | apps/receiver/src/gex_receiver/routes.py:263-269 | For a request served without interleaving (Receiver.CommittedReplyDecides has the rest), in terms of its faults: key and message of a new approved event agree exactly when, after the idempotency insert, the commit goes through just if raw insert and publish do |
| WebhookHandler.LostForGood | apps/receiver/src/gex_receiver/dependencies.py:17-23 | A new approved event committed with a failed raw insert or publish never gets a message, whatever requests follow |
| WebhookHandler.Webhooks.CheckIdempotency | apps/receiver/src/gex_receiver/db.py:87-123 | The answer is new exactly when the key was absent, and the key is present afterwards |
| WebhookHandler.Webhooks.InsertRawPayload | apps/receiver/src/gex_receiver/db.py:48-84 | One raw row is added, or it raises and none is |
| WebhookHandler.Webhooks.FailAndReturn | apps/receiver/src/gex_receiver/routes.py:32-75 | The raw row precedes the dead-letter publish, which goes to the queue of its status |
| WebhookHandler.Webhooks.RouteValid | apps/receiver/src/gex_receiver/routes.py:184-259 | Status, raw row, key and message of a validated payload in the session |
| WebhookHandler.Webhooks.Request | apps/receiver/src/gex_receiver/routes.py:89-269 | The handler under its session leaves tables, queues and reply as the specification says, for every input and fault pattern |
| WebhookBatch.BatchBalances | apps/receiver/src/gex_receiver/routes.py:47-259 | In a fault-free batch every request adds one raw row in one of five statuses, the queues match their statuses, the committed keys are the distinct keys of valid requests and number accepted plus discarded, the duplicates are the rest |
| WebhookBatch.OrderOfBatchIrrelevant | apps/receiver/src/gex_receiver/routes.py:184-259 | Keys, duplicates, both failure counts and the total survive every permutation of the batch |
| WebhookBatch.AcceptedWhenAgreed | apps/receiver/src/gex_receiver/routes.py:210-259 | When requests with one key agree on approval, the accepted ones are one for each approved key |
| WebhookBatch.FirstDecides | apps/receiver/src/gex_receiver/routes.py:193-214 | Of two requests with one key that disagree, the first decides |
| WebhookBatch.AcceptedStableIff | apps/receiver/src/gex_receiver/routes.py:210-259 | The accepted count survives every permutation exactly when no two requests share a key and disagree on approval |
| Pipeline.StepKeeps | apps/worker/src/gex_worker/consumers.py:93-124 | Every step of the composed system keeps the receiver's, worker's and SMS invariants together with provenance of what is stored |
| Pipeline.CountsAndProvenance | apps/receiver/src/gex_receiver/routes.py:211-238 | In every reachable database events equal orders, status rows are four times the orders, and every order is approved and from a valid gateway |
| Pipeline.StoredWasPublished | apps/receiver/src/gex_receiver/routes.py:226-238 | Behind every recorded event stands a request with its key that published |
| Pipeline.SmsRowAlwaysThere | apps/worker/src/gex_worker/main.py:204-212 | Every SMS message, wherever it is, names a stored order with a committed SMS row; an order has one such message, and its row says delivered exactly when that message was |
| Pipeline.SmsCostInPipeline | apps/worker/src/gex_worker/main.py:110-212 | The bounds on calls, sleep and attempts hold for every order in every run of the whole pipeline |
| Pipeline.LookupAlwaysInRange | apps/worker/src/gex_worker/main.py:147 | With a limit of at most the number of backoffs, no lookup of any run of the pipeline is out of range |
| Pipeline.SendsBounded | apps/worker/src/gex_worker/main.py:99-181 | In any continuation of a reachable state the SMS steps of an order use up what is left of its rank, whatever else happens in between |
| Pipeline.SmsEndsInPipeline | apps/worker/src/gex_worker/main.py:99-212 | In any run of the pipeline an order's SMS message makes at most (D+1)*(5*(B+1)+3) steps, and until it has ended it can move |
| EndToEnd.EveryOrderCanArrive | apps/worker/src/gex_worker/main.py:83-107 | From every reachable state some run takes a new approved order from its request, answered 200, through its stored event and four messages to an SMS row that says delivered |
| Codecs.HexRoundTrip | libs/common/src/gex_common/crypto.py:22 | Reading the hexadecimal form of bytes returns them |
| Codecs.HexDigits | libs/common/src/gex_common/crypto.py:22 | A character is a digit of value n exactly when it is the n-th of 0 to 9, a to f, in either case |
| Codecs.FirstByte | libs/common/src/gex_common/crypto.py:22 | Two digits at the front are one byte, the first counting sixteen times |
| Codecs.NotAByte | libs/common/src/gex_common/crypto.py:22-24 | White space in front of a byte is skipped; anything else that is not two digits is refused |
| Codecs.HexIgnoresCase | libs/common/src/gex_common/crypto.py:22 | An upper-case key reads as its lower-case form |
| Codecs.Base64Digits | libs/common/src/gex_common/crypto.py:26-27 | The 64 digits by ASCII code |
| Codecs.GroupIsNumber | libs/common/src/gex_common/crypto.py:26-27 | Four digits and the three bytes they decode to are the same 24-bit number |
| Codecs.Base64RoundTrip | libs/common/src/gex_common/crypto.py:26-27 | Strict decoding of the base64 form of bytes returns them |
| Decryption.XorBitsAt | libs/common/src/gex_common/crypto.py:44-46 | Exclusive or, bit by bit: a bit of the result differs from the first operand's exactly where the second has it set |
| Decryption.CbcDecryptAt | libs/common/src/gex_common/crypto.py:44-46 | The chaining law: a decrypted byte differs from the block cipher's output for its block exactly in the bits of the ciphertext byte 16 places before it, or of the vector in the first block |
| Decryption.PaddingIs | libs/common/src/gex_common/crypto.py:47-48 | Padding appends n bytes of value n, the one n from 1 to 16 that completes a block |
| Decryption.UnpadsIff | libs/common/src/gex_common/crypto.py:47-48 | Unpadding takes off exactly an end of n bytes of value n, n from 1 to 16 |
| Decryption.GuardsDecide | libs/common/src/gex_common/crypto.py:21-43 | Which inputs end with which error before anything is decrypted, with the key lengths 16, 24 and 32 and the block length 16 |
| Decryption.DecryptEncrypt | libs/common/src/gex_common/crypto.py:44-46 | CBC decryption undoes CBC encryption |
| Decryption.EncryptDecrypt | libs/common/src/gex_common/crypto.py:44-46 | CBC encryption undoes CBC decryption |
| Decryption.UnpadPad | libs/common/src/gex_common/crypto.py:47-48 | Unpadding undoes padding |
| Decryption.PadUnpad | libs/common/src/gex_common/crypto.py:47-48 | Whatever unpads is the padding of its result |
| Decryption.StrictDecoderReads | libs/common/src/gex_common/crypto.py:26-27 | The strict decoder meets what is assumed of `b64decode(validate=True)` |
| Decryption.DecryptionUndoesEncryption | libs/common/src/gex_common/crypto.py:19-49 | Every text, the empty one included, under every key of a valid length and every 16-byte vector, passes all guards and comes back, for every base64 decoder that reads what was encoded |
| Decryption.DecryptsExactlyEncryptions | libs/common/src/gex_common/crypto.py:19-53 | For every base64 decoder, a text is returned exactly for inputs that decode to an encryption of that text; everything else is an error |

## Left out

- FastAPI, FastStream, aio-pika, httpx and SQLAlchemy: only their outcomes are modelled (returned, raised, status code, enqueued or not); which reply a client sees when the commit after it fails is not part of the model.
- MySQL internals: isolation levels, deadlocks, collation, column widths and driver flags; keys compare by equality and the procedure is one step.
- Columns that only record: timestamps, lags, correlation ids, headers, bodies and error texts. The idempotency insert's update of the stored correlation id is among them.
- Validation rules (`validation.py`, `models.py`): field checks and e-mail and phone parsing would only add one-branch facts.
- AES itself and the UTF-8 decoder: an arbitrary keyed permutation of blocks and a partial function from bytes to text.
- Real time: the expiration of a republished `dist.sms` message is a step that may or may not happen; backoffs are integers that are added up.
- Broker redelivery of `dist.sms` after a consumer crash; redelivery of `lead.received` is modelled.
- Non-object JSON bodies, which `DLQMessage` rejects.
- Consumption of the e-mail, call center and WhatsApp queues (placeholders in the code) and the `lead_dead_letter` table.
- `DlqMiddleware` without a message, a broker or a route: the queues modelled have all three.
- Connection life cycle, logging, health endpoints, topology, containers, scripts and audit queries.
- Aliasing and in-place update of the receiver's and worker's tables across processes: the concurrent machines (`Receiver`, `LeadWorker`, `SmsFlow`, `Pipeline`) are on values; the classes show that one uninterrupted handler call agrees with their steps.
