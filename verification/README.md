# Reliable delivery in Gossip Monger

A Dafny model of how Gossip Monger moves e-mails and push notifications from its
queues to Resend and OneSignal, and proofs of what ADR 0006 promises about it:
nothing is lost, retries are counted, delayed and bounded, redelivery does not
send twice unless a step after the send fails, outages are survived, and the audit
tables tell what happened.

`dafny verify dfyconfig.toml` checks the whole project.

## What is modelled

The relay is one transition system with a clock (`relay.dfy`). A state holds the
broker's queues, and for each channel the committed tables, the circuit breaker
and the trace of all attempts so far. A step is a tick of the clock, a publish, a
delivery, one run of a handler with the settling of its message, an expiry at the
head of the retry queue, or a crash at any point. Every fallible statement takes
its outcome from an environment record: it works, it fails, or the process dies
there. A commit, an upsert outside a transaction, a publish to the parked queue
and a call to Resend can also take effect and still report an error. Main results
speak about every run, that is, about every sequence of steps and outcomes.

| file | content |
|---|---|
| `common.dfy` | time, outcomes, optional values |
| `routing.dfy` | topic and direct matching (sections 3.1.3.3 and 3.1.3.1 of AMQP 0-9-1) and the bindings |
| `logs.dfy` | reading a log: what its entries yield and how many are of a kind |
| `deaths.dfy` | the x-death header: how the broker writes it, how the consumer reads it |
| `broker.dfy`, `broker_invariant.dfy` | queues, settling, conservation, timing, routing, retry budget |
| `breaker.dfy`, `breaker_history.dfy`, `outage_cost.dfy` | the circuit breaker, where it stands in words of the calls made, and how many calls an outage costs |
| `email_request.dfy`, `email_tables.dfy`, `email_service.dfy` | conversion, tables and constraints, the transaction around the Resend call |
| `email_audit.dfy` | tables against the trace of all e-mail attempts |
| `push_service.dfy`, `push_audit.dfy` | the same for push notifications |
| `relay.dfy` | the whole system and its inductive invariant |
| `providers.dfy` | both breakers of the system under one name, and the calls each provider has had |
| `reliability.dfy`, `provenance.dfy`, `outage.dfy`, `tightness.dfy`, `call_bound.dfy`, `drain.dfy` | theorems over runs |
| `turns.dfy` | which message each turn of the consumer's loop settles, and where it goes |
| `consumer.dfy` | topology declaration, the consumer loop and the handlers as objects that change state |

The parts that change state in the program (breaker, queries, transaction,
services, consumer loop, topology declaration) are classes with methods. Each
method is proved equal to a function on values, and the theorems are proved about
those functions; `Consumers.ConsumeOneEmail` and `Consumers.ConsumeOnePush` show
that one turn of the objects is one step of the transition system.

## Where code and documentation differ

- The queues are bound under `gossip.emails.*` and `gossip.push.*`, but only the two
  `send` keys are declared for retries (`Consumers.MoreIsBoundThanDeclared`). A message
  under another matching key is lost when its handler fails, unless its retries are
  used up and parking works (`Consumers.SettlingLosesExactly`).
- An acknowledgement says that the request id was dispatched, not the message. Two
  messages with one request id and different contents, for instance two events
  that both leave it out, are both acknowledged and only the first is sent
  (`Provenance.AcknowledgedButNeverSent`). With unique request ids every
  acknowledged message was itself sent (`Provenance.AcknowledgedWasSent`).
- Under the same conditions a dispatched e-mail row can hold other content than was
  sent: it keeps that of the first attempt for its request id
  (`EmailAudit.PayloadOfAnotherEmail`; not so with unique request ids,
  `Provenance.PayloadsRepresentTheirRow`).
- A OneSignal answer whose `id` is the empty string counts as a success: the row says
  "sent" and has no OneSignal id (`PushAudit.EmptyIdIsSent`,
  `PushAudit.SentRowHasIdExactly`).
- The e-mail guide says that a message with neither a template nor a body is
  rejected. The check asks whether a body field is present, so an e-mail whose only
  body is the empty string is sent with nothing in it
  (`EmailRequest.EmptyBodyConverts`, `EmailRequest.ContentExactlyIfGiven`).
- ADR 0006 says that every outcome is persisted. The body of OneSignal's answer goes
  into a JSONB column as it came, so an answer that is empty or not JSON leaves no
  row although the call was made (`PushAudit.UnstorableAnswerLeavesNoRow`,
  `PushAudit.RecordedExactlyIfStorable`).
- The e-mail guide promises that a request is never dispatched a second time. The
  number of real sends is one per dispatched row plus one per attempt whose success
  the tables do not show (`EmailAudit.DuplicateSendAccounting`);
  `EmailAudit.LostCommitIsSentTwice` is a run with two sends.
- The conversion accepts an e-mail with only cc or bcc recipients, but
  `to_addresses` is NOT NULL. An e-mail without that field never reaches
  Resend (`EmailAudit.ReachesResendExactlyWithTo`).
- `startConsumers` only logs a failed topology declaration. The no-loss theorem
  therefore speaks of the keys that were declared, and of the parked queue only
  when it was declared.
- `buttons` is validated but not stored with a notification.

## Model

| member | source | states |
|---|---|---|
| Reliability.NothingIsLostAndNoSuccessIsFalse | internal/broker/consumer.go:172-201 | In every reachable state each message published under a declared key is, with its key and body, in exactly one place: live, acknowledged or parked; the row of an acknowledged one's request says dispatched or sent; and once declared the parked queue holds exactly one copy of each parked message and one for each published message that left a copy there when its park reported an error or a crash came before its acknowledgement. |
| Reliability.ApplicationMessagesAreKept | internal/app/app.go:195-200 | With the application's topology the declared keys are exactly its two, and every message published under one of them is in its own channel's queue, waiting for a retry, acknowledged or parked, exactly once. |
| Provenance.AcknowledgedWasSentOrRivaled | internal/service/email_service.go:73-90 | In every reachable state the content of an acknowledged message was itself accepted by its provider and recorded as sent, for a push with an answer that could be read, or that of another published message with the same request id and other content was. |
| Provenance.AcknowledgedWasSent | docs/email_integration_guide.md:75-75 | If no request id is used for two contents, the content of every acknowledged message was accepted and recorded as sent, for a push with an answer that could be read. |
| Provenance.AcknowledgedButNeverSent | internal/service/email_service.go:82-87 | A run in which two e-mails with one request id are both acknowledged and the second one's content was never accepted. |
| Provenance.PayloadsRepresentTheirRow | internal/service/email_service.go:151-155 | In every reachable state, if no request id is used for two contents, the payload of every dispatch row represents the e-mail in its request's row. |
| EmailAudit.PayloadOfAnotherEmail | internal/repository/emails.sql.go:255-257 | When the first e-mail with a request id is refused and a second one with another subject is accepted, the dispatched row keeps the first and the sent payload represents only the second. |
| Provenance.SourcedAlong | internal/broker/consumers/email_consumer.go:45-68 | In every reachable state every attempt in either log carries the request id and content of a published message of its channel. |
| EmailAudit.SecondContentIsSentExactly | internal/service/email_service.go:78-90 | Of two e-mails sent one after the other both are reported as sent, and the second one's content was accepted if and only if it has a request id of its own or the first one's content. |
| PushAudit.SecondContentIsSentExactly | internal/service/push_notification_service.go:71-83 | The same for two notifications. |
| Reliability.LostExactly | internal/broker/topology.go:27-30 | In every reachable state a message that no queue is bound for is lost, one under a declared key is not, and whatever is lost has no declared key. |
| Reliability.PublishedStays | internal/broker/consumer.go:160-204 | What was published stays on the books for the rest of the run, so the no-loss statement follows a message for ever. |
| Reliability.RealSendsAreAccountedFor | docs/email_integration_guide.md:30-30 | In every reachable state the real sends of a request id are the one its row records plus the attempts whose success went unrecorded, for both providers; without such an attempt there is at most one, however often the message is redelivered or republished. |
| Reliability.DeliveredOnceDrained | docs/adrs/0006-add-circuit-breaker-and-dead-letter-retry-for-third-party-notification-providers.md:33-33 | When the queues are empty, a message under a declared key whose provider recovered in time is acknowledged and the row of its request says dispatched or sent; its own content was accepted and recorded if request ids are unique. |
| Reliability.FinalStaysFinal | internal/repository/emails.sql.go:255-257 | Along every run e-mail rows keep the content of their first commit, and dispatched and sent rows never change. |
| Reliability.AuditLogRefinesAttempts | internal/service/email_service.go:140-203 | In every reachable state the dispatch rows of a request tell its committed attempts in order, with status ("circuit_open" exactly for a refusal by the breaker), HTTP code, Resend id and payload; only the last can be "sent", and the request status is circuit_open if and only if the latest committed attempt was refused by the breaker, failed if and only if it called Resend without an acceptance, dispatched if and only if Resend accepted it; the row holds the service and content of the first of them. |
| Reliability.NotificationRowIsItsLatestWrite | internal/repository/notifications.sql.go:955-1010 | In every reachable state a notification row is what the latest attempt stored, nothing was stored after "sent", and a sent row stands for a real call. |
| Reliability.EveryPushAttemptIsToldTruly | internal/service/push_notification_service.go:122-134 | In every run each OneSignal call carried a complete notification (somebody to reach, an English heading, contents, readable JSON, a TTL of 1 s to 30 days, a send_after not passed); each stored row fits its JSONB columns, keeps the content, and says "sent" if and only if the answer had status 200 and was an object with a string as its id, and "circuit_open" if and only if the breaker refused; for an event without an id a "sent" row has one if and only if the answer's is not empty. |
| Reliability.ReadableAnswerSucceeds | internal/service/push_notification_service.go:173-199 | In every reachable state a complete, unsent notification on an admitting breaker and a working database is sent and acknowledged when the answer has status 200 and is an object with a string as its id. |
| Reliability.HandledExactly | internal/broker/consumers/push_notification_consumer.go:49-85 | In every run, for both channels, a handled message adds one attempt with its own request id and content if and only if it decodes, its service id begins with io.opencrafts. and its type is push.send (email.send for e-mail); otherwise nothing changes; it is acknowledged if and only if its handler succeeds. |
| Reliability.PrefetchIsRespected | internal/broker/consumer.go:126-130 | In every reachable state a consumer holds at most its prefetch count of deliveries. |
| Reliability.EveryResendCallIsSendable | internal/service/email_service.go:126-133 | Every request that ever reached Resend has an allowed sender, a recipient, a non-blank subject, the event's attachments, and the event's template or its body fields, of which the event has exactly one kind; it has something to read if and only if the event had a template or a body that is not empty. |
| Reliability.RegistryHolds | internal/service/email_service.go:92-97 | Over all runs every service is a seed or named by its id, so UNIQUE(name) never refuses an auto-registration, and every request refers to a registered service. |
| Reliability.OnlyOwnCallsMoveABreaker | internal/service/email_service.go:131-133 | A step without a call to its own provider and without a new process leaves a breaker as it is, so invalid, duplicate or refused messages and the other channel do not move it. |
| Providers.BreakerIsItsCalls | internal/resilience/breaker.go:35-42 | In every reachable state a breaker is what the calls to its provider by the present process made of it, all of which it admitted, and no call began before the previous one had ended. |
| Providers.BreakerStandsByItsCalls | internal/resilience/breaker.go:20-42 | In every reachable state a breaker is open, half-open or closed as the calls of the present process alone say, and refuses a call if and only if the latest of them opened it no longer than the open timeout ago. |
| BreakerHistory.OpeningsAreEarned | internal/resilience/breaker.go:21-29 | A call opens the breaker if and only if it failed as one of the half-open trials, all earlier ones since the opening before being good, or ends max(1, ConsecutiveFailures) failures in a row, none of them a trial. |
| BreakerHistory.GoodTrialsClose | internal/resilience/breaker.go:27-29 | After an opening max(1, HalfOpenMaxRequests) good calls in a row close the breaker with no failures counted. |
| BreakerHistory.TrialsAreLimited | internal/resilience/breaker.go:27-29 | A half-open breaker admits at most max(1, HalfOpenMaxRequests) calls and counts each, also when they overlap. |
| BreakerHistory.ReplayIsStanding | internal/resilience/breaker.go:35-42 | For every sequence of admitted calls the engine ends where the calls say, with the open time of 60 s for a non-positive timeout. |
| Providers.StepMovesBreaker | internal/service/push_notification_service.go:98-102 | What any step does to a breaker and to the calls its provider has had, a crash in mid-attempt included. |
| Providers.CallsOnlyGrow | internal/service/email_service.go:131-133 | Along every run the record of calls only grows. |
| Reliability.PassedIsNeverSentLater | internal/service/push_notification_service.go:470-477 | Once some attempt found a send_after in the past, handling a message with that send_after never calls OneSignal and succeeds only if its request was already sent. |
| Reliability.RetriesAreCountedAndDelayed | internal/broker/consumer.go:179-197 | In every reachable state a ready or delivered message with k rejections is there no earlier than k delays after its first delivery, and its x-death header counts exactly k. |
| Reliability.AttemptsAreBounded | internal/broker/consumer.go:179-197 | In every reachable state, wherever a message has got to, its handler ran at most budget + 1 times plus failed parks and crashes, and exactly that often for a parked message. |
| Reliability.BoundIsReached | internal/broker/consumer.go:179-191 | For every declared key and body there is a run in which every attempt fails and the message is handled budget + 1 times and parked. |
| Outage.NeverParked | docs/adrs/0006-add-circuit-breaker-and-dead-letter-retry-for-third-party-notification-providers.md:33-33 | If no call to the provider that ends at r or later fails, the message is valid and its database steps work at every attempt, and its last retry comes no earlier than r plus the open timeout, it is never parked; other messages, crashes at any point and the other channel are arbitrary. Stated for both channels. |
| Outage.NeverTriedForParking | internal/broker/consumer.go:179-180 | Under the same conditions parking it is never even attempted. |
| Tightness.OneNanosecondLess | internal/resilience/breaker.go:24-26 | A run, for any number of retries, in which the message is valid and served at every attempt and the provider works one nanosecond too late for its last retry: the message is parked. |
| Outage.SurvivalIsTight | internal/resilience/breaker.go:24-26 | For both channels: with the last failed call ending just before r, an exhausted message handled just before r plus the open timeout goes on to be parked. |
| Outage.ParkedOnlyByTrying | internal/broker/consumer.go:179-191 | Only a consumer that finds its oldest delivery failed and out of retries puts anything into the parked queue or settles a message by parking it. |
| Outage.CrashParksExactly | internal/broker/consumer.go:180-191 | A crash leaves one parked copy for each consumer that it caught between parking and acknowledging, and no other. |
| Outage.LastAttemptIsLate | internal/broker/topology.go:61-64 | A message out of retries is handled no earlier than its first delivery plus the whole budget of delays. |
| CallBound.CallBound | internal/resilience/breaker.go:20-29 | Between two points of any run, the first with a closed breaker, while all calls to a provider fail, it gets at most max(1, ConsecutiveFailures) of them for each process plus one per open timeout that fits, under any load and any number of crashes. Stated for both providers. |
| OutageCost.MostInNumbers | internal/resilience/breaker.go:20-29 | That number is (crashes + 1) * max(1, ConsecutiveFailures) + T / (OpenTimeout + 1 ns). |
| OutageCost.OutageCallBoundOverRestarts | internal/resilience/breaker.go:35-42 | The same for any sequence of breaker states, calls and restarts. |
| Drain.WorkDrops | internal/broker/consumer.go:161-203 | Every step of broker or consumer with a working park strictly lowers a measure over all live messages. |
| Drain.WorkIsBounded | internal/broker/consumer.go:70-204 | A stretch of ticks, broker and consumer steps holds at most as many of the latter as the measure at its start. |
| Drain.WorkRemains | internal/broker/topology.go:61-64 | While any message is live some such step is possible, if only after the clock reaches the next deadline, and one at which every call and statement fails will do. |
| Drain.QueuesDrain | docs/adrs/0006-add-circuit-breaker-and-dead-letter-retry-for-third-party-notification-providers.md:20-20 | From every reachable state the main and retry queues can be emptied by broker and consumer steps alone, even when every attempt fails, acknowledging nothing and hurting no message. |
| Relay.StepKeeps | internal/broker/consumer.go:160-204 | Every step, including a crash at any point of either handler, keeps the invariant of the whole relay. |
| Relay.InvAlong | docs/adrs/0006-add-circuit-breaker-and-dead-letter-retry-for-third-party-notification-providers.md:20-24 | The invariant holds in every state of every run. |
| Relay.EmailAfterKeeps | internal/broker/consumers/email_consumer.go:45-81 | One use of the e-mail handler keeps the e-mail invariant, only grows the log, leaves dispatched requests dispatched, and reports success only for a request in the namespace whose row then says dispatched. |
| Relay.PushAfterKeeps | internal/broker/consumers/push_notification_consumer.go:45-85 | The same for the push handler and sent rows. |
| OutageCost.OutageCallBound | internal/resilience/breaker.go:20-29 | For any load offered to one process, including uses that the breaker rejects: at most max(1, ConsecutiveFailures) + T / (OpenTimeout + 1 ns) real calls in a window T of failures. |
| OutageCost.OutageCallBoundIsReached | internal/resilience/breaker.go:35-42 | Some load in every window reaches that bound. |
| Resilience.OpeningsExpire | internal/resilience/breaker.go:24-26 | If no call that ends at r or later fails, no opening outlasts r by the open timeout. |
| Resilience.StepKeepsSettled | internal/resilience/breaker.go:58-64 | With non-overlapping calls only an unexpired opening rejects a call, a rejection changes nothing, and every opening comes from a failed call. |
| Resilience.CircuitBreaker.BeforeRequest | internal/resilience/breaker.go:24-29 | Admission: closed always, open only after its expiry, half-open within the trial quota. |
| Resilience.CircuitBreaker.AfterRequest | internal/resilience/breaker.go:40-42 | The transition after a call, whose meaning over call sequences `BreakerHistory` has: a failure trips the breaker at the threshold, a failed trial reopens it, enough good trials close it. |
| Resilience.CircuitBreaker.Execute | internal/resilience/breaker.go:15-17 | A rejected use leaves the breaker as it was, an admitted one is one transition. |
| Routing.StarMatchesOneWord | internal/broker/consumer.go:115-121 | A pattern a.b.* matches exactly the keys of three words that start with a and b. |
| Routing.BoundKeys | internal/broker/consumers/email_consumer.go:33-43 | Which keys reach which queue, and that no key reaches both. |
| Deaths.DeathCount | internal/broker/consumer.go:219-247 | The consumer's loop sums the counts of the "rejected" entries, and yields 0 for a missing or malformed header. |
| Deaths.OrderIsIrrelevant | internal/broker/consumer.go:230-246 | The count does not depend on the order of the entries. |
| Deaths.OtherEntriesAreIgnored | internal/broker/consumer.go:232-244 | Expired, malformed and oddly typed entries add nothing, wherever they stand. |
| Deaths.RejectedEntriesCount | internal/broker/consumer.go:236-244 | An entry under "rejected" with a count of either width contributes that count, wherever it stands. |
| Deaths.LatestDeathIsFirst | internal/broker/consumer.go:214-218 | A death puts its entry first, one higher than before, and leaves the others as they are. |
| Deaths.DieCounts | internal/broker/consumer.go:214-218 | Each death adds one to the count if it is a rejection and nothing otherwise. |
| Deaths.DeathCountAgreesWithHistory | internal/broker/consumer.go:214-218 | After any sequence of rejections, expiries and redeliveries the count is the true number of rejections. |
| Broker.ArriveOnce | internal/broker/topology.go:27-30 | The topic exchange appends one copy to the queue bound under the key and nothing elsewhere. |
| Broker.SettleConserves | internal/broker/consumer.go:172-201 | Settling moves a message, with its key and body, to exactly one place, whatever handler and park report. |
| Broker.ExpireConserves | internal/broker/topology.go:61-64 | Expiry creates and drops no message. |
| Broker.RequeueConserves | internal/broker/consumer.go:141-149 | A lost connection creates and drops no message. |
| Broker.DeliverKeepsLine | internal/broker/consumer.go:141-149 | A delivery leaves the unsettled messages of a queue in their order. |
| Broker.RequeueKeepsLine | internal/broker/consumer.go:141-149 | So does a crash, after which nothing is delivered. |
| Broker.ArriveEndsLine | internal/broker/consumer.go:115-121 | What arrives in a queue goes to the end of its line. |
| BrokerInvariant.SettleKeeps | internal/broker/consumer.go:172-201 | Settling keeps conservation, header agreement, the retry budget, deadlines and their order. |
| BrokerInvariant.ExpireKeeps | internal/broker/topology.go:55-65 | Expiry keeps the same. |
| BrokerInvariant.RequeueKeeps | internal/broker/consumer.go:179-192 | A crash, also one between park and acknowledgement, keeps the same. |
| BrokerInvariant.ExactlyOnePlace | internal/broker/consumer.go:209-212 | Every published message is in exactly one place with its key and body. |
| BrokerInvariant.ParksAccount | internal/broker/consumer.go:180-191 | Each step keeps the account of the parked queue: a copy for every parked message and one for every copy left by a park that reported an error or was cut off. |
| BrokerInvariant.DeclaredIsNeverLost | internal/broker/topology.go:70-74 | Under a declared key it is live, acknowledged or parked. |
| BrokerInvariant.HeadExpiresFirst | internal/broker/topology.go:61-64 | Deadlines are sorted across both channels, so the head never holds back an expired message. |
| BrokerInvariant.ReturnsToItsQueue | internal/broker/topology.go:14-17 | An expired message returns to the queue that rejected it and to no other. |
| BrokerInvariant.RetryBound | internal/broker/consumer.go:179-197 | The bound on handler invocations for every message the broker knows of, lost ones included, with equality for a parked one. |
| BrokerInvariant.UnboundIsLost | internal/broker/consumer.go:115-121 | A message under a key that no queue is bound to is lost as it arrives. |
| EmailRequest.ConvertsExactlyTheSendable | internal/service/email_service.go:212-304 | An e-mail converts if and only if its sender is not blank and some sendable request represents it, with exactly one kind of template and body fields, and the conversion is such a request. |
| EmailRequest.ContentExactlyIfGiven | internal/service/email_service.go:242-257 | A converted request has something to read if and only if the e-mail has a template or a body field that is not empty. |
| EmailRequest.EmptyBodyConverts | internal/service/email_service.go:245-245 | An e-mail whose only body is the empty string converts to a request with nothing in it. |
| EmailRequest.RefusalsAreTrue | internal/service/email_service.go:215-292 | Each refusal names something that is wrong with the e-mail. |
| EmailRequest.SuffixMeans | internal/service/email_service.go:221-221 | A suffix is what can be put behind some other text to give the whole. |
| EmailRequest.SpacesAre | internal/service/email_service.go:215-215 | White space is the 25 characters that Unicode says. |
| EmailRequest.TrimsToNothing | internal/service/email_service.go:215-215 | Trimming leaves nothing exactly for strings of white space. |
| EmailRequest.SenderAllowed | internal/service/email_service.go:219-225 | The loop finds whether some allowed domain is a suffix of the sender. |
| EmailRequest.EmailToResendRequest | internal/service/email_service.go:212-304 | The conversion with its loops agrees with the specification, refusals in the source's order. |
| EmailTables.AutoRegistrationSucceeds | internal/repository/services.sql.go:12-17 | In a well-formed registry an id of the namespace can always be registered under its own name and nothing else changes. |
| EmailTables.SeedNamesAreOutsideTheNamespace | database/migrations/20260417120358_add_email_model.sql:14-21 | No seeded name can collide with an id of the namespace. |
| EmailAudit.DuplicateCheckIsExact | internal/repository/emails.sql.go:96-133 | In every state the lookup of a request id finds it dispatched if and only if some committed attempt for it was accepted. |
| EmailTables.Queries.UpsertService | internal/repository/services.sql.go:27-38 | Inserts or leaves alone; refused only by the unique name, and then nothing changes. |
| EmailTables.Queries.UpsertEmailRequest | internal/repository/emails.sql.go:231-329 | Inserts, or updates only status and processing time; a constraint violation changes nothing. |
| EmailTables.Queries.CreateEmailDispatch | internal/repository/emails.sql.go:16-60 | Appends one row unless a constraint refuses it. |
| EmailTables.Queries.UpdateEmailRequestStatusByID | internal/repository/emails.sql.go:190-229 | Changes the status of the row with that id and nothing else. |
| EmailService.Service.PrepareRequest | internal/service/email_service.go:71-124 | Inside the transaction, the duplicate check and the two upserts end as specified for every outcome of every statement. |
| EmailService.Service.RecordDispatch | internal/service/email_service.go:135-195 | Dispatch record and final status as specified for every outcome. |
| EmailService.Service.Send | internal/service/email_service.go:47-210 | The transaction leaves tables, breaker, trace and result as the specification says, for every outcome of every step. |
| EmailService.Pool.Begin | internal/service/email_service.go:55-58 | A transaction starts from its own copy of the committed tables. |
| EmailService.Pool.Commit | internal/service/email_service.go:200-203 | A commit makes the transaction's tables the committed ones. |
| EmailAudit.SendIsAtomic | internal/service/email_service.go:59-69 | An attempt leaves the tables unchanged, or registers the service, stores the request, appends one dispatch and sets the final status together. |
| EmailAudit.SendIsOneOfThree | internal/service/email_service.go:126-149 | An attempt stops before the conversion, stops at it, or uses the breaker once; it reports success after a call only for a committed "sent". |
| EmailAudit.ReachesBreakerExactly | internal/service/email_service.go:49-133 | An attempt gets as far as the breaker if and only if every statement before works, the request is not dispatched, its row can be stored and the e-mail converts; the breaker refuses it if and only if it does not admit the call. |
| EmailAudit.CommitsExactly | internal/service/email_service.go:135-203 | From there it is committed if and only if every statement works, Resend's id is new and the commit takes hold, even if an error is reported; the process dies in it exactly if it dies in the first statement that does not work. |
| EmailAudit.SucceedsExactly | internal/service/email_service.go:78-90 | Success is reported if and only if the check works and finds the request dispatched, or Resend accepted the call and the commit worked and said so. |
| Reliability.ResendIdsStayUnique | database/migrations/20260417120358_add_email_model.sql:59-59 | In every reachable state no two dispatch rows hold the same Resend id. |
| EmailAudit.AttemptKeeps | internal/service/email_service.go:47-210 | Every attempt keeps audit, keys, registry and breaker history together. |
| EmailAudit.LogRefinesAttempts | internal/service/email_service.go:140-203 | The dispatch rows of a request tell its committed attempts, in order, and its status names what became of the latest of them. |
| EmailAudit.DuplicateSendAccounting | internal/service/email_service.go:73-90 | Acceptances by Resend are one if the row says dispatched, plus one per acceptance the tables do not show. |
| EmailAudit.LostCommitIsSentTwice | internal/service/email_service.go:200-202 | A rolled-back commit after a real send is followed by a second real send. |
| EmailAudit.HealthyCallIsAccepted | internal/service/email_service.go:131-133 | A healthy attempt at an undispatched request reaches Resend, whatever becomes of its commit. |
| EmailAudit.NoFalseSuccess | internal/service/email_service.go:205-209 | A handler that reports success has had the request accepted by Resend, now or earlier. |
| EmailAudit.SuccessMeansDispatched | internal/service/email_service.go:182-209 | Success is reported only when the row says dispatched. |
| EmailAudit.SuccessSendsUnlessDispatched | internal/service/email_service.go:78-90 | An attempt that reports success has sent its own content if and only if its request was not dispatched before. |
| EmailAudit.DispatchedIsFinal | internal/service/email_service.go:82-87 | A dispatched request is not sent again, its rows and the breaker stay as they are, and the handler reports success if the check works. |
| EmailAudit.RowsAreAbsorbing | internal/repository/emails.sql.go:281-285 | A later attempt never changes the content of a row, nor anything of a dispatched one. |
| EmailAudit.NeverReceived | internal/service/email_service.go:119-119 | No committed request is left at "received", and its service exists. |
| EmailAudit.HealthySendSucceeds | internal/service/email_service.go:131-210 | A valid e-mail with working steps and no unexpired opening succeeds. |
| EmailAudit.MissingToNeverReachesResend | database/migrations/20260417120358_add_email_model.sql:35-35 | Without to_addresses no environment lets an attempt reach Resend. |
| EmailAudit.ReachesResendExactlyWithTo | internal/service/email_service.go:233-236 | Among convertible e-mails a healthy attempt reaches Resend if and only if to_addresses is there. |
| EmailAudit.SendMovesBreakerByItsCallOnly | internal/service/email_service.go:131-133 | The breaker moves by the attempt's own call or not at all. |
| EmailAudit.AcceptancesAreSentOrOrphaned | internal/service/email_service.go:144-149 | In every log acceptances are the committed "sent" attempts plus the unrecorded ones. |
| PushAudit.DuplicateCheckIsExact | internal/repository/notifications.sql.go:187-200 | The lookup of a request id finds it sent if and only if some attempt for it stored "sent". |
| PushAudit.RecordedExactlyIfStorable | database/migrations/20250828171345_add_notification_model.sql:70-70 | With a working database an attempt at an unsent request is recorded if and only if the JSONB columns take the notification and the answer as it came; otherwise the handler fails and the table stays as it is. |
| PushAudit.UnstorableAnswerLeavesNoRow | internal/service/push_notification_service.go:104-112 | An answer that is empty or not JSON leaves no row, whatever the database does, although OneSignal was called. |
| PushService.Service.PersistOutcome | internal/service/push_notification_service.go:143-159 | Stores the outcome or reports why not, for every outcome of the statement. |
| PushService.Service.Send | internal/service/push_notification_service.go:64-141 | Table, breaker, trace and result as specified, for every outcome of every step. |
| PushAudit.SendWritesItsRow | internal/service/push_notification_service.go:146-159 | An attempt writes its own row or nothing, and never over a sent one. |
| PushAudit.ReachesBreakerExactly | internal/service/push_notification_service.go:76-102 | An attempt gets as far as the breaker if and only if the check works and finds nothing sent and the notification is complete; the breaker refuses it if and only if it does not admit the call. |
| PushAudit.ValidIfComplete | internal/service/push_notification_service.go:283-506 | Validation accepts exactly the complete notifications. |
| PushAudit.RecordsExactly | internal/service/push_notification_service.go:146-159 | An attempt is recorded if and only if nothing was sent before, the JSONB columns take it and the upsert takes effect, whatever it reports. |
| PushAudit.EndsExactly | internal/service/push_notification_service.go:136-140 | Success is reported if and only if the check works and finds the request sent, or a readable answer was stored and reported so; the process dies in it exactly if it dies in one of the two statements. |
| PushAudit.ErrorsAreTrue | internal/service/push_notification_service.go:202-219 | The error in a row is the one that occurred. |
| PushAudit.AttemptKeeps | internal/service/push_notification_service.go:64-141 | Every attempt keeps audit, clock and breaker history together. |
| PushAudit.RowIsLatestWrite | internal/repository/notifications.sql.go:955-1010 | A row is the latest write for its request, and nothing follows "sent". |
| PushAudit.DuplicateSendAccounting | internal/service/push_notification_service.go:71-83 | Error-free OneSignal calls are one if the row says sent, plus one per call not recorded as sent. |
| PushAudit.LostRecordIsSentTwice | internal/service/push_notification_service.go:136-138 | A call whose outcome is not stored is followed by a second one. |
| PushAudit.AnswersAreSentOrUnrecorded | internal/service/push_notification_service.go:128-134 | In every log error-free calls are the "sent" writes plus the unrecorded ones. |
| PushAudit.SuccessMeansSent | internal/service/push_notification_service.go:136-140 | Success is reported only when the row says sent. |
| PushAudit.SentRowHasIdExactly | internal/service/push_notification_service.go:216-218 | For an event without an id of its own a "sent" row has one if and only if the id in the answer is not empty. |
| PushAudit.EmptyIdIsSent | internal/service/push_notification_service.go:192-199 | An answer with an empty id is a success: the handler returns no error and the row says "sent" without an id. |
| PushAudit.NoFalseSuccess | internal/service/push_notification_service.go:122-140 | Success is reported only after an error-free OneSignal call, now or earlier. |
| PushAudit.SuccessSendsUnlessSent | internal/service/push_notification_service.go:76-83 | An attempt that reports success has sent its own content if and only if its request was not sent before. |
| PushAudit.SentIsFinal | internal/service/push_notification_service.go:76-83 | A sent row never changes and OneSignal is not called for it again. |
| PushAudit.PassedNeverReachesOneSignalAgain | internal/service/push_notification_service.go:545-555 | After an attempt found send_after passed, no later attempt with that send_after calls OneSignal. |
| PushAudit.PassedSucceedsOnlyIfSent | internal/service/push_notification_service.go:88-96 | Such an attempt leaves the breaker alone and succeeds if and only if the check works and the row says sent. |
| PushAudit.HealthySendSucceeds | internal/service/push_notification_service.go:98-141 | A valid notification with working steps and no unexpired opening succeeds. |
| PushAudit.SendMovesBreakerByItsCallOnly | internal/service/push_notification_service.go:98-102 | The breaker moves by the attempt's own call or not at all. |
| Consumers.Server.PublishRaw | internal/broker/publisher.go:92-129 | Appends the body verbatim to the parked queue if it is declared; headers are not carried over. |
| Consumers.DeclareRetryTopology | internal/broker/topology.go:31-88 | On a fresh broker or after a restart it succeeds if and only if every request to the broker does, the TTL is not negative and an existing queue has the same arguments; then the retry queue has this TTL, the delay in whole milliseconds, and return exchange, every key is bound and the parked queue exists. A failure adds a prefix of the bindings at most and takes nothing away. |
| Consumers.SettlingLosesExactly | internal/broker/consumer.go:172-197 | A settled message is lost if and only if its handler failed, its key is not declared, and it has retries left or its park reported an error. |
| Consumers.MoreIsBoundThanDeclared | internal/broker/consumers/email_consumer.go:39-39 | A key that reaches the e-mail queue and is not among the two declared ones. |
| Consumers.Consumer.SettleDelivery | internal/broker/consumer.go:172-201 | Ack, nack or park leave the broker as specified, for every report of the park and with or without a dead-letter exchange. |
| Turns.ScriptMeetsFate | internal/broker/consumer.go:160-204 | Whatever the handlers report, the k-th delivery that the loop settles is the k-th message of the line, in order; it is acknowledged if and only if its handler succeeded, and otherwise retried, parked or lost by its rejections, its key, the park's report and the dead-letter exchange; the other messages stay in order. |
| Turns.SettlingMoves | internal/broker/consumer.go:172-201 | A settled delivery goes to the place of its fate as the message it is; a retried one is due exactly the delay later. |
| Turns.SettlingParksExactly | internal/broker/consumer.go:179-191 | A copy is parked if and only if the handler failed, the retries are used up and the park took effect. |
| Consumers.Consumer.Consume | internal/broker/consumer.go:160-204 | The loop over the server does what `Turns.ScriptMeetsFate` says for the deliveries before the first cancellation or closed channel, and never stops at a handler error. |
| Consumers.EmailConsumer.HandleMessage | internal/broker/consumers/email_consumer.go:45-81 | Adds one attempt with the event's request id and content if and only if it decodes, is from the namespace and has type email.send; anything else is an error and changes nothing. |
| Consumers.PushConsumer.HandleMessage | internal/broker/consumers/push_notification_consumer.go:45-85 | The same for push notifications of type push.send. |
| Consumers.ConsumeOneEmail | internal/broker/consumer.go:172-201 | One delivery from handler to settling is exactly one step of the relay; a handler that dies leaves what the relay's crash step leaves. |
| Consumers.ConsumeOnePush | internal/broker/consumer.go:166-201 | The same for the push channel. |

## Left out

- AMQP, HTTP and Postgres wire traffic, connection pooling, logging, configuration loading, middleware, migrations and server shutdown: no property of the delivery protocol depends on them.
- JSON decoding of events, attachments, template variables and responses is a parameter, so statements hold for every decoder.
- User synchronisation: single-row updates without retries. Its discard-on-error mode of `Consume` is modelled for one consumer, not in runs of the relay.
- Statistics, listing and clean-up queries: no running code calls them.
- More than one application instance: one sequential consumer per queue is assumed, as `startConsumers` starts them.
- Publisher confirms: a publish without an error is taken to be enqueued, or dropped when the parked queue is not declared.
- The engine behind the breaker (locks, generations, counters other than those the trip policy reads): only its documented transitions are modelled, with its defaults for a non-positive timeout (60 s) and a zero trial quota (1); overlapping calls do not occur with one consumer per provider.
- A handler runs as one step with respect to the other channel; inside it every statement can fail or be the last one before a crash, and its provider call has its own start and end time.
- A crash ends the whole process, so both breakers restart closed.
- One clock for broker, breakers and `send_after`, assumed not to run backwards.
- Copying the remaining fields into the OneSignal payload, the texts of errors and `resend_error`, column lengths, and the constants stored as exchange and routing key: they are copied and never read back. A statement that a length limit refuses is covered by a failing statement. `hasTargeting` also accepts player ids, which the payload does not carry; nothing is claimed about the payload's audience.
- Messages reach the broker without an x-death header of their own.
- An e-mail that Resend accepted although its client saw an error is counted as a real send; for OneSignal only error-free calls can be counted.
- Deaths.DeathCount: the sum is over unbounded integers; the wrap-around of a 64-bit count is not modelled.
- Drain.QueuesDrain: assumes that no new messages arrive, parks work and no process crashes.
- CallBound.CallBound: assumes a closed breaker at the start of the stretch, as every new process has.
- Outage.NeverParked: assumes that the database works whenever this message's handler runs to its end; a crash inside it is allowed.
- Consumers.Consumer.Consume: takes the handlers' results from a script; `ConsumeOneEmail` and `ConsumeOnePush` supply them one delivery at a time.
- Consumers.ConsumeOneEmail: a crash between parking and acknowledging is a step of the relay, not of this method.
- The limits and the declared topology are fixed in a run of the relay, although a new process may bind further keys when it declares the topology again.
- JSONB columns that the services only copy (`ios_attachments`, `android_group_message`, `filters`, `tags`): a refusal by one of them is a failing statement.
