# Ticket booking pipeline: verified model

This project models the path of a ticket purchase through the platform, from the request to the
delivered confirmation, and proves what every run of it keeps. Any number of purchase requests,
outbox relays, one consumer and one retry loop interleave statement by statement; each may fail or
crash at any point, answers to writes may be lost, leases expire and messages are delivered again.

| file | content |
|---|---|
| `Basics` | options, acknowledgements that may be lost, the purchase payload, small helpers |
| `BookingLog` | the simple machine: per event, an append-only log of (token, quantity) sales |
| `BookingModel`, `BookingInvariant`, `BookingSteps`, `BookingTheorems` | purchases as a transition system of single SQL statements, its invariant, and the results over all runs |
| `BookingProgress` | what a request gets when nobody hinders it |
| `BookingRefusals` | a request that was refused sells nothing, now or later |
| `PurchaseService`, `TicketRepo` | the Go control flow of a purchase as methods over a mutable database, with other requests running between any two statements |
| `OutboxModel`, `OutboxProofs`, `OutboxTiming` | any number of relays over one outbox table and one clock: delivery, then leases and spacing |
| `OutboxRelay` | claim, publish, mark or reschedule, and the drain loop, as methods over a mutable table |
| `MailModel`, `MailProofs`, `MailTheorems` | consumer loop, handler and retry loop over one status table; offsets, rows and verdicts |
| `MailRetries` | what the retry loop may do to a booking: is "sent" final, is it emailed again, how its sends are spread |
| `Confirmations` | which bookings without a status row can still get one from the log |
| `MailService` | the consumer loop and the handler as methods, with the retry loop and the broker running in between |
| `RetryLadder` | the timed ladder over records whose fields survive between polls |
| `PayloadCodec` | the payload through untyped JSON fields, with float64 rounding and shortest printing |
| `Pipeline` | the three machines joined, end to end; the handler reads what the untyped fields leave of a payload |
| `EmailContents` | what the delivered confirmation emails say about the tickets |
| `PipelineProgress` | which committed bookings can still be confirmed, outbox included |
| `RateLimiter` | the pruned, expiring set against a limiter that forgets nothing, for each limit and window |

A transition system here is a function `Next(state, step)`: a statement that cannot run now (it
would wait for a row lock, say) changes nothing, so that a run is any sequence of steps. Whatever
is not determined by the state is part of the step: the lock server's answer, whether a write was
acknowledged (`Acked`), or failed with or without having been applied (`Unknown`), whether the
broker appended, when the clock moves. The methods of the three services are proved to perform
exactly such steps, and their results are stated in the terms of the transition system. So that
a method cannot meet its contract by failing every time, each of the three services also has a calm
mode (`calm`, for the relay `reliable`) in which nothing interferes and calls are answered; there
the contract says what the result and the tables are. What the outside world contributes (the clock's
verdict on the event, the lock server's answer, the random draws behind booking_ref and event_id; the
answers of the outbox database and the broker to one publishOne; the user's address and the
provider's answer) is a parameter of the call, so that a caller knows beforehand what it will get.

Taken as given: one SQL statement is atomic; the rows of `events` and `event_fencing_tokens`
touched by the conditional update stay locked until the transaction ends, and a transaction's
writes appear at commit and vanish at rollback; `LAST_INSERT_ID` belongs to the connection;
`booking_ref` and the outbox `event_id` are unique (`scripts/db/init.sql:44`,
`scripts/db/init.sql:59`); a topic has one partition (`scripts/kafka/init-topics.sh:16-20`) and is
append-only. The Redis lock is not relied on: it grants and refuses arbitrarily.

Where the documentation and the code disagree, the model follows the code:

- `README.md:151-152` says that the inventory decrement and the ticket insert are not one
  transaction. `purchase_service.go:79-143` and `README.md:310-312` put them in one.
- `README.md:411-412` promises dead letters after five attempts. `UpdateStatus` never writes
  `retry_count`, so no stored row ever becomes dead (`MailTheorems.NeverDead`); the ladder is
  proved on records that keep their fields, as the one in `retry_test.go:36-44` does.
- "Sent" is not final: `MailRetries.SentCanBeOverwritten` gives a run in which the handler overwrites
  the retry loop's success, and `SentIsFinalExactly` says when it cannot happen. Nor is one email per
  booking promised: `EmailedTwice` gives a run, and `NoFurtherEmailExactly` says when there is no more.
- A committed offset does not mean that everything below it succeeded: `FailedMessagePassedOver`
  gives a run, and `CommittedMeansHandledExactly` says that it does mean so if and only if no commit
  passes over a ticket message that had met handler errors only. `RowStillComesExactly` and
  `ConfirmationStillComesExactly` say exactly which bookings can still be confirmed.
- The retry loop does not always wait a minute: `ForgottenSendRepeats` gives a run, and
  `RetriesAreMinuteApartExactly` says, over all runs and for each row, when it does.
- Two relays can publish one row if one of them works past its lease: `LateRelaySharesRow` gives a
  run, and `ExclusionLostExactlyWhenLate` says, over all runs, that exclusion is lost exactly when a
  row is selected that such a late relay still works on.
- The rate limiter may forget too early for windows above one second that are no whole number of
  seconds. `AgreesExactly` and `WindowsHoldAtMostLimit` say that a limiter keeps its promise if and
  only if the nanoseconds by which its window outlasts the key are fewer than its limit;
  `SpansHoldAtMostLimit` and `RefusalsAreDeserved` say what it keeps in any case.

## Model

| member | source | states |
|---|---|---|
| BookingLog.RunsSound | services/ticket/internal/service/purchase_service.go:85-97 | every run of the simple machine keeps tokens strictly increasing and sells no more than the stock |
| BookingSteps.IssueTokenKeepsInv | services/ticket/internal/service/purchase_service.go:168-173 | the counter update keeps the invariant whether or not its answer arrives: the issued counter is the number of issuing updates and each request issued at most one |
| BookingSteps.SelectTokenKeepsInv | services/ticket/internal/service/purchase_service.go:175-179 | the value read back on the pinned connection is the one the request's own update produced |
| BookingSteps.ReserveKeepsInv | services/ticket/internal/service/purchase_service.go:85-99 | after the conditional update the request holds the row locks and either its WHERE clause was true and its new values are pending, or it was false |
| BookingSteps.DiagnoseKeepsInv | services/ticket/internal/service/purchase_service.go:99-114 | both rejections end the request, free its locks and leave all facts about the others intact |
| BookingSteps.InsertTicketKeepsInv | services/ticket/internal/repository/ticket_repo_mysql.go:25-49 | an attempt either costs a try or holds a booking_ref that no committed ticket and no open transaction has |
| BookingSteps.InsertOutboxKeepsInv | services/ticket/internal/service/purchase_service.go:126-140 | the pending outbox row goes to topic ticket.purchased under the booking_ref and holds the ticket's booking, user, event and quantity and the event's name, date and venue, under an id and event_id nobody else has |
| BookingSteps.CommitKeepsInv | services/ticket/internal/service/purchase_service.go:141-143 | installing the four tables' writes together, or losing the answer with or without them, keeps the invariant for everyone |
| BookingTheorems.PurchasesRefineBookingLog | services/ticket/internal/service/purchase_service.go:79-143 | every interleaving is a run of the atomic booking log; remaining_count is the stock minus the log's sales, last_accepted_token is its last token (0 if none) and never exceeds last_issued_token |
| BookingTheorems.OnlyCommitBooks | services/ticket/internal/service/purchase_service.go:116-143 | every step that is not an applied commit (failed statement, fifth collision, refused outbox insert, rollback, crash) leaves inventory, accepted tokens, tickets, outbox and log as they were |
| BookingTheorems.Conservation | services/ticket/internal/service/purchase_service.go:85-124 | no oversell: remaining_count plus the quantities in the tickets table is the initial stock, in every reachable state, without relying on the lock |
| BookingTheorems.TokensAreOwnUpdates | services/ticket/internal/service/purchase_service.go:154-180 | a request holds the token of its own update; tokens number the updates of the event in order and no two requests share one |
| BookingTheorems.TicketsMatchOutbox | services/ticket/internal/service/purchase_service.go:116-143 | committed tickets and outbox rows are in bijection by booking_ref; the row goes to ticket.purchased and its payload holds the ticket's booking, user, event and quantity and the event's name, date and venue; tickets of one event own distinct accepted tokens |
| BookingTheorems.StaleMeansOlder | services/ticket/internal/service/purchase_service.go:110-112 | under the row locks, "not newer than the accepted token" is "strictly older than another request's sale" |
| BookingTheorems.StaleIsTruthful | services/ticket/internal/service/purchase_service.go:99-113 | a request told that its token is stale was overtaken: another request's ticket with a strictly newer token is committed |
| BookingTheorems.RejectionsAreTruthful | services/ticket/internal/service/purchase_service.go:99-113 | a request that changed no row is told "stale" if and only if it was overtaken; otherwise it is told the true remaining count, which is below its quantity |
| BookingTheorems.OutcomesAreTruthful | services/ticket/internal/service/purchase_service.go:141-150 | whoever is told "booked" has its ticket; a sale belongs to a request that was told so or left uncertain at commit, and no request sells twice |
| BookingProgress.UnhinderedRequestIsAnswered | services/ticket/internal/service/purchase_service.go:41-151 | in every reachable state, a request that nobody hinders is booked if and only if its quantity is positive and in stock; the answer and the tables, with one new outbox row that describes the ticket, are those of the inventory alone, never "stale" |
| BookingProgress.TokenPhase | services/ticket/internal/service/purchase_service.go:154-180 | run without interference, the three statements yield one more than all tokens issued before, and nothing but the event's tokens and the request has moved |
| PurchaseService.PurchaseService.Purchase | services/ticket/internal/service/purchase_service.go:41-151 | with other requests running between any two statements: the outcome is that of a run of the transition system; a booking leaves its ticket, under one of the drawn booking_refs, and an outbox row that describes it; "insufficient", "stale", "not found", "past" and "lock not acquired" are true, a past event or a refused lease never sells, and no other refusal sells either. In a calm environment, where no open transaction holds the event's rows or one of the five drawn names, it is answered by the clock, the lock server and the inventory alone, under the first drawn booking_ref that is free; with all five taken, a purchase that could be booked fails and nothing is sold |
| PurchaseService.PurchaseService.Book | services/ticket/internal/service/purchase_service.go:79-150 | the booking transaction ends booked with ticket and outbox row, rejected with the true remaining count, failed, or uncertain at commit; in a calm environment with a newest token it books exactly what is in stock, under the first drawn booking_ref that is free |
| PurchaseService.Database.NextFencingToken | services/ticket/internal/service/purchase_service.go:154-180 | the three statements return the value that the request's own update issued, whatever runs between them; in a calm environment it is the next number |
| PurchaseService.Database.ReserveInventory | services/ticket/internal/service/purchase_service.go:85-99 | rowsAffected is not 0 if and only if the quantity is in stock and the token is newer than the accepted one; the decremented count and the token stay in the transaction |
| PurchaseService.Database.Diagnose | services/ticket/internal/service/purchase_service.go:99-114 | the count reported as remaining is the committed one and is below the requested quantity |
| PurchaseService.Database.ExecInsertTicket | services/ticket/internal/repository/ticket_repo_mysql.go:32-47 | a taken booking_ref is answered with an error that reads as a duplicate; success yields the pending ticket |
| PurchaseService.Database.CreateWithTx | services/ticket/internal/repository/ticket_repo_mysql.go:23-50 | at most five attempts; success yields a well-formed booking_ref that no committed ticket has, every other end rolls the whole booking back; in a calm environment the first free one of the five drawn is used, and it fails exactly if all five are taken |
| PurchaseService.Database.Commit | services/ticket/internal/service/purchase_service.go:141-150 | "booked" only with the ticket and its outbox row committed; a lost answer is reported as uncertain |
| BookingRefusals.RefusedSoldNothing | services/ticket/internal/service/purchase_service.go:82-143 | a request that ended in any error other than an uncertain commit owns no sale |
| BookingRefusals.RefusedSellsNothing | services/ticket/internal/service/purchase_service.go:42-114 | over every run: a request whose lease is refused, whose event is missing or past, whose token statement goes unanswered, that changed no row, ran out of booking_refs, failed or crashed, is told just that and owns no sale in any later state |
| TicketRepo.SearchString | services/ticket/internal/repository/ticket_repo_mysql.go:165-172 | true if and only if the substring occurs |
| TicketRepo.Contains | services/ticket/internal/repository/ticket_repo_mysql.go:160-162 | the length guard does not change the answer |
| TicketRepo.IsDuplicateKey | services/ticket/internal/repository/ticket_repo_mysql.go:155-157 | true if and only if the error text has either wording of a uniqueness conflict |
| TicketRepo.GenerateBookingRef | services/ticket/internal/repository/ticket_repo_mysql.go:142-152 | TBK- and eight characters, the i-th being the one of the alphabet that the i-th draw names, unless the random source fails |
| TicketRepo.RefsAreDraws | services/ticket/internal/repository/ticket_repo_mysql.go:142-152 | draws and well-formed references (TBK- and eight capitals or digits) correspond one to one: different draws give different references and every reference can be drawn |
| OutboxProofs.CommitClaimKeepsInv | services/ticket/internal/outbox/relay.go:73-81 | a claim counts one attempt, whether or not the relay learns of it, and no other relay holds the same attempt number of the row |
| OutboxProofs.PublishKeepsInv | services/ticket/internal/outbox/relay.go:83-89 | publishing appends the row's stored content or nothing, and uses up the claim's attempt number |
| OutboxProofs.MarkKeepsInv | services/ticket/internal/outbox/relay.go:90-96 | only a row whose message is in the log is ever marked |
| OutboxProofs.RetryKeepsInv | services/ticket/internal/outbox/relay.go:100-109 | rescheduling, even by a slow relay, keeps every fact about rows, log and relays |
| OutboxProofs.NothingLostNothingInvented | services/ticket/internal/outbox/relay.go:50-97 | a row is unpublished or its message is in the log, and every message is the stored content of a row |
| OutboxProofs.CallsBoundedByAttempts | services/ticket/internal/outbox/relay.go:73-89 | PublishEnvelope is called for a row at most as often as its attempts column says |
| OutboxProofs.PublishedIsFinal | services/ticket/internal/outbox/relay.go:90-108 | once published_at is set no step clears it and the row is never claimed again, even after a late retry |
| OutboxTiming.LeasesExclude | services/ticket/internal/outbox/relay.go:61-81 | if every relay is done with its claim before the lease ends, or dies, no state of the run has a row in two relays' hands |
| OutboxTiming.ExclusionLostExactlyWhenLate | services/ticket/internal/outbox/relay.go:61-108 | over every run, with relays that oversleep as they like: no state has a row in two relays' hands if and only if no relay selects a row that another one still works on past its lease |
| OutboxTiming.LateRelaySharesRow | services/ticket/internal/outbox/relay.go:61-93 | a run in which two relays publish the same row, the first after sleeping past its lease: its message is in the log twice |
| OutboxTiming.AbandonedRowReturns | services/ticket/internal/outbox/relay.go:61-81 | a claim whose relay dies makes its row eligible again after 120 seconds and not sooner |
| OutboxTiming.AttemptsAreSpaced | services/ticket/internal/outbox/relay.go:73-108 | as long as no late relay is overtaken, claims i and i+1 of a row are at least min(2^min(i,8), 121) seconds apart, so its n-th claim comes no sooner than the sum of those gaps |
| OutboxTiming.DelayIsPow2 | services/ticket/internal/outbox/relay.go:100-101 | the cap of 300 seconds is never reached: the delay of the k-th attempt is 1, 2, 4, 8, up to 256 seconds for k from 0 to 8 and on |
| OutboxRelay.Outbox.SelectNext | services/ticket/internal/outbox/relay.go:61-72 | the least eligible unlocked row, or none if there is none |
| OutboxRelay.RelayWorker.Claim | services/ticket/internal/outbox/relay.go:51-81 | leases the least eligible row for 120 seconds with one attempt more, or leaves the table unchanged, or fails, exactly as the database answers |
| OutboxRelay.RelayWorker.Deliver | services/ticket/internal/outbox/relay.go:83-109 | for all answers: an acknowledged send and update leave the row published and unlocked; a refused or undecodable one leaves it unlocked and put off by 2^min(k, 8) seconds; a lost update leaves it leased; the log gains the row's stored content exactly if the broker took it; no other row changes |
| OutboxRelay.RelayWorker.PublishOne | services/ticket/internal/outbox/relay.go:50-97 | for all answers: the least eligible row, if any, is claimed with one attempt more and then published, put off or left to its lease as they say; returning true removes exactly that row from the eligible set |
| OutboxRelay.RelayWorker.Drain | services/ticket/internal/outbox/relay.go:34-39 | the back-to-back calls stop after at most as many as there are eligible rows; with answering broker and database exactly the eligible rows are sent, in id order, each with one attempt more and marked as published, and all other rows stay as they were |
| MailProofs.ReadKeepsInv | services/shared/pkg/kafka/consumer.go:43-61 | reading moves the position past the message and passes over one without handler or envelope |
| MailProofs.CreateKeepsInv | services/email/internal/consumer/consumer.go:70-80 | the one consumer creates at most one row per booking although an insert's answer may be lost |
| MailProofs.SendKeepsInv | services/email/internal/consumer/consumer.go:82-90 | the handler has not sent for the booking before |
| MailProofs.RestartKeepsInv | services/shared/pkg/kafka/consumer.go:43-72 | a restart from the committed offset, at any point, keeps all facts about rows, sends and verdicts |
| MailProofs.RetryHeadKeepsInv | services/email/internal/sender/retry.go:48-75 | the retry loop sets "sent" in motion only after a Send that returned nil |
| MailTheorems.CommittedNeverMovesBack | services/shared/pkg/kafka/consumer.go:43-72 | the committed offset never moves back, over all restarts and redeliveries |
| MailTheorems.CommittedWasJudged | services/shared/pkg/kafka/consumer.go:43-72 | every message below it was read, and handled with nil or passed over by one of the three skipping branches for a reason that is true of it |
| MailTheorems.CommittedMeansHandledExactly | services/shared/pkg/kafka/consumer.go:43-72 | over every run: each ticket message of a registered topic below the committed offset was handled with nil if and only if no applied commit passed over one that had met handler errors only |
| MailTheorems.PassedOverForGood | services/shared/pkg/kafka/consumer.go:43-72 | a message below the committed offset is never judged again, whatever restarts and redeliveries follow |
| MailTheorems.FailedMessagePassedOver | services/shared/pkg/kafka/consumer.go:63-69 | a run in which a later commit passes over a failed message, whose booking has no row at the end of it |
| Confirmations.RowStillComesExactly | services/shared/pkg/kafka/consumer.go:43-72 | in every reachable world, a booking without a status row gets one from some continuation without new messages if and only if a ticket message of it on a registered topic lies at or above the committed offset |
| MailTheorems.OneRowOneSend | services/email/internal/consumer/consumer.go:56-90 | at most one row per booking_ref, and the handler calls the provider at most once per booking |
| MailTheorems.SentWasDelivered | services/email/internal/consumer/consumer.go:82-103 | a row marked sent has a Send to its recipient that returned nil and a message that announced it |
| MailTheorems.NeverDead | services/email/internal/repository/email_repo_mysql.go:36-46 | as retry_count is never written, it stays 0 and no stored row becomes dead |
| MailRetries.SentIsFinalExactly | services/email/internal/sender/retry.go:41-43 | a sent row stays sent in every continuation if and only if no handler and no retry loop in flight may still write "failed" to it |
| MailRetries.SentCanBeOverwritten | services/email/internal/consumer/consumer.go:82-98 | a run in which the retry loop marks the row sent and the handler then marks it failed |
| MailRetries.NoFurtherEmailExactly | services/email/internal/sender/retry.go:41-75 | a booking that has its row is emailed no more in any continuation if and only if the row is sent and nobody in flight may still write "failed" to it |
| MailRetries.EmailedTwice | services/email/internal/consumer/consumer.go:82-90 | a run in which the retry loop and the handler both email one booking |
| MailRetries.RetriesAreMinuteApart | services/email/internal/sender/retry.go:58-75 | as long as no send of this row is forgotten (its update not applied, or the loop dead before it), the retry loop's sends for the row are at least a minute apart, whatever the handler writes in between and whatever is forgotten of other rows |
| MailRetries.RetriesAreMinuteApartExactly | services/email/internal/sender/retry.go:48-75 | over every run, the retry loop's sends for one row are at least a minute apart if and only if none is made, within the minute, from a record read before the last one was written down |
| MailRetries.RushedIsForgotten | services/email/internal/sender/retry.go:73-97 | a send within the minute needs an update of that row to have been lost before |
| MailRetries.ForgottenSendRepeats | services/email/internal/sender/retry.go:73-97 | a run in which the loop dies before it records a failed send, and sends again at the same instant |
| MailRetries.RetriesAreUnbounded | services/email/internal/repository/email_repo_mysql.go:36-46 | a stored row that is not sent can be tried any number of times, as its retry count stays 0 |
| MailRetries.PendingIsTried | services/email/internal/sender/retry.go:30-46 | from every reachable state, a row that is not sent can be polled and sent, with either answer, as soon as its last attempt is a minute old |
| MailRetries.TurnIsSentExactly | services/email/internal/sender/retry.go:48-95 | in every reachable state, the record whose turn has come is sent, to its recipient, if and only if it has no last attempt or one at least 60 seconds old |
| MailRetries.PollReadsOldestFirst | services/email/internal/repository/email_repo_mysql.go:48-51 | a poll reads each pending or failed row once, those never attempted first, then those whose last attempt is longest ago |
| MailService.EmailService.HandleTicketPurchased | services/email/internal/consumer/consumer.go:45-107 | nil means that the booking has its row; the provider is called at most once, exactly once for a new booking that is handled, and never for a known one; without an address a new booking is an error. In a calm environment a known booking changes nothing, a new one gets one row with the outcome of the send, and the error is that of a missing address alone |
| MailService.EmailService.SendAndStore | services/email/internal/consumer/consumer.go:82-106 | a failed send is recorded and still counts as handled; only a failed update is an error |
| MailService.EmailService.FindByBookingRef | services/email/internal/repository/email_repo_mysql.go:92-109 | unless it fails, it finds a row if and only if the booking has one |
| MailService.EmailService.CreateStatus | services/email/internal/repository/email_repo_mysql.go:19-34 | the row is pending with retry count 0 under the next id; a lost answer may have left it behind |
| MailService.EmailService.StoreStatus | services/email/internal/repository/email_repo_mysql.go:36-46 | writes status and time of the row and nothing else |
| MailService.EmailService.SendConfirmation | services/email/internal/consumer/consumer.go:82-90 | the email to the address names the payload's booking, event, date, venue and quantity |
| MailService.EmailService.Consume | services/shared/pkg/kafka/consumer.go:43-72 | each message it moves past has been judged truthfully; neither position nor committed offset moves back; in a calm environment n turns move past n messages, or to the end of the log |
| MailService.EmailService.ConsumeOne | services/shared/pkg/kafka/consumer.go:44-71 | in a calm environment one turn moves past one message, and commits it and leaves its booking with a row exactly if it is a ticket message of a registered topic; a new booking gets one row and one email, a known one nothing |
| MailService.EmailService.ReadMessage | services/shared/pkg/kafka/consumer.go:44-61 | a message is dispatched if and only if its topic has a handler and its payload can be decoded; otherwise the loop goes on to the next one |
| RetryLadder.FiveSendsThenDead | services/email/internal/sender/retry.go:48-95 | with a provider that always fails, at most five sends, 60, 300, 900, 3600 and 14400 seconds or more after the one before; dead exactly with the fifth, no earlier than 321 minutes after the last attempt |
| RetryLadder.SendsExactly | services/email/internal/sender/retry.go:49-69 | a pending record with k failed attempts is sent if and only if k is below five and the k-th of 1, 5, 15 minutes, 1 and 4 hours has passed since its last attempt |
| RetryLadder.DeadInTime | services/email/internal/sender/retry.go:30-95 | polled at least every gap seconds, it is dead at the first poll 321 minutes and four gaps after the last attempt |
| RetryLadder.SendsAreBounded | services/email/internal/sender/retry.go:48-101 | whatever the provider answers, five sends at most, and none once the record is sent or dead |
| RetryLadder.LadderTotal | services/email/internal/sender/retry.go:11-17 | the five backoffs add up to 321 minutes |
| RetryLadder.ProcessRetry | services/email/internal/sender/retry.go:48-102 | for each retry count, last attempt and answer: whether the provider is asked, after which wait, and the status, retry count and last attempt left behind; the same as one poll of the ladder |
| RetryLadder.BackgroundRetry | services/email/internal/sender/retry.go:30-46 | over any number of rounds each record runs its own ladder, independent of the others |
| PayloadCodec.RoundsToNearest | services/shared/pkg/kafka/producer.go:10-16 | a number decoded into the untyped field becomes the nearest float64, an even significand on a tie |
| PayloadCodec.PrintsItself | services/shared/pkg/kafka/producer.go:49-53 | a float64 number below 2^54 that is at most 2^53 or even is encoded as itself and as nothing else |
| PayloadCodec.InexactIsLost | services/shared/pkg/kafka/producer.go:49-53 | an odd number between 2^53 and 2^54 never comes out again |
| PayloadCodec.RelayedTwice | services/shared/pkg/kafka/consumer.go:57-58 | passing a document through untyped fields twice is passing it through once |
| PayloadCodec.HandledFields | services/ticket/internal/publisher/publisher.go:22-30 | the document that the handler decodes has the seven keys of the payload, the texts of the purchase under theirs and each number after one hop under its own |
| PayloadCodec.PayloadArrives | services/email/internal/consumer/consumer.go:46-54 | for all strings and all ids and quantities up to 2^53, the handler decodes the payload that the purchase built, and nothing else |
| PayloadCodec.PayloadArrivesExactly | services/ticket/internal/outbox/relay.go:83-87 | below 2^54 every payload has an outcome, and it can be the payload itself, and then is nothing else, if and only if each number is at most 2^53 or even |
| PayloadCodec.JourneyExists | services/ticket/internal/outbox/relay.go:83-87 | every payload, with numbers of any size, makes the journey with some outcome |
| PayloadCodec.ReadableExactly | services/email/internal/consumer/consumer.go:46-54 | numbers of any size: the handler can decode the payload at all if and only if the nearest float64 of each number is below the end of its integer type (2^64 for ids, 2^63 for quantities) |
| Pipeline.NoLossNoPhantom | services/ticket/internal/outbox/relay.go:50-97 | every committed ticket's event is unpublished in the outbox or in the log; every message, on topic ticket.purchased, holds a committed ticket's booking, user, event and quantity and its event's name, date and venue |
| Pipeline.CommittedIsEligible | services/ticket/internal/outbox/relay.go:61-66 | the outbox row of a booking can be claimed from the moment of its commit, with no attempts yet |
| Pipeline.SentMeansBookedAndDelivered | services/email/internal/consumer/consumer.go:56-103 | a row marked sent means that a Send to its recipient returned nil, that its booking is a committed ticket, and that it is the booking's only row; below 2^54 it names the user of that ticket if and only if the id is at most 2^53 or even |
| Pipeline.HandlerReadsTheTicket | services/email/internal/consumer/consumer.go:46-54 | every message of the log announces a committed ticket; with numbers below 2^54 the handler decodes that ticket's booking, user, event and quantity and its event's name, date and venue if and only if each number is at most 2^53 or even |
| Pipeline.EveryMessageDecodes | services/ticket/internal/outbox/relay.go:83-89 | whatever a relay does next, the handler will make something of the message it appends |
| EmailContents.ConfirmationsTellTheTicket | services/email/internal/consumer/consumer.go:82-90 | every confirmation that the handler had delivered names a committed ticket and its event's name, date and venue; below 2^54 its quantity is the one bought if and only if that is at most 2^53 or even |
| Pipeline.PurchasesUndisturbed | services/ticket/internal/outbox/relay.go:50-97 | the purchase part of a pipeline run is a run of the purchase system alone |
| Pipeline.PipelineConservation | services/ticket/internal/service/purchase_service.go:85-124 | no oversell with relays and email service running |
| PipelineProgress.UnpublishedIsReadied | services/ticket/internal/outbox/relay.go:61-81 | from every state with the invariant, each unpublished row can be brought to a relay that is about to publish it, however many rows come before it |
| PipelineProgress.ConfirmationStillComesExactly | services/shared/pkg/kafka/consumer.go:43-72 | in every reachable state of the pipeline, a committed booking without a status row gets one in some continuation if and only if a ticket message of it lies at or above the committed offset, or its topic is registered, its numbers fit, and its outbox row is unpublished or about to be published by a relay |
| RateLimiter.AgreesStep | services/shared/pkg/middleware/ratelimit.go:42-66 | if the window outlasts the key by fewer nanoseconds than the limit, one request is decided as the full history of served requests decides it |
| RateLimiter.DecideIsFair | services/shared/pkg/middleware/ratelimit.go:42-66 | for every window, one request: a refusal has limit served requests in its window, a served one found room in the last window or time to live, and the set stays in step with what was served |
| RateLimiter.WindowHasRoom | services/shared/pkg/middleware/ratelimit.go:54-66 | when a request is served, what the set forgot lies a time to live before the key's last reset, so that the window holds fewer served requests than the limit |
| RateLimiter.ServedIsAdmitted | services/shared/pkg/middleware/ratelimit.go:42-66 | under the same condition, the requests served are those that the limiter that forgets nothing admits |
| RateLimiter.AgreesExactly | services/shared/pkg/middleware/ratelimit.go:42-66 | one limiter, any limit and window: it decides every sequence of requests exactly as the limiter that forgets nothing if and only if its window outlasts the key by fewer nanoseconds than its limit, or the limit admits nothing |
| RateLimiter.AgreesExactlyWhenKeyOutlivesWindow | services/shared/pkg/middleware/ratelimit.go:42-66 | every limit: the pruned, expiring set decides as the limiter that forgets nothing for all limits if and only if the window is a whole number of seconds or less than one |
| RateLimiter.ExpiresTooEarly | services/shared/pkg/middleware/ratelimit.go:65 | for any other limiter: after a burst of limit requests, one more at the end of the key's life is served, although the full history refuses it |
| RateLimiter.SpansHoldAtMostLimit | services/shared/pkg/middleware/ratelimit.go:54-66 | for every window, any interval as long as the window or the key's time to live, whichever is shorter, holds at most limit served requests |
| RateLimiter.WindowsHoldAtMostLimit | services/shared/pkg/middleware/ratelimit.go:54-66 | one limiter: no interval as long as the window, wherever it starts, holds more than limit served requests, if and only if the window outlasts the key by fewer nanoseconds than the limit |
| RateLimiter.RefusalsAreDeserved | services/shared/pkg/middleware/ratelimit.go:54-61 | for every window, a request is refused only if limit requests were served in the window that ends with it |
| RateLimiter.Limiter.Middleware | services/shared/pkg/middleware/ratelimit.go:37-70 | extends the address's history of served requests exactly when it serves, refuses only with limit of them in the window, decides by the full history if the window outlasts the key by fewer nanoseconds than the limit, and leaves other addresses alone |

## Left out

- HTTP handlers, routing, JSON responses, wiring, event listing, history and pagination, the wording of emails, logging and correlation ids: they add only easy members.
- Redsync's quorum and the in-process lock map: the lease is an arbitrary answer, so nothing is said about who holds or releases it.
- The internals of MySQL, Kafka and Redis clients beyond what is listed above as given.
- Seeding and any other writer of `events`: it resets inventory and is outside a run.
- Date parsing, the time zones of DATETIME defaults and sub-second rounding: the past-event check is a free answer, and the outbox has one whole-second clock.
- Widths of integer columns: tokens, ids and counters are unbounded.
- AES-GCM, SHA-256, bcrypt, sessions and registration: the address lookup of the handler is an oracle that may fail.
- PublishTicketPurchased and Publish (`publisher.go:34-37`, `producer.go:36-46`): nothing in the purchase path calls them.
- The ticker and the context inside Run (`relay.go:32-46`): Drain is one burst of back-to-back calls, without other relays in between; those are in the transition system.
- Several consumers or partitions, and rebalancing.
- email_status.ticket_id, which the handler fills with the event id: no decision reads it.
- The rule of the wiki that an unsent confirmation dies after 24 hours (`wiki/concepts/email-retry-strategy.md:31`): the code has no such rule.
- RetryLadder.FiveSendsThenDead: holds of a record whose fields survive between polls, as in the test repository; with the MySQL repository every record is read with retry count 0, so that the second to fifth rungs are never used and RetriesAreMinuteApart and RetriesAreUnbounded say what happens instead.
- RetryLadder.BackgroundRetry: a round whose query fails is a round that is not listed.
- PayloadCodec.PayloadArrivesExactly: for numbers from 2^54 up only JourneyExists and ReadableExactly hold, not which of them arrive unchanged; quantities are not negative, as the purchase refuses those that are not positive.
- Pipeline.SentMeansBookedAndDelivered: for user ids from 2^54 up it does not say which user the row names, for the same reason.
- PayloadCodec.Encode: strings are values; escaping and invalid UTF-8 are not modelled, nor are the envelope's own string fields, which every hop decodes into typed fields.
- OutboxTiming.LeasesExclude: needs relays that finish within their leases, since mark and retry match a row by id alone; ExclusionLostExactlyWhenLate says what happens without.
- RateLimiter.ExpiresTooEarly: a key is taken to be gone at the very instant at which it expires; were it gone only after it, the nanoseconds in the exact condition could be one more.
- RateLimiter.AgreesExactly: requests of one address are served one at a time, each at a single instant, with later instants for later requests and no Redis error; float64 rounding of scores, requests between the two pipelines and the fail-open branch are not modelled. That EXPIRE counts whole seconds and rounds a shorter window up to one is the client library's behaviour, which is not part of this repository.
