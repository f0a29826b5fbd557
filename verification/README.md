# A verified model of rabbitmq-kit-go

rabbitmq-kit-go is a Go library over AMQP 0-9-1: publishing with confirms, batches,
consumers with retries, a circuit breaker and automatic dead-letter queues.  This
project models its four stateful components in Dafny and proves what they keep over
whole runs.  `dafny verify dfyconfig.toml` checks everything.

**Publisher confirms.**  `ConfirmCore` is the state the publisher's mutex guards.
`PublisherMonitor` (Publisher.dfy) has its atomic sections as methods on heap channels,
where closing a closed channel, sending on one, or filling a full one is a precondition
failure.  `ConfirmProtocol` is the interleaved step system: increment, register, send,
route, sweep, reset, listen, time out, cancel, clean up, plus the broker, dying channels
and reconnects.  On its runs stand channel safety (`ConfirmSafety`), the accounting of
tags (`ConfirmTags`), the origin of every reported verdict (`ConfirmVerdicts`,
`ConfirmMessages`, `ConfirmOrigin`, `ConfirmSoundness`), who keeps a place in the map and
who takes it (`ConfirmEviction`, `ConfirmEvictors`), who can still report
(`ConfirmAnswers`), and runs that show what goes wrong (`ConfirmHazards`,
`ConfirmLosses`).  `ConfirmOutcomes` ties every way a publish can end to the step that
causes it, and `PublishOutcomes` says what all this makes of one publish.

**Circuit breaker.**  `CircuitBreaker` is the object, `BreakerHistory` says what its
counters mean in terms of the events of a run, `BreakerProgress` couples it to messages
that report an outcome or, without a handler, do not.

**Message life cycle.**  `Messages` has headers, the worker's decision, dead-lettering
and requeue as functions; `Consumer` one worker and the retry handler with shared,
mutable header tables; `Workers` any number of workers, interleaved, on one queue and
one breaker; `Lifecycle` the broker with every copy of every message and the
ledger over all runs; `LifecycleHistory` what each step means for the copies and what the
ledger counts; `LifecycleInvariants` the retry bound and the way home;
`DlqRequeue` the bulk requeue loop.

**Batches and topology.**  `Batch` has both publishing modes as loops and the proof that
one refines the other; `BatchFates` says what both report, in terms of the fates of the
messages.  `Topology` compiles queue configurations to declarations, with
the shared `Args` maps as objects; `ExchangeTypes` has the matching rules of the four
exchange types; `DlqRouting` proves where rejected messages go.

## Where the code differs from what is written about it

- docs/CIRCUIT_BREAKER.md:33 allows `halfOpenRequests` requests in half-open; the code
  admits one more, because the request that makes the transition is not counted
  (`BreakerHistory.CountersAreHistory`).
- publisher.go:228-344 is described as tracking each message by its delivery tag.  A
  failed send, sends in another order than the tags, or a router that outlives its
  epoch make `Publish` return nil for a message the broker nacked (`ConfirmHazards`).
  With epochs kept apart the verdict is that of the message numbered with the tag
  (`ConfirmOrigin.VerdictOfTag`); if moreover sends follow the order of the tags, it is
  the publish's own exactly when no earlier send on the channel failed
  (`ConfirmSoundness.ConfirmSoundness`).
- publisher.go:99-147 resets the epoch first and listens on the new channel at least 10 ms
  later; another publish can send in between, and a confirmation that arrives before
  the listener is lost (`ConfirmLosses.AckBeforeListenerIsLost`).
- publisher.go:177-185 drops a confirmation that finds nobody registered under its tag.  A
  publish overtaken between its increment and its registration then waits for a
  confirmation that has already been dropped (`ConfirmLosses.AckBeforeRegistrationIsLost`).
- config/config.go:33 and README.md:160 promise guaranteed delivery with confirms.  A retry or a
  requeue acks the original as soon as `Publish` returns nil, which without confirms
  (the default) means only that the message was written, and with them can answer for
  another message; then the message vanishes (`Lifecycle.FalseConfirmationVanishes`,
  `PublishOutcomes.FalselyConfirmedIsReachable`).  `Lifecycle.VanishesIffLost` has the
  exact condition.
- publisher.go:265-271 deletes by tag, so a late cleanup can take a newer publish's
  registration (`ConfirmEviction.LateCleanupEvicts`); with quiet swaps only publishes of
  earlier epochs do (`ConfirmEvictors.EvictorsAreLate`).
- publisher.go:460-467 closes a result channel outside the lock and can close it twice
  (`ConfirmSafety.SweepThenFailedSlotPanics`).
- docs/BATCH_PUBLISHING.md:57-62 splits `Total` into `Success` and `Failed`; in the
  pipelined mode an event that does not serialise is sent as an empty message and
  counted twice (`Batch.PipelineAccounting`).
- config/config.go:355 suggests a dead-letter exchange of type topic, and config/dlq.go:8 promises
  one dead-letter queue per queue; with a fanout or headers exchange every dead-letter
  queue gets every rejected message, and with a topic exchange a queue name with
  wildcards gets other queues' (`DlqRouting.OwnDLQExactly`, `DlqRouting.OneOrAll`).
- client.go:299 copies the queue "to avoid modifying the original", but the `Args` map
  is shared: a second queue with the same map dead-letters to the first queue's DLQ
  (`DlqRouting.OwnDLQIffMapNotShared`).
- eventbus.go:340-347 drops message id, correlation id, type and the other identity
  properties that a retry keeps (`Messages.RequeueRoundTrip`).
- consumer.go:61 says that an exhausted message is acknowledged; it is nacked without
  requeue (`Messages.RetryTermination`).

## Model

| member | source | states |
|---|---|---|
| PublisherMonitor.Publisher.constructor | internal/broker/publisher.go:32-53 | a new publisher has no pending call and tag counter 0, registered with the client's channel |
| PublisherMonitor.Publisher.Increment | internal/broker/publisher.go:253-254 | the counter advances by one, nothing else changes, the monitor invariant stays |
| PublisherMonitor.Publisher.RegisterCall | internal/broker/publisher.go:256-262 | a fresh open, empty channel is stored under the tag; the invariant that every pending channel is open, empty and under its one tag stays |
| PublisherMonitor.Publisher.Cleanup | internal/broker/publisher.go:265-271 | removes the entry under the tag, whoever owns it, leaves no channel of that tag in the map, and keeps the invariant |
| PublisherMonitor.Publisher.CloseOwn | internal/broker/publisher.go:460-467 | after its entry is deleted, a failed batch slot closes its channel without the mutex: the fault and the new state in both cases, still open or already closed, with the invariant kept |
| PublisherMonitor.Publisher.Route | internal/broker/publisher.go:171-186 | the waiting channel gets the verdict, is closed and forgotten, without panic or blocking in any valid state; unknown tags change nothing |
| PublisherMonitor.Publisher.Sweep | internal/broker/publisher.go:160-168 | every pending channel is closed exactly once and the map emptied; all other channels are untouched |
| PublisherMonitor.Publisher.EnsureEpoch | internal/broker/publisher.go:99-124 | resets exactly when the channel changed: pending channels closed once, map empty, counter 0, new channel id |
| ConfirmCore.RouteEffect | internal/broker/publisher.go:171-186 | from a clean state routing never faults, and its whole effect is to fill and close the one waiting channel and forget it |
| ConfirmSafety.ChannelSafety | internal/broker/publisher.go:85-272 | in every interleaving every pending channel is open, empty and under one tag; and the run has no double close, no send after close and no blocking under the mutex if and only if no batch slot with a failed send closes its channel after a sweep, reset or routed confirmation took it |
| ConfirmSafety.PublishIsAlwaysSafe | internal/broker/publisher.go:252-272 | any number of `Publish` calls with routers, sweeps and resets never faults, under every interleaving |
| ConfirmSafety.SweepThenFailedSlotPanics | internal/broker/publisher.go:443-467 | a run in which a sweep falls between a batch slot's registration and its failed send, and the close panics |
| ConfirmTags.TagAccounting | internal/broker/publisher.go:85-288 | when no channel swap falls between a publish's setup and its send: counter = broker's number + failed sends + publishers in flight, across any number of reconnects; at rest it agrees with the broker if and only if no send on the channel failed |
| ConfirmTags.ResetFindsNoneInFlight | internal/broker/publisher.go:99-124 | under that hypothesis an epoch reset never lands between another publish's lock and its send |
| ConfirmTags.SwapInWindowBreaksAccounting | internal/broker/publisher.go:252-288 | a run with a swap in the window that leaves counter and broker number apart with nothing in flight and no failed send |
| ConfirmVerdicts.NoInventedVerdict | internal/broker/publisher.go:290-323 | in every interleaving, nil means the broker acked, and ErrPublishNotConfirmed that it nacked, a message carrying the publish's own tag as its number on some channel the publisher then listened to |
| ConfirmOutcomes.OutcomeExactly | internal/broker/publisher.go:228-344 | in every interleaving a finished publish returned the error of a refused send, a cancellation, a closed client, a missing channel, a time-out or closed result channel, a nack, or nil, if and only if its own steps have the one that causes it; one that found the client closed or without channel took no tag and sent nothing |
| ConfirmOutcomes.CleansUpExactly | internal/broker/publisher.go:265-271 | in every interleaving a finished publish has run its deferred cleanup if and only if it registered and did not return nil, a batch slot if and only if it timed out; a batch slot has deleted its entry and closed its channel if and only if its send failed |
| ConfirmMessages.OwnMessageExactly | internal/broker/publisher.go:171-323 | in every interleaving a reported verdict is the broker's on the message numbered with the publish's tag on the channel that answered it, and that is its own message if and only if this is the channel of the send and tag and number agree |
| ConfirmOrigin.VerdictOfTag | internal/broker/publisher.go:99-192 | with quiet swaps and the old router gone before the first registration of a new epoch, whatever it does until then and in whatever order publishes send: the reported verdict is the one on the message numbered with the publish's tag on the channel it was sent on, and its own message if and only if tag and number agree |
| ConfirmSoundness.ConfirmSoundness | internal/broker/publisher.go:252-341 | if also the publishes in flight, any number of them, send in the order of their tags: the reported verdict is the one on the message `lag` places after the publish's own, `lag` being the earlier failed sends on that channel; it is its own message if and only if `lag` is 0 |
| PublishOutcomes.VerdictIsFinal | internal/broker/publisher.go:290-341 | in every interleaving, once the broker has decided the message of a finished publish, whether it was confirmed, falsely confirmed, refused, or taken but reported as an error does not change any more |
| PublishOutcomes.SoundPublishIsTruthful | internal/broker/publisher.go:290-323 | under these hypotheses a publish without earlier failed sends that returns nil is and stays confirmed, and one that reports a nack is and stays refused |
| PublishOutcomes.FalselyConfirmedIsReachable | internal/broker/publisher.go:252-323 | without them a run in which nil is returned for a message the broker has nacked |
| PublishOutcomes.TakenButErroredIsReachable | internal/broker/publisher.go:325-337 | a run, with epochs apart, in which a publish times out although the broker acked its message |
| ConfirmHazards.ReorderedSendsSwapVerdicts | internal/broker/publisher.go:252-284 | a run with two publishes in flight where one returns nil although the broker nacked its message |
| ConfirmHazards.FailedSendShiftsVerdicts | internal/broker/publisher.go:274-288 | a run where after a failed send the next publish returns nil although its message was nacked |
| ConfirmHazards.StaleRouterCrossesEpochs | internal/broker/publisher.go:126-192 | a run where a confirmation held across a reset answers a publish of the new epoch wrongly |
| ConfirmHazards.FailedSlotShiftsBatch | internal/broker/publisher.go:430-468 | a run in which a failed send does not stop a batch, and the next message waits under a tag that is not its number |
| ConfirmHazards.OverlappingResetsDoubleConfirmations | internal/broker/publisher.go:126-147 | a run in which two resets set up listeners on the same channel, and routers receive a confirmation twice |
| ConfirmEviction.HoldsPlaceIffNotEvicted | internal/broker/publisher.go:259-271 | in every interleaving a waiting publish is still registered, or its channel closed to wake it, if and only if no other publish deleted or overwrote its registration |
| ConfirmEvictors.EvictorsAreLate | internal/broker/publisher.go:252-271 | with quiet swaps no registration is ever overwritten, and every deletion of another publish's registration is the cleanup of a publish that registered in an earlier epoch |
| ConfirmAnswers.EvictedNeverReports | internal/broker/publisher.go:259-271 | in every interleaving and every continuation an evicted publish reports neither ack nor nack |
| ConfirmAnswers.CanReportIffAnswerable | internal/broker/publisher.go:126-192 | with epochs apart, a waiting publish can report a verdict in some continuation if and only if a verdict is in its channel, or it is registered and either a copy of its confirmation is unread or in a router's hands, or the confirmation is undecided, its channel lives, and the broker has given out as many numbers as its tag or the client is still on the channel |
| ConfirmLosses.AckBeforeListenerIsLost | internal/broker/publisher.go:99-147 | a run, with epochs apart, in which a publish keeps its registration, the broker acks its message before the resetting publish has registered the listener, and no continuation lets it report |
| ConfirmLosses.AckBeforeRegistrationIsLost | internal/broker/publisher.go:171-185 | a run, with epochs apart and a living channel, in which the confirmation numbered with a publish's tag is routed and dropped before the publish is registered, and no continuation lets it report although the broker acks its message |
| ConfirmEviction.LateCleanupEvicts | internal/broker/publisher.go:265-271 | a run where the cleanup of a timed-out publish of the old epoch evicts a waiting publish of the new one |
| CircuitBreaker.WithDefaults | internal/circuitbreaker/circuitbreaker.go:79-95 | the configuration in use is always valid, a valid one is kept, and each field that is not positive becomes 5 failures, 60 seconds or 3 requests |
| CircuitBreaker.CircuitBreaker.constructor | internal/circuitbreaker/circuitbreaker.go:79-95 | a new breaker is closed with zero counters |
| CircuitBreaker.CircuitBreaker.SetStateTo | internal/circuitbreaker/circuitbreaker.go:233-242 | records state and time, and reports the change only if there is a callback and the state differs |
| CircuitBreaker.CircuitBreaker.AllowRequest | internal/circuitbreaker/circuitbreaker.go:100-134 | answer and whole new state are those of the step function the run theorems are about |
| CircuitBreaker.CircuitBreaker.RecordSuccess | internal/circuitbreaker/circuitbreaker.go:139-161 | whole new state is that of the step function |
| CircuitBreaker.CircuitBreaker.RecordFailure | internal/circuitbreaker/circuitbreaker.go:166-189 | whole new state is that of the step function |
| CircuitBreaker.CircuitBreaker.ResetToClosed | internal/circuitbreaker/circuitbreaker.go:216-230 | whole new state is that of the step function |
| BreakerHistory.ReachableStates | internal/circuitbreaker/circuitbreaker.go:100-189 | in every reachable state the counters are in range for the state, and the reported changes form one connected path over the allowed edges from closed to the current state |
| BreakerHistory.CountersAreHistory | internal/circuitbreaker/circuitbreaker.go:100-189 | in every run the closed failure count is the failure suffix of the stay; half-open counts the successes of an episode without failures and has admitted exactly `halfOpenRequests` + 1 requests, never more than HalfOpenMaxRequests + 1 |
| BreakerHistory.OpenFailuresAreHistory | internal/circuitbreaker/circuitbreaker.go:166-189 | in every run an open breaker shows the failures that opened it, MaxFailures or one, and those reported since |
| BreakerHistory.TimesAreHistory | internal/circuitbreaker/circuitbreaker.go:216-242 | in every run the time of the last change is the clock reading of the event that began the current stay, the time of the last failure that of the latest failure, and the callback has heard of every change of state, in order, and nothing else |
| BreakerHistory.AdmittedExactly | internal/circuitbreaker/circuitbreaker.go:100-134 | in every run a request is admitted if and only if the breaker is closed, or open since ResetTimeout, or half-open with at most HalfOpenMaxRequests admitted before in the episode |
| BreakerHistory.TransitionsExactly | internal/circuitbreaker/circuitbreaker.go:100-242 | when each change of state happens, both directions, for every run and every next event, in terms of the events since the last change |
| BreakerHistory.OpenWindow | internal/circuitbreaker/circuitbreaker.go:111-121 | with a clock that does not go back, every request until ResetTimeout after opening is refused unless reset, and failures meanwhile do not move the window |
| BreakerHistory.WindowEnds | internal/circuitbreaker/circuitbreaker.go:111-121 | the first request is admitted, and starts half-open, exactly from the end of the window on |
| BreakerHistory.WindowOfOpening | internal/circuitbreaker/circuitbreaker.go:111-121 | in every run, whichever event opens the breaker, every request earlier than ResetTimeout after the clock reading of that event is refused unless there is a reset, whatever is reported meanwhile, and the first one from then on is admitted and starts half-open |
| BreakerProgress.PoolIsHistory | internal/broker/consumer.go:150-262 | in every run the outstanding messages are those with a handler that were let in less the reports, and the silent ones those without a handler let in since the breaker last became half-open |
| BreakerProgress.HalfOpenProgress | internal/circuitbreaker/circuitbreaker.go:123-156 | in every run, when a half-open breaker is saturated, outstanding handlers and messages admitted without a handler together outnumber the missing successes; it can get stuck if and only if fewer handlers are out than successes are missing, hence never with at most one such message, nor if every message has a handler; and it stays half-open through further events if and only if they bring no failure, no reset and fewer successes than are missing |
| BreakerProgress.MovesIffOutstanding | internal/broker/consumer.go:150-262 | from any time on, some run without a reset, on a clock that does not go back, moves a saturated breaker if and only if a handler is still out |
| BreakerProgress.SticksIffTooFewOut | internal/circuitbreaker/circuitbreaker.go:139-189 | from a saturated state and any time on, some such run brings in all reports and never leaves half-open if and only if fewer handlers are out than successes are missing |
| BreakerProgress.SilentMessagesStick | internal/broker/consumer.go:150-181 | the bound is sharp: for every configuration and any number of messages without a handler from two up to all the slots, a run on a clock that does not go back saturates the breaker with that many and it can get stuck |
| BreakerProgress.StaysHalfOpen | internal/circuitbreaker/circuitbreaker.go:139-189 | from any half-open state, exactly which runs of events stay half-open |
| BreakerProgress.SaturatedRefuses | internal/circuitbreaker/circuitbreaker.go:123-129 | a saturated half-open breaker refuses any number of requests and does not change |
| BreakerProgress.StuckHalfOpen | internal/broker/consumer.go:150-181 | for every configuration a run with messages of unregistered types, on a clock that does not go back, saturates the breaker with nothing outstanding, and no number of requests moves it |
| Messages.DeathRoundTrip | router/dlqMessage.go:59-105 | reading a dead letter gives back queue, exchange and key of the last publish, and the retry count |
| Messages.DeathIsRead | router/dlqMessage.go:59-105 | whatever the headers hold, the reader gives queue, exchange, first routing key, reason and count of the first x-death entry, each empty or zero where it is missing or malformed |
| Messages.RequeueRoundTrip | eventbus.go:317-348 | reject, dead-letter, requeue returns the message to its target with body, content type, priority, delivery mode and other headers kept, the count kept or reset, and the identity properties lost |
| Messages.CountIsRead | router/message.go:66-89 | the count read is n if and only if the header holds the integer n, or holds no integer and n is 0 |
| Messages.RequeuedExactly | eventbus.go:317-348 | a message can be requeued if and only if its latest death names a non-empty exchange and a non-empty routing key; it then goes there with its body, every header but x-death, the count 0 if that is asked for, and no identity properties |
| Messages.RepublicationKeeps | internal/broker/retry.go:54-89 | a retry adds one to the count and keeps target, body, identity and every other header |
| Messages.DecidesRightly | internal/broker/consumer.go:150-263 | a delivery is acked if and only if it was admitted and its type has no handler, its handler succeeded, or a retry was left and reported as published, and is otherwise nacked without requeue; it is republished, with one more in the count, if and only if a retry was left; and the breaker hears of exactly the handlers that ran |
| Messages.RetryTermination | internal/broker/retry.go:31-89 | an always-failing message with count c runs its handler exactly max(0, MaxRetries - c) + 1 times, ends with count max(c, MaxRetries), same target, body and identity, and is nacked without requeue |
| Consumer.Retry | internal/broker/retry.go:54-89 | refuses at the limit without touching anything; otherwise hands the republication to the publisher and leaves the new count in the delivery's own header table, whatever the publish reports |
| Consumer.Ask | internal/broker/consumer.go:111-163 | a delivery gets a trace id in its own header table, or a fresh one if it has none, and the breaker is asked: its answer and its new state |
| Consumer.Finish | internal/broker/consumer.go:165-262 | an admitted delivery: the decision on it, that the breaker is told exactly what the decision reports, and the header table shared with the republication |
| Consumer.Process | internal/broker/consumer.go:111-263 | one delivery, both halves, whatever others do to the breaker between them: a settlement, republication and report that are right for the message as delivered and the breaker's answer, the breaker's new state, and the header table shared with the republication |
| Consumer.Worker | internal/broker/consumer.go:108-266 | one worker's loop among others settles every delivery exactly once, each rightly for the message and the breaker's answer as the earlier deliveries and the other workers left it |
| Consumer.WorkerRunsBreaker | internal/broker/consumer.go:150-262 | the breaker one worker shares with others goes through a run of breaker events, its own and theirs, so all theorems about runs hold of it |
| Workers.EveryDeliverySettledOnce | internal/broker/consumer.go:106-266 | in every interleaving of any number of workers: no more deliveries in work than workers, each settled delivery keeps its one settlement, which is right for the message and for what the breaker answered in the one turn that asked about it, at most three turns per delivery, and a standstill only when every delivery is settled |
| Workers.WorkersRefinePool | internal/broker/consumer.go:106-262 | every interleaving of workers on one breaker is a run of the pool that drives it, the running handlers being its outstanding reports; if every type has a handler, a saturated breaker has more workers in handlers than successes missing, and cannot get stuck |
| Lifecycle.MessageLedger | internal/broker/consumer.go:150-263 | in every run, for every message: live copies + recorded discards + handler successes + publishes reported as successes but not taken = 1 + publishes taken but reported as errors + stops before an ack; discards are acks of unregistered types and nacks on queues without dead-letter exchange |
| LifecycleHistory.LedgerOfEvents | internal/broker/consumer.go:204-263 | in every run the ledger's counters count exactly the handler runs that succeeded, the republishes reported but not taken, and those taken but not reported together with the settlements cut off too late; with these numbers, taken from the run itself, the copies of every message balance |
| LifecycleHistory.WorkEnds | internal/broker/consumer.go:150-263 | in every run a copy worked on, once its settlement is received whatever happens in between, is a dead letter, or dropped without dead-letter exchange, if the breaker refused it, its retries were used up or its retry was reported as failed; dropped if its type has no handler; gone otherwise |
| LifecycleHistory.WorkMeans | internal/broker/retry.go:54-89 | which settlement is under way after each combination of the breaker's, the handler's and the publisher's answers, when a retry becomes a new copy and what it carries, and that no other copy changes |
| LifecycleHistory.RequeueMeans | eventbus.go:317-348 | when a requeued copy is acked and when it becomes a new copy in the main queue, and that no other copy changes |
| Lifecycle.VanishesIffLost | internal/broker/retry.go:88 | in every run a message has neither a live copy nor a recorded discard nor a handler success if and only if its losses outnumber its duplications, and they do so by at most one |
| Lifecycle.FalseConfirmationVanishes | internal/broker/consumer.go:204-250 | for every configuration with retries, every message below the limit and every queue, a run with one falsely confirmed retry and no other fault in which the message vanishes |
| Lifecycle.NothingVanishes | internal/broker/consumer.go:150-263 | if no nil error is returned for a message the broker did not take, every message has a live copy, a recorded discard or a handler success |
| Lifecycle.ExactlyOnceWithoutAmbiguity | internal/broker/consumer.go:204-263 | without publishes reported otherwise than they fared, and without stops before an ack, live copies, discards and handler successes add up to exactly one |
| LifecycleInvariants.RetryCountBound | internal/broker/retry.go:36-69 | over any cycles no count exceeds MaxRetries, exhaustion means exactly MaxRetries, and what `ShouldRetry(limit)` then answers |
| LifecycleInvariants.AlwaysComesHome | eventbus.go:317-348 | over any cycles every copy keeps the body, main-queue copies the first exchange and key, every dead-letter copy requeues to them, and a trace id once carried is carried by all descendants |
| DlqRequeue.RequeueOne | eventbus.go:317-348 | a delivery is acked exactly when its republish is reported as a success and goes back otherwise, and what the broker took |
| DlqRequeue.RequeueAll | eventbus.go:377-438 | each delivery taken is settled once as due, the count is the acks and within a positive limit, the loop ends early only at the limit or a cancelled context, and what was published |
| DlqRequeue.SettledExactly | eventbus.go:401-435 | each delivery taken is acked if and only if it was processed, has a known target and its republish was reported as a success, and otherwise goes back to the queue |
| DlqRequeue.CountExactly | eventbus.go:401-407 | the count is the number of deliveries that can be moved before the first one that finds the context cancelled, or the limit if that is positive and smaller |
| DlqRequeue.RequeueConserves | eventbus.go:401-435 | whatever the publishes report: over the deliveries processed, what the broker took together with what was lost is what the loop's settlements acked together with what was doubled, as multisets of messages, and the count is the number acked |
| DlqRequeue.HandedAreMoved | eventbus.go:401-435 | nothing is lost or doubled if and only if every verdict on a processed message with a target told what the broker did; then exactly the messages the loop acked were published again, in order |
| Batch.FirstError | publish.go:130-144 | the index of the first failure: none before it, one at it unless it is the length |
| Batch.PublishSequential | publish.go:150-167 | result, error and messages sent are those of publishing one by one up to the first failure under FailFast; an event that does not serialise, or without a channel, sends nothing |
| Batch.SendAll | internal/broker/publisher.go:406-502 | every message is sent, each slot's error is that of its own fate, and only a cancelled wait is fatal |
| Batch.PublishPipelined | publish.go:97-147 | result, error and messages sent are those of serialise all, send all, count all |
| Batch.PublishBatch | publish.go:71-94 | an empty batch is an empty result; otherwise the mode that was asked for decides |
| Batch.PipelineRefinesSequential | publish.go:97-167 | with an open client, no cancelled context and serialisable events both modes return the same result and error for either FailFast; what they send differs exactly by the events after the first failure under FailFast |
| Batch.SequentialAccounting | publish.go:150-167 | Success + Failed = Total, one error per failure, in strictly increasing order, each with its own event and error |
| BatchFates.SequentialFates | publish.go:150-167 | without FailFast the successes are the events that serialise, find an open client with a channel and are acked (or just sent, without confirms); every other event is listed exactly once with the error that explains it; and what is sent |
| BatchFates.SequentialFailsFast | publish.go:150-167 | under FailFast the error is the one that explains the first event that does not go through, the events before it are the successes, and nothing after it is sent |
| Batch.PipelineAccounting | publish.go:97-147 | Success + Failed = Total + serialisation failures, equal to Total if and only if all events serialise; failed slots are sent as the zero message |
| BatchFates.PipelineFates | internal/broker/publisher.go:406-502 | without FailFast the successes are the messages acked (or just sent, without confirms), every other one is listed with the error for its fate, every event that does not serialise is listed, nothing else is, and each message is sent with its event's exchange, type and body |
| BatchFates.PipelineFailsFast | publish.go:129-144 | under FailFast the error is the one for the first message not delivered, with the ones before it as successes |
| BatchFates.PipelineStops | publish.go:101-127 | which error stops a pipelined batch, in which order, what has been sent by then, and that only events that do not serialise are listed |
| Topology.WithDLX | config/queue.go:51-61 | leaves the arguments alone if they name a dead-letter exchange, otherwise adds exchange and key and nothing else; the map is the original's when it has one, fresh otherwise |
| Topology.SetupDLQs | internal/broker/client.go:236-295 | declares the exchange and one bound queue per configured queue, or fails at the first refusal |
| Topology.DeclareAllQueues | internal/broker/client.go:189-225 | what each queue is declared with and bound to, the refusals of declarations and bindings, and what the shared maps hold afterwards, whatever is shared with what |
| Topology.SetupTopology | internal/broker/client.go:165-228 | the broker after setup, or the refusal, as a function of the maps at the start; and every shared map holds what it held, completed for dead letters only where it named no dead-letter exchange |
| DlqRouting.SetupHolds | internal/broker/client.go:165-228 | successful setup keeps what the broker had and leaves it holding every declaration and binding |
| DlqRouting.DeclaredAsConfigured | internal/broker/client.go:189-225 | every queue is declared with its own flags and arguments, completed for dead letters only where it names no dead-letter exchange, and bound under each of its keys |
| DlqRouting.DeadLetterQueuesAsConfigured | internal/broker/client.go:236-295 | the dead-letter exchange as configured and, for every queue, a queue named by prefix and name, with the configured flags and no arguments, bound under the queue's name; every exchange as configured |
| DlqRouting.SetupAddsOnly | internal/broker/client.go:165-295 | setup adds no exchange, queue or binding but those of the configuration |
| DlqRouting.SetupAgain | internal/broker/client.go:165-228 | a broker that holds the topology accepts the same setup and does not change |
| DlqRouting.SameArgsAgain | internal/broker/client.go:298-303 | a second setup computes the same arguments in spite of the update in place |
| DlqRouting.ConnectAndReconnect | internal/broker/client.go:165-303 | any number of reconnects leaves the broker exactly as the first connect did, without refusals |
| DlqRouting.RejectedGoTo | internal/broker/client.go:236-303 | a message rejected from a queue without own dead-letter exchange goes to the DLQs whose key matches, by the exchange's type, the name of the first queue using the same `Args` map, and that queue's own DLQ is one of them; also on a broker that already has the dead-letter bindings |
| DlqRouting.OwnDLXKept | config/queue.go:55-59 | a queue with its own dead-letter exchange is declared with exactly its own arguments, and what it rejects goes where these say |
| DlqRouting.RestartQualifies | internal/broker/client.go:165-295 | the broker after a setup meets the hypothesis on dead-letter bindings again, so the routing results hold after any restart |
| DlqRouting.OneOrAll | config/dlq.go:29-31 | exactly one queue with a direct exchange, or a topic exchange and names without wildcards; every DLQ with a fanout or headers exchange |
| ExchangeTypes.WordsExactly | config/exchange.go:8 | topic keys are matched by the words between their dots, and an empty key has none |
| ExchangeTypes.HashMatches | config/exchange.go:8 | in a topic pattern `#` stands for any number of words, none included |
| ExchangeTypes.WordMatches | config/exchange.go:8 | in a topic pattern `*` stands for exactly one word and any other word for itself |
| ExchangeTypes.OthersMatchNothing | config/config.go:123-134 | an exchange of none of the four types matches nothing |
| DlqRouting.OwnDLQExactly | internal/broker/client.go:236-303 | with distinct names and any of the four types, only the queue's own DLQ gets what it rejects if and only if no earlier queue shares its map and no other queue's name matches its name |
| DlqRouting.OwnDLQIffMapNotShared | internal/broker/client.go:298-303 | with a direct exchange, or topics without wildcards, and distinct names that is so if and only if no earlier queue shares its map |
| DlqRouting.SetupSucceeds | internal/broker/client.go:165-295 | on a broker without queues and with names that do not clash, setup succeeds if and only if every queue with bindings is bound to an exchange that is there or that setup declares |

## Left out

- Dialling, QoS, channel opening, blocked-connection callbacks and reconnect liveness: network behaviour of a library that is not part of this model.
- The client's `closed` flag beyond its effect on publishing, `GetChannel`, `Close`, `IsConnected`: one-branch facts.
- The publisher's `done` and `started` fields, the 10 ms sleep and `Publisher.Close`: routers are modelled by the confirmations they hold, so when a router stops is a scheduling hypothesis, not a computed one, and a router is taken to run for every listener.
- DlqRouting.ConnectAndReconnect: exclusive and auto-delete queues are treated like any other; a broker drops an auto-delete queue with its last consumer, an exclusive one with its connection, and refuses an exclusive one to a new connection while the old one is open.
- Exchange types other than direct, topic, fanout and headers, header arguments of bindings, and the broker's refusal of unknown types and of the reserved exchange name.
- Wrap-around of the 64-bit delivery tag and of header integers: counts are unbounded, and a count is assumed to decode to the integer it was encoded from.
- Float-valued retry headers: only integer encodings are decoded.
- Handlers that settle the message themselves or panic.
- JSON, UUIDs, timestamps, loggers, error texts, functional options, `Validate`, the `direct` and `testing` packages: serialisation is success or failure, types and bodies are opaque strings.
- Termination of the bulk requeue: it is modelled over the deliveries handed out while it runs.
- Reuse of a channel's memory address as its identity: identities are fresh numbers.
- The broker's bookkeeping inside x-death beyond its first entry, which is taken to name the last publish target.
- Publishing without confirms is modelled in batches only; `Publish` without confirms is a plain send.
