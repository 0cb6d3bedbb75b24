# Verified model of the chat backend

This project models the Go services under `apps/api` of a team-chat application and proves what they
promise: the event pipeline (outbox, consumers, webhooks), the circuit breaker with its four callers, the
sliding-window rate limiter, the channel-message store, roles with their cache, the WebSocket hub, and two
arithmetic kernels (byte ranges, one-time codes).

Code that changes state is a class or a method here, proved against a value-level function; what the code
promises is then proved about that function, about all runs of a step system, or both. Where several
processes interleave, a `Sys` value, an `Action` datatype, `Enabled` and `Apply` give one atomic step each
(one store call, one SQL statement, one RPC, a crash, a tick of the clock), and `Run` executes any sequence
of steps. The loops of the consumer, the outbox ticker and the webhook handler are methods as well, and each
is proved to be a run of its step system. Times are integer milliseconds. A Redis key is live up to and
including its expiry instant.

Modules: `Wrappers`; `Breaker`, `Dispatcher`, `RpcTiming`, `RpcRetry`, `ChannelClient`; `Redis`, `DedupKeys`, `Consumer`, `Webhook`,
`WebhookPipeline`, `WebhookRefinement`; `Outbox`, `OutboxWorkers`, `OutboxDrain`, `OutboxRefinement`;
`RateLimiter`; `MessageStore`, `ReactionRace`; `Roles`, `RoleStaleness`, `OwnerSafety`; `Hub`; `ByteRange`;
`Totp`.

`dafny verify dfyconfig.toml` checks everything.

## Where the code does not do what one might expect

Each of these is a lemma with a concrete input or run, beside the exact condition under which the code does
meet the property.

- `GetOwner` has a branch for a nil reply with a nil error that reports nothing. The client generated from the
  service contract allocates its reply before the call and never takes that branch, so with it no sequence of
  Join, Leave and GetOwner leaves the breaker half-open (`ChannelClient.PresentRepliesHoldNoProbe`). A client
  that did return nil would keep the probe taken and every later request refused
  (`ChannelClient.NilReplyLeaksProbe`): between completed calls the breaker is half-open if and only if that has
  happened (`ChannelClient.HalfOpenIffLeaked`).
- A handler that outlives its 30 s lease is overtaken by a second worker (`Consumer.SlowHandlerIsOvertaken`).
  Sections of at most d milliseconds exclude each other in every run if and only if d is at most 30 000
  (`Consumer.ExclusionIff`).
- A reaction removal that overlaps an uncommitted add of the same reaction deletes nothing, yet is logged
  after the add (`ReactionRace.OverlappingRemovalDiverges`). The log and the reaction table agree throughout a
  concurrent run if and only if no removal misses a row this way (`ReactionRace.ReactionLogFaithfulIff`).
- A member promoted to OWNER can lose the role again to an update that passed its checks before the promotion
  and is written after it (`OwnerSafety.PromotedOwnerCanBeDemoted`). No OWNER role is ever at risk along a run
  if and only if no step of it promotes a member while such a demotion of the same member is pending, which is
  visible before the promoting write (`OwnerSafety.OwnersSafeIff`); a promotion made nonetheless can be undone
  at once (`OwnerSafety.PromotionIsLost`). A workspace's creator never loses the role
  (`OwnerSafety.CreatorStaysOwner`).
- The rate limiter's script drops scores equal to the cutoff and `shouldAllowSlidingWindow` keeps them, so the
  comparison is with a window one millisecond shorter. Two calls of one connection in the same millisecond that
  draw the same random suffix are counted once, and a call too many is let through
  (`RateLimiter.RepeatedSuffixSlipsThrough`). The script decides as the plain count does, at every rate, if and
  only if no two calls inside the window share millisecond and suffix (`RateLimiter.RefinesSlidingWindowIff`).
- Registering a connection again after it was unregistered makes a later broadcast send on a closed channel
  (`Hub.ReRegistrationPanics`); the gateway never does this, and without it the hub is safe (`Hub.HubSafe`).

## Model

| member | source | states |
|---|---|---|
| Breaker.CircuitBreaker.constructor | apps/api/internal/breaker/circuitbreaker.go:36-52 | A new breaker is closed with clamped limits and is in a consistent state. |
| Breaker.LimitsTaken | apps/api/internal/breaker/circuitbreaker.go:36-52 | Usable limits are taken as they are; a limit below one becomes one, a negative timeout none. |
| Breaker.Allowed | apps/api/internal/breaker/circuitbreaker.go:56-73 | In a consistent state a request is admitted iff the circuit is closed, or open with the reset timeout over; the latter takes the one probe slot; a refusal changes nothing. |
| Breaker.CircuitBreaker.Allow | apps/api/internal/breaker/circuitbreaker.go:56-73 | The method computes `Allowed` on all six fields and keeps consistency. |
| Breaker.CircuitBreaker.RecordSuccess | apps/api/internal/breaker/circuitbreaker.go:75-87 | New state as `Succeeded`; a consistent breaker is never left half-open. |
| Breaker.CircuitBreaker.RecordFailure | apps/api/internal/breaker/circuitbreaker.go:89-103 | New state as `Failed`; a consistent breaker is never left half-open. |
| Breaker.CircuitBreaker.AbortProbe | apps/api/internal/breaker/circuitbreaker.go:107-113 | New state as `Aborted`; a consistent breaker is never left half-open. |
| Breaker.MachineInvariant | apps/api/internal/breaker/circuitbreaker.go:56-125 | After any sequence of calls by any callers: half-open iff the probe slot is taken, closed iff failures < limit, otherwise failures = limit. |
| Breaker.ProbeDecides | apps/api/internal/breaker/circuitbreaker.go:75-125 | The probe's success closes the circuit with no failures counted; its failure or abort reopens it for a whole reset timeout from then. |
| Breaker.LateReportsIgnored | apps/api/internal/breaker/circuitbreaker.go:75-113 | No report changes an open circuit, and an abort does not change a closed one. |
| Breaker.SuccessForgetsFailures | apps/api/internal/breaker/circuitbreaker.go:75-103 | After a success that finds the circuit not open, any run without a further success and with fewer than failureLimit failures leaves it closed with exactly those failures counted. |
| Breaker.OpensIff | apps/api/internal/breaker/circuitbreaker.go:75-103 | A circuit closed so far opens at an event iff the run then ends in failureLimit failures with no success between them. |
| Breaker.NoAdmissionAfterOpening | apps/api/internal/breaker/circuitbreaker.go:56-125 | With a nondecreasing clock nothing is admitted within the reset timeout of an opening, whatever is reported in between. |
| Breaker.OneProbeAtATime | apps/api/internal/breaker/circuitbreaker.go:66-71 | Between two admissions of a circuit that was not closed lies a report or an abort. |
| Breaker.UsesHoldNoProbe | apps/api/internal/breaker/circuitbreaker.go:56-125 | Callers that report exactly once per admission, one after another, never leave the breaker half-open; it admits iff closed or past the reset timeout. |
| Breaker.HalfOpenAwaitsReport | apps/api/internal/breaker/circuitbreaker.go:56-125 | In every interleaving of any number of callers, each reporting one or more times, a half-open breaker has an admitted caller that has yet to report; with none left it admits iff closed or past the reset timeout. |
| Dispatcher.Dispatcher.BreakerFor | apps/api/internal/webhook/dispatcher.go:107-116 | One breaker object per URL, created on first use and never shared or replaced; no breaker's state changes. |
| Dispatcher.Dispatcher.Send | apps/api/internal/webhook/dispatcher.go:53-105 | The call's result, request count and new breaker state are those of `SentTo`; breakers of other URLs are untouched. |
| Dispatcher.Deliver | apps/api/internal/webhook/dispatcher.go:59-104 | The attempt loop, with its early exits, computes `SendFrom`. |
| Dispatcher.CallMeaning | apps/api/internal/webhook/dispatcher.go:59-104 | An admitted call makes attempts until one does not fail, the caller stops waiting, or three are made; a failure is no answer or one of 500 or more and reports a failure, any answer below 500 reports a success, a caller that has gone aborts; the last attempt gives the result. |
| Dispatcher.UnusedUrl | apps/api/internal/webhook/dispatcher.go:107-116 | A URL's first breaker is closed and has the dispatcher's limits. |
| Dispatcher.UrlsAreIndependent | apps/api/internal/webhook/dispatcher.go:53-116 | A call to one URL leaves every other URL's breaker as it is. |
| Dispatcher.FirstDecisiveAttemptDecides | apps/api/internal/webhook/dispatcher.go:59-104 | The first attempt that is not retried alone decides the result and the number of requests; three retryable ones exhaust the call. |
| Dispatcher.SendFromReleasesProbe | apps/api/internal/webhook/dispatcher.go:59-104 | Every exit of an admitted call leaves the breaker consistent and not half-open, after at most three requests. |
| Dispatcher.NoLeakedProbe | apps/api/internal/webhook/dispatcher.go:53-128 | After any sequence of completed calls the breaker is not half-open and admits again once the reset timeout has passed. |
| Dispatcher.AdmissionsCostTime | apps/api/internal/webhook/dispatcher.go:53-105 | While every attempt fails, each admission makes exactly three requests, and all admissions but those a closed circuit still tolerates cost one reset timeout each. |
| Dispatcher.LoadBound | apps/api/internal/webhook/dispatcher.go:53-105 | In any L milliseconds a failing receiver is admitted at most ceil(failureLimit/3) + floor(L/resetTimeout) times, and gets at most three times that many requests. |
| RpcRetry.Do | apps/api/internal/rpcretry/retry.go:21-71 | Refused iff there is a breaker that refuses; otherwise the trace is `DoFrom` and the breaker gets exactly one report, at the end. |
| RpcRetry.Attempts | apps/api/internal/rpcretry/retry.go:29-70 | The attempt loop computes `DoFrom` and reports its one result to the breaker. |
| RpcRetry.OperationsHoldNoProbe | apps/api/internal/rpcretry/retry.go:21-71 | Operations run one after another never leave their breaker half-open; it admits iff closed or past the reset timeout. |
| RpcRetry.WithinDeadline | apps/api/internal/rpcretry/retry.go:12-71 | If calls keep their 1 s limit: one to four calls, over within 4.6 s, so the 5 s deadline never fires, and a context error only if the caller's context ended. |
| RpcRetry.RepliesIff | apps/api/internal/rpcretry/retry.go:30-65 | For calls of any length: a reply is returned iff some attempt is made and succeeds, and an attempt is made iff every earlier one failed transiently before both deadlines and its whole wait fitted. |
| RpcRetry.ReportOfOutcome | apps/api/internal/rpcretry/retry.go:29-70 | For every script a reply reports a success, an ended context an abort, and any other error a failure. |
| RpcRetry.FourthCallDecides | apps/api/internal/rpcretry/retry.go:12-65 | Three calls that fail as unavailable or late are retried after 100, 200 and 300 ms, and the fourth decides. |
| RpcRetry.FirstCallEnds | apps/api/internal/rpcretry/retry.go:30-65 | A success, another failure, and a caller that goes during the call or the wait each end the operation at once, with their report and time. |
| RpcRetry.DeadlineEnds | apps/api/internal/rpcretry/retry.go:16-64 | The operation's own deadline aborts it 5 s after its start, or at the end of a call that lasts longer. |
| ChannelClient.Client.constructor | apps/api/internal/channelclient/client.go:29-36 | The client's breaker opens after 5 failures and resets after 30 s. |
| ChannelClient.Client.JoinOrLeave | apps/api/internal/channelclient/client.go:38-71 | Join and Leave ask once and report exactly one of success, abort, failure. |
| ChannelClient.SingleCallMeaning | apps/api/internal/channelclient/client.go:38-71 | A successful Join or Leave closes the circuit and forgets failures, a failed one counts or reopens, and one whose caller has gone reopens a probe and counts for nothing else. |
| ChannelClient.Client.GetOwner | apps/api/internal/channelclient/client.go:75-118 | Lookup, rejoin and wait rounds with their early exits and reports, as `OwnerFrom`. |
| ChannelClient.LastLookupDecides | apps/api/internal/channelclient/client.go:82-118 | All lookups but the last failed transiently; the last one alone decides outcome, report and number of rejoins; every exit but the one for a nil reply reports once. |
| ChannelClient.FourthLookupDecides | apps/api/internal/channelclient/client.go:82-118 | Three transient failures are each followed by a rejoin and a wait of 100, 200 and 300 ms, and the fourth lookup decides outcome and report. |
| ChannelClient.FirstLookupEnds | apps/api/internal/channelclient/client.go:82-114 | A reply, another failure, and a caller that goes during the first wait each end the lookup at once. |
| ChannelClient.DeadlineEnds | apps/api/internal/channelclient/client.go:79-114 | The 5 s deadline ends the first wait, or the lookup at that point if it is past already. |
| ChannelClient.ProbeLeaksIff | apps/api/internal/channelclient/client.go:87-92 | An admitted lookup leaves the probe taken iff it was the probe and its reply was nil. |
| ChannelClient.HalfOpenIffLeaked | apps/api/internal/channelclient/client.go:38-118 | After any sequence of completed Join, Leave and GetOwner calls the breaker is half-open iff an earlier probing lookup got a nil reply; then everything is refused, otherwise it admits again after the reset timeout. |
| ChannelClient.PresentRepliesHoldNoProbe | apps/api/services/contracts/channelpb/channel_grpc.pb.go:44-51 | With replies as the generated client returns them, never nil, no sequence of completed calls leaves the breaker half-open; it admits iff closed or past the reset timeout. |
| ChannelClient.NilReplyLeaksProbe | apps/api/internal/channelclient/client.go:87-89 | What the nil-reply branch would do: a concrete call that keeps the probe taken. |
| Redis.RedisStore.Exists | apps/api/internal/kafka/consumer.go:43-46 | True iff the key is live. |
| Redis.RedisStore.SetNX | apps/api/internal/kafka/consumer.go:48-50 | Wins iff the key is not live; only then the value and expiry are set. |
| Redis.RedisStore.Set | apps/api/internal/kafka/consumer.go:52-54 | Sets value and expiry unconditionally. |
| Redis.RedisStore.CompareAndDelete | apps/api/internal/kafka/consumer.go:56-59 | Deletes the key iff it is live and holds the given token. |
| DedupKeys.RenderInjective | apps/api/internal/kafka/consumer.go:102-103 | For consumer names without a colon, two marker or lease keys are equal only if consumer, kind and event id are, whatever the ids contain. |
| DedupKeys.KeysNeverCollide | apps/api/cmd/core/main.go:373-493 | Over the seven wired prefixes no marker or lease key ever collides with another. |
| DedupKeys.WiredNames | apps/api/cmd/core/main.go:373-493 | The seven consumers that are wired. |
| Consumer.CommitSafety | apps/api/internal/kafka/consumer.go:84-146 | Over all runs of any workers with redelivery, store errors, lost replies and crashes: a message is committed only if it does not parse or a handler call for its event has returned nil. |
| Consumer.HandledMeansReturned | apps/api/internal/kafka/consumer.go:126-130 | The set of handled events is exactly the events for which some handler call of the run returned nil. |
| Consumer.LeaseExclusion | apps/api/internal/kafka/consumer.go:111-138 | If every claimed section ends within 30 s, no two workers are in a section for the same event at once. |
| Consumer.ExclusionIff | apps/api/internal/kafka/consumer.go:61-138 | Sections of at most d ms exclude each other in every run iff d <= 30 000. |
| Consumer.SlowHandlerIsOvertaken | apps/api/internal/kafka/consumer.go:61-64 | For every event and every d beyond the lease, a run with sections of at most d ms in which a second worker overtakes the first. |
| Consumer.NeverDeletesForeignLease | apps/api/internal/kafka/consumer.go:56-59 | With no premise on timing, a live lease is only ever ended by the worker whose token it holds. |
| Consumer.MarkerPersists | apps/api/internal/kafka/consumer.go:131-135 | No step removes a marker or moves its expiry forward. |
| Consumer.MarkedEventNotHandledAgain | apps/api/internal/kafka/consumer.go:104-113 | An iteration that checks a marker stored earlier, before it expires, goes straight to the commit without calling the handler. |
| Consumer.CommittedIsMarked | apps/api/internal/kafka/consumer.go:104-138 | Over all runs, every committed message that parses has its processed marker in the store. |
| Consumer.CompletedNotHandledForADay | apps/api/internal/kafka/consumer.go:104-135 | For 86 400 000 ms after its completion reached the store, an event that is checked again goes straight to the commit, whatever all workers did in between. |
| Consumer.SectionCommits | apps/api/internal/kafka/consumer.go:126-138 | A section whose calls work ends with the event handled and committed, its marker good for 24 h from then, and its lease gone. |
| Consumer.FailedSectionFreesEvent | apps/api/internal/kafka/consumer.go:126-130 | A section whose handler fails commits nothing and gives the lease back, so the next attempt can handle the event at once. |
| Consumer.DuplicateIsCommitted | apps/api/internal/kafka/consumer.go:104-113 | A fetched message whose marker is live is committed without a handler call. |
| Consumer.UnparseableIsCommitted | apps/api/internal/kafka/consumer.go:95-100 | A fetched message without an event id is committed without a handler call. |
| Consumer.StoreCallMeaning | apps/api/internal/kafka/consumer.go:43-59 | Claim, Complete and Release take effect on exactly their own key unless lost, with 30 s and 24 h expiries, and let the worker go on only without an error. |
| Consumer.CrashMeaning | apps/api/internal/kafka/consumer.go:84-140 | A crash resets one worker and touches neither the store nor the commits. |
| Consumer.Runner.Iterate | apps/api/internal/kafka/consumer.go:84-140 | One pass through the loop against the store takes exactly the protocol steps `Steps` in that order, and commits iff the event does not parse, has a live marker, or was claimed, handled and recorded without error. |
| Consumer.Runner.Process | apps/api/internal/kafka/consumer.go:126-138 | Handler, marker, release, commit: the steps of a claimed section for every outcome of each call. |
| Webhook.DeliveryTable.MarkDelivered | apps/api/services/database/webhook_deliveries.sql.go:33-50 | Inserts the pair if absent and reports how many rows were inserted. |
| Webhook.ServeTarget | apps/api/internal/webhook/consumer.go:46-75 | One target: check, send through its breaker, record if delivered or permanently rejected, as `Serve`. |
| Webhook.HandleMessageSent | apps/api/internal/webhook/consumer.go:18-77 | The call's results, errors, delivery rows and breaker states are those of serving the listed targets in order; direct messages and deleted channels return nil and change nothing. |
| Webhook.FanoutRows | apps/api/internal/webhook/consumer.go:61-75 | The rows afterwards are those from before plus exactly the resolved targets whose insert landed; `RecordedIff` says what resolved means. |
| Webhook.TriedIff | apps/api/internal/webhook/consumer.go:47-61 | A target is handed to the dispatcher iff its check worked and the pair was not recorded before the call. |
| Webhook.FailedIff | apps/api/internal/webhook/consumer.go:45-77 | The call returns nil iff every target was recorded before or delivered or rejected and recorded without error. |
| Webhook.ResolvesIff | apps/api/internal/webhook/consumer.go:61-68 | A target is resolved iff its breaker admits the call and some attempt is answered below 500, all earlier ones having failed and been waited out. |
| Webhook.RecordedIff | apps/api/internal/webhook/consumer.go:46-75 | A listed webhook is recorded afterwards iff it was before, or its check worked, it was answered below 500, and the insert was not lost. |
| Webhook.NilIff | apps/api/internal/webhook/consumer.go:45-77 | The call returns nil iff every webhook's check worked and it was recorded before, or was answered below 500 and recorded without error. |
| Webhook.NilMeansRecorded | apps/api/internal/webhook/consumer.go:45-77 | If the call returns nil, every listed webhook is recorded for the event. |
| WebhookPipeline.RefinesConsumer | apps/api/cmd/core/main.go:461-480 | Every interleaved run of handlers, webhook changes and consumers projects to a run of the consumer protocol. |
| WebhookPipeline.CommittedEventIsDelivered | apps/api/internal/webhook/consumer.go:32-77 | End to end, over all interleavings: from any moment when no call for an event is in progress or has returned nil, once its offset is committed, every webhook its workspace had then and still has is recorded for it, unless the channel has been deleted. |
| WebhookPipeline.CommittedEventIsResolved | apps/api/internal/webhook/consumer.go:41-77 | A committed event has a handler call that returned nil, and each webhook that call listed, none if it skipped the event, is recorded or has been deleted. |
| WebhookPipeline.SendsStayInWorkspace | apps/api/internal/webhook/consumer.go:20-46 | An event is only ever sent to webhooks of its own channel's workspace, and a direct message to none. |
| WebhookPipeline.SendsAreLogged | apps/api/internal/webhook/consumer.go:61 | The log of sends grows by exactly the pair of each send. |
| WebhookPipeline.RecordedNeverResent | apps/api/internal/webhook/consumer.go:47-61 | Over all later steps, while the webhook exists, a recorded pair is sent again only by a call that had already checked it and stood right before that send; calls that start later or have yet to check it never send it. |
| WebhookPipeline.UnresolvedShrinks | apps/api/internal/webhook/consumer.go:46-76 | Over any number of redeliveries the unresolved part of a fixed list only shrinks. |
| WebhookRefinement.HandlerIsARun | apps/api/internal/webhook/consumer.go:41-77 | An uninterrupted handler call is a run of the pipeline that ends with the rows of `Fanout` and can return nil iff `Fanout` collected no error. |
| Outbox.OutboxTable.Enqueue | apps/api/services/database/outbox.go:18-21 | Adds one unclaimed, unpublished row with no attempts. |
| Outbox.OutboxTable.ClaimPending | apps/api/services/database/outbox.go:40-70 | Claims the oldest claimable rows up to the limit; stamps, re-tokens and counts exactly those. |
| Outbox.ClaimableIff | apps/api/services/database/outbox.go:43-48 | A row can be claimed iff it is unpublished, not locked, and unclaimed or claimed more than 30 000 ms ago by the host's clock. |
| Outbox.StaleClaimIsTaken | apps/api/services/database/outbox.go:40-58 | With room for all rows, an unpublished row claimed more than 30 s ago is in every selection. |
| Outbox.FreeRowIsTaken | apps/api/services/database/outbox.go:40-58 | With room for all rows, an unpublished unclaimed row is in every selection. |
| Outbox.ClaimMeaning | apps/api/services/database/outbox.go:51-55 | A claim stamps, re-tokens and counts exactly the rows it takes, and keeps them from other claims for 30 s. |
| Outbox.ConclusionMeaning | apps/api/services/database/outbox.go:104-112 | Under its token an acknowledgement publishes the row and a release frees it, under another token neither changes anything; other rows stay. |
| Outbox.OutboxTable.MarkPublished | apps/api/services/database/outbox.go:104-107 | Publishes the row iff it is still under the token. |
| Outbox.OutboxTable.ReleaseClaim | apps/api/services/database/outbox.go:109-112 | Frees the row iff it is still under the token. |
| Outbox.SelectOldest | apps/api/services/database/outbox.go:42-50 | The selection is distinct, as large as the limit allows, and no row left out is older than one taken. |
| OutboxWorkers.PublishedWasSent | apps/api/cmd/core/main.go:676-702 | Over all runs of any publishers with crashes, stolen claims and lost calls: a row marked published had a PublishRaw call that returned nil. |
| OutboxWorkers.PublishedIsFinal | apps/api/services/database/outbox.go:40-112 | A published row stays published and its attempts never change again. |
| OutboxWorkers.FencedWorkerNeverWrites | apps/api/services/database/outbox.go:104-112 | A worker whose token on a row has been replaced never changes that row again, however the run goes on. |
| OutboxWorkers.CallsWithinAttempts | apps/api/cmd/core/main.go:684-699 | The PublishRaw calls made for a row never exceed its attempts counter. |
| OutboxWorkers.AttemptsCountClaims | apps/api/services/database/outbox.go:52 | Over all runs a row's attempts counter is the number of claims that took it. |
| OutboxWorkers.CrashedClaimIsRetaken | apps/api/services/database/outbox.go:40-58 | A row whose publisher has crashed is taken by any later claim with room, once its claim is more than 30 s old by the host's clock. |
| OutboxWorkers.FaultMeaning | apps/api/cmd/core/main.go:684-699 | A crash loses the publisher's work but no row, an unseen claim still holds its rows, and a lost acknowledgement or release changes nothing. |
| OutboxWorkers.ExactlyOnce | apps/api/cmd/core/main.go:684-699 | If claims are concluded within 30 s and no database call is lost: at most one PublishRaw call of a row returns nil, a row marked published has exactly one, and the broker then holds exactly one record of it iff no failing call had stored one; with no publisher at work every other row is free and had none. |
| OutboxWorkers.StoredMoreIff | apps/api/cmd/core/main.go:690-694 | The broker holds more records of a row than calls returned nil iff some call erred after its record was stored. |
| OutboxDrain.Tick | apps/api/cmd/core/main.go:684-699 | One tick claims up to 100 of the oldest rows and leaves each acknowledged, released or claimed as its publish and the call after it ended. |
| OutboxDrain.CleanTickPublishes | apps/api/cmd/core/main.go:684-699 | A tick in which everything works publishes exactly the min(100, n) oldest of n pending rows. |
| OutboxDrain.BacklogDrains | apps/api/cmd/core/main.go:676-702 | A backlog of n unpublished rows, each unclaimed or claimed more than 30 s before the first tick, with no arrivals is empty after ceil(n/100) such ticks, each row taken by exactly one of them. |
| OutboxRefinement.TickIsARun | apps/api/cmd/core/main.go:684-699 | The loop of one tick is a run of the publisher protocol reaching exactly the table and the publish calls of `Tick`. |
| RateLimiter.ShouldAllowSlidingWindow | apps/api/internal/gateway/rate_limiter.go:33-49 | The loop decides by the number of past calls in the closed window. |
| RateLimiter.Limiter.Allow | apps/api/internal/gateway/rate_limiter.go:54-91 | The script prunes, counts, adds and renews the expiry, rejected calls included, as `Decide`. |
| RateLimiter.Limiter.AllowN | apps/api/internal/gateway/rate_limiter.go:94-105 | Succeeds iff all n calls are allowed; stops at the first refusal; the state is that of the calls made. |
| RateLimiter.KeptIsWithin | apps/api/internal/gateway/rate_limiter.go:57-77 | Pruning and key expiry lose nothing: the set counted is the part of the whole history inside the window. |
| RateLimiter.IdleKeyExpires | apps/api/internal/gateway/rate_limiter.go:62-76 | A call is counted until one second after its window by the server's clock, and nothing is from then on. |
| RateLimiter.DecidesOnDistinctMembers | apps/api/internal/gateway/rate_limiter.go:57-77 | Every call is allowed iff fewer than `rate` distinct members of the whole history are in the window. |
| RateLimiter.AgreesAtRateIff | apps/api/internal/gateway/rate_limiter.go:33-77 | At a given rate the script and `shouldAllowSlidingWindow` on all past calls, with a window one millisecond shorter, decide alike iff the rate is not above the distinct members and at most the calls in the window. |
| RateLimiter.RefinesSlidingWindowIff | apps/api/internal/gateway/rate_limiter.go:33-77 | The two decide alike at every rate iff no two calls inside the window share millisecond and suffix. |
| RateLimiter.RefinesSlidingWindow | apps/api/internal/gateway/rate_limiter.go:33-77 | With distinct members inside the window, whatever came before, the two decide alike. |
| RateLimiter.RepetitionSlipsThrough | apps/api/internal/gateway/rate_limiter.go:67-76 | Any repetition inside the window lets a call through that the plain count refuses, at the limit just reached. |
| RateLimiter.RepeatedSuffixSlipsThrough | apps/api/internal/gateway/rate_limiter.go:67-76 | At any time and window, two calls with the same millisecond and suffix let a third through a limit of two. |
| RateLimiter.RateBound | apps/api/internal/gateway/rate_limiter.go:54-91 | At most `rate` calls are allowed in any `window` milliseconds in which no two calls share millisecond and suffix. |
| MessageStore.Tx.Body | apps/api/internal/message/handler.go:236-982 | Each of the six closures, stopping at its first failing statement, reaches `Committed` iff every statement works. |
| MessageStore.Store.InTx | apps/api/services/database/tx.go:14-30 | All of the transaction or nothing of it, wherever it breaks off; success means committed. |
| MessageStore.CommitMatchesEvent | apps/api/internal/message/handler.go:236-982 | Each commit appends exactly its event, and the event replayed changes the visible tables as the commit did. |
| MessageStore.CommitsIff | apps/api/internal/message/handler.go:236-982 | When each of the six transactions can commit, in terms of the message's existence. |
| MessageStore.FoundMeansEnabled | apps/api/internal/message/handler.go:665-686 | A request that has found its message in its channel can commit whenever its statements can. |
| MessageStore.RowsKeepTheirOrigin | apps/api/services/database/messages.sql.go:85-118 | In every reachable state each row has the author, channel and parent of the request that inserted it. |
| MessageStore.OutboxIsFaithful | apps/api/internal/message/handler.go:236-982 | After any run of transactions that take effect serially, with aborts anywhere, replaying the outbox rebuilds every message's content and deleted flag and the one-per-user reaction table. |
| MessageStore.StepChildren | apps/api/services/database/messages.sql.go:114-118 | A step adds a child to a message iff it commits a reply to it, and then exactly that reply. |
| MessageStore.StepCounts | apps/api/services/database/messages.sql.go:227-231 | Every step keeps reply_count equal to the number of rows pointing at the message. |
| MessageStore.ThreadForest | apps/api/internal/message/handler.go:665-686 | In every state reachable by serial transactions parent links are acyclic and stay in one channel, and reply_count is the number of children, soft-deleted ones included. |
| ReactionRace.StepAgreesIff | apps/api/services/database/messages.sql.go:524-573 | At READ COMMITTED a commit breaks the agreement of log and reaction table iff it is a removal that saw no row although one is there by now. |
| ReactionRace.ReactionLogFaithfulIff | apps/api/internal/message/handler.go:772-903 | The reaction log rebuilds the table throughout a concurrent run iff no removal misses a row. |
| ReactionRace.OverlappingRemovalDiverges | apps/api/internal/message/handler.go:898-903 | For any reaction, a removal overlapping its uncommitted add leaves the reaction in the table with the removal last in the log. |
| Roles.RoleStore.RequirePermission | apps/api/internal/auth/roles.go:71-102 | With a coherent cache, decision and role equal the uncached ones, whatever cache reads and writes fail. |
| Roles.PermissionTable | apps/api/services/authlib/permission/matrix.go:6-28 | OWNER and ADMIN hold all six elevated permissions, every other role none. |
| Roles.UncachedIff | apps/api/internal/auth/roles.go:85-102 | An elevated operation is open to a member iff the role is OWNER or ADMIN. |
| Roles.RoleStore.AddMember | apps/api/services/database/workspace.sql.go:52-55 | Inserts the row iff absent and keeps the cache coherent. |
| Roles.RoleStore.UpdateMemberRole | apps/api/internal/workspace/handler.go:326-366 | Succeeds iff the requester may set that role for that target; changes exactly that row; keeps the cache coherent. |
| Roles.RoleStore.RemoveMember | apps/api/internal/workspace/handler.go:368-398 | Succeeds iff the requester may remove the target; removes exactly that row; keeps the cache coherent. |
| Roles.UpdateTable | apps/api/internal/workspace/handler.go:332-357 | Which role may give which role to whom: only an OWNER makes an OWNER, an ADMIN sets ADMIN or MEMBER on those who are not owners, nobody else changes a role. |
| Roles.RemoveTable | apps/api/internal/workspace/handler.go:374-391 | An OWNER removes anybody who is not an owner, an ADMIN only those who are neither, nobody else anybody. |
| Roles.PromotedByOwner | apps/api/internal/workspace/handler.go:346-349 | Over any serial run every owner was one at the start, was inserted as one, or was promoted by somebody who was an owner then. |
| Roles.OwnersNeverShrink | apps/api/internal/workspace/handler.go:326-398 | Over any serial run of inserts, role updates and removals the OWNER set never shrinks. |
| RoleStaleness.StalenessBound | apps/api/internal/permission/cache.go:24-43 | In every interleaving, a cached role that is used was the table's role no earlier than now minus the TTL minus its reader's read-to-set delay. |
| RoleStaleness.StoredRoleIsFound | apps/api/internal/permission/cache.go:24-50 | A role read and stored is found by exactly the checks within the TTL, and not after an invalidation. |
| RoleStaleness.StaleOnlyFromOverlap | apps/api/internal/permission/cache.go:45-50 | After an invalidation, until the row changes again, a stale cached role comes only from a reader that read before it and stored after it. |
| OwnerSafety.CreatorStaysOwner | apps/api/internal/workspace/handler.go:64-398 | In every interleaving of the handlers' reads, checks and writes, with stale caches and crashes, a creator once inserted as OWNER stays OWNER. |
| OwnerSafety.PromotersWereOwners | apps/api/internal/workspace/handler.go:346-358 | In every interleaving, whoever becomes OWNER is a creator or is promoted by a request whose requester held OWNER in that workspace at some point of the run. |
| OwnerSafety.RemoversOfAdminsWereOwners | apps/api/internal/workspace/handler.go:387-391 | In every interleaving, a request about to remove a member it saw as ADMIN has a requester who held OWNER, and none is about to remove one it saw as OWNER. |
| OwnerSafety.RowAfter | apps/api/services/database/workspace.sql.go:52-268 | The only steps that change a member row, and to what. |
| OwnerSafety.PermittedIff | apps/api/internal/auth/roles.go:71-102 | A request goes on iff the role it read is OWNER or ADMIN. |
| OwnerSafety.UpdateCheckIff | apps/api/internal/workspace/handler.go:342-357 | When a role update passes its checks. |
| OwnerSafety.RemoveCheckIff | apps/api/internal/workspace/handler.go:382-391 | When a removal passes its checks. |
| OwnerSafety.InviteUsedOnce | apps/api/services/database/workspace.sql.go:68-73 | Over all runs an accepted invite is never accepted again. |
| OwnerSafety.OwnersSafeIff | apps/api/internal/workspace/handler.go:326-366 | Over all runs from the empty system: in no state can the next step take an OWNER role away iff no step writes OWNER over another role while another request's demotion of that member is checked and unwritten. |
| OwnerSafety.OwnersGrowUnlessPromotedOver | apps/api/internal/workspace/handler.go:64-398 | In every interleaving without such a promotion the OWNER set never shrinks. |
| OwnerSafety.StepUnthreatenedIff | apps/api/internal/workspace/handler.go:326-398 | From a reachable state with no pending demotion of an owner, a step leads to such a state iff it is not such a promotion. |
| OwnerSafety.PromotionIsLost | apps/api/internal/workspace/handler.go:354-358 | After such a promotion the pending write is enabled and takes the OWNER role away. |
| OwnerSafety.UpdateReachesWrite | apps/api/internal/workspace/handler.go:332-358 | An owner's update of a plain member passes every check and stands before its write. |
| OwnerSafety.PromotedOwnerCanBeDemoted | apps/api/internal/workspace/handler.go:326-366 | From any state with an owner, a member and two free handlers, an interleaving that promotes the member to OWNER and then demotes them. |
| Hub.Hub.Register | apps/api/internal/gateway/hub.go:52-60 | Adds the connection to its user's set and changes nothing else. |
| Hub.Hub.Unregister | apps/api/internal/gateway/hub.go:64-79 | Removes exactly this connection, closes its channel once, and drops the user's set when empty. |
| Hub.Hub.SubscribeToChannel | apps/api/internal/gateway/hub.go:81-90 | Adds the user to the channel and changes nothing else. |
| Hub.Hub.BroadcastToChannel | apps/api/internal/gateway/hub.go:110-131 | Whatever order the maps are walked in, every registered connection of every subscriber is offered the message exactly once, and no other. |
| Hub.Hub.BroadcastPresence | apps/api/internal/gateway/hub.go:95-108 | Every registered connection is offered the message once per channel its user shares with the subject. |
| Hub.OfferTimesEnqueues | apps/api/internal/gateway/hub.go:119-128 | n offers enqueue exactly n copies, or as many as fit into 256. |
| Hub.HubSafe | apps/api/internal/gateway/hub.go:52-131 | Over every run without re-registration: no send on or second close of a closed channel, closed iff unregistered, no empty connection set, and each queue is bounded and the unsent end of an in-order selection of what its user was subscribed to. |
| Hub.RunSubscribed | apps/api/internal/gateway/hub.go:81-90 | Over all runs a user is subscribed to a channel iff some subscription said so. |
| Hub.RunRegistered | apps/api/internal/gateway/hub.go:52-79 | Over all runs a connection is registered iff some registration of it was not followed by its unregistration. |
| Hub.BroadcastHeardIff | apps/api/internal/gateway/hub.go:110-131 | After any run a connection accepts a broadcast iff it was registered and not unregistered since, its user has subscribed, and fewer than 256 messages wait. |
| Hub.ReRegistrationPanics | apps/api/internal/gateway/hub.go:52-79 | Re-registering an unregistered connection makes the next broadcast it would hear send on a closed channel. |
| ByteRange.ParseDecimal | apps/api/internal/upload/delivery.go:275-287 | Printing and parsing any int64 in decimal gives it back. |
| ByteRange.SignedDecimals | apps/api/internal/upload/delivery.go:275-291 | Decimals parse with or without a sign exactly as far as they fit into 64 bits. |
| ByteRange.OnlyNumbersParse | apps/api/internal/upload/delivery.go:275-291 | Nothing but digits after an optional sign is a number. |
| ByteRange.PartialIff | apps/api/internal/upload/delivery.go:267-269 | A request is for a part iff the size is positive and the header starts with `bytes=`. |
| ByteRange.ValidIff | apps/api/internal/upload/delivery.go:270-298 | Which texts around the dash are valid. |
| ByteRange.NoDashIsInvalid | apps/api/internal/upload/delivery.go:270-273 | A range without a dash is invalid. |
| ByteRange.PartialInBounds | apps/api/internal/upload/delivery.go:266-300 | Every valid partial result has 0 <= start <= end < size, and its length fits the object and int64. |
| ByteRange.SuffixStartFits | apps/api/internal/upload/delivery.go:279-283 | The subtraction for a suffix range never leaves int64. |
| ByteRange.FromToRoundTrip | apps/api/internal/upload/delivery.go:284-298 | Parsing the printed `s-e` gives [s, min(e, size-1)] iff s < size and s <= e, otherwise unsatisfiable. |
| ByteRange.FromRoundTrip | apps/api/internal/upload/delivery.go:284-298 | Parsing the printed `s-` gives everything from s on iff s < size. |
| ByteRange.LastRoundTrip | apps/api/internal/upload/delivery.go:274-283 | Parsing the printed `-k` gives the last min(k, size) bytes iff k > 0. |
| ByteRange.AnswerIsNormalForm | apps/api/internal/upload/delivery.go:266-300 | Every accepted header, in whatever spelling, means the same as the printed interval of its result. |
| ByteRange.PrepareRangeResponse | apps/api/internal/upload/delivery.go:301-343 | Skipping and filling the buffer serve exactly the requested slice with its Content-Range, 416 if the object is too short, and the whole object without a range. |
| ByteRange.WholeObjectServed | apps/api/internal/upload/delivery.go:267-343 | Without a Range header, or with one in another unit, the whole object is served. |
| ByteRange.PartServed | apps/api/internal/upload/delivery.go:301-330 | Otherwise an invalid range, or one the object is too short for, is refused, and a valid one gets exactly its bytes. |
| ByteRange.PiecesRebuildObject | apps/api/internal/upload/delivery.go:301-343 | The bodies answering any consecutive cut of an object, joined, are the object. |
| Totp.CounterRoundTrip | apps/api/services/authlib/totp/totp.go:86-88 | The big-endian counter loses nothing. |
| Totp.CodeForStep | apps/api/services/authlib/totp/totp.go:86-99 | For any 20-byte HMAC the truncation stays in bounds; the method, with its running modulus, computes `CodeFor`, six decimal digits. |
| Totp.TruncationMeaning | apps/api/services/authlib/totp/totp.go:92-93 | The offset is the low nibble of the digest's last byte, and the value is the four bytes from there with the top bit cleared. |
| Totp.TruncationExample | apps/api/services/authlib/totp/totp.go:92-98 | The example of RFC 4226 section 5.4: 0x50ef7f19, code 872921. |
| Totp.GeneratedIff | apps/api/services/authlib/totp/totp.go:31-40 | A code exists iff the secret decodes to a nonempty key and the time is not before the epoch, and belongs to the 30 s step of that time. |
| Totp.CodeValue | apps/api/services/authlib/totp/totp.go:90-98 | The code is six digits and, read as a decimal number, the truncated hash modulo 10^6 (RFC 4226 section 5.3), so different remainders have different codes. |
| Totp.OnlySixDigitsMatch | apps/api/services/authlib/totp/totp.go:50-57 | Nothing but six digits can be accepted, so the early rejections reject nothing that would match. |
| Totp.VerifyWithStep | apps/api/services/authlib/totp/totp.go:49-73 | Accepts iff the code belongs to a nonnegative step within one of now, returns such a step, and prefers the current to the previous to the next. |
| Totp.DriftWindow | apps/api/services/authlib/totp/totp.go:31-73 | A code generated at t verifies at every t' with a distance of at most 30 s, and from 60 s on only if it is the code of another step as well. |

## Left out

- MessageStore: transactions take effect one after another in commit order; how READ COMMITTED overlaps change that is modelled for reactions only (`ReactionRace`).
- MessageStore: the attachment statement of send, the outbox topic and the payload fields beyond ids, content and emoji; reply_count as an unbounded integer.
- MessageStore: scheduled messages and direct-message edits and deletions, which do not go through the outbox.
- Consumer: when a message is fetched again is left open (redelivery is always possible, never promised); the event id is an input, so the JSON decoding and the SHA-256 fallback of `EventDedupKey` are not modelled.
- WebhookPipeline: a call that listed a webhook before it was deleted may still send to it; the no-resend theorem therefore speaks of webhooks that still exist. A workspace's deletion is the deletion of its channels and webhooks. An event id stands for one payload.
- Webhook: request signing, the listing queries and the HTTP client; each attempt's end is an input.
- OutboxWorkers: the retries inside `PublishRaw` count as one call, with at most one record stored; the loop that issues the ticks and its shutdown are not modelled.
- OutboxWorkers.ExactlyOnce: needs that the publishing host's clock is not ahead of the database's, since the age of a claim is judged on the host.
- RpcRetry: when a wait ends in the same millisecond as a context, the timer wins; Go may pick either. The same holds for ChannelClient.
- RateLimiter: script errors and the caller's reaction to them; the server's clock is assumed to gain at most one second on the caller's between two calls.
- RoleStaleness: roles are read and stored by key only; the HTTP checks around `RequirePermission` are not modelled.
- OwnerSafety: expiry of invites and the public-channel memberships added after a join.
- Hub: connections are identifiers in a map instead of pointers; the presence snapshot that is written straight to a new connection's queue; `RedisHub` and both presence managers.
- ByteRange: read errors other than running out of data, response headers other than Content-Range, and thumbnails.
- Totp: HMAC-SHA-1, base32 decoding and the random secret are parameters or absent; replay protection is the caller's.
- HTTP routing, JSON, cookies, tokens, gRPC stubs, Elasticsearch, MinIO, image scaling, telemetry and the user interface: I/O or libraries.
- `slugify`, `allowedType`, notifications, search documents and the remaining queries: short functions and single statements with no state of their own.
