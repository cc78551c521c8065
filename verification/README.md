# An agent runtime, verified

The repository is a server that runs language-model agents: a brain asks a model what to do,
a tool worker does it, a human may have to approve, and everything around them has to survive
bursts, failures and restarts. This project models the stateful kernels of that server in Dafny
and proves what holds over every run of each of them.

| file | what it models |
|---|---|
| `FixedWindowLimiter.dfy` | the fixed-window limiter of the MCP gateway, with its penalty block and its collector of old entries |
| `SlidingWindowLimiter.dfy` | the sliding-window limiter twice: over in-memory lists, and over Redis sorted sets with key expiry |
| `CircuitBreaker.dfy` | the three-state breaker, with outcomes that arrive late and out of order |
| `DurableBroker.dfy`, `DurableBrokerReceipts.dfy` | the in-process broker: competing consumers, three attempts, dead letters, cancellation |
| `Policy.dfy`, `AgentLoop.dfy`, `AgentLoopProofs.dfy`, `AgentLoopRecords.dfy` | the reason-act loop of one task as a protocol of handlers over two queues |
| `ApprovalOverlap.dfy` | approval requests that overlap each other and the handlers |
| `ToolCallStream.dfy` | assembling tool calls from a streamed answer, and dispatching them |
| `SessionContext.dfy` | a session's history, kept as windows and recent messages |
| `ContextPersistence.dfy` | saving that history to rows and loading it back |
| `GitOverlay.dfy` | the lazily loaded file overlay over a Git clone |
| `StdioProtocol.dfy` | the JSON-RPC reader over a subprocess's output (sections 4.1 and 5 of the JSON-RPC 2.0 Specification) |
| `Prelude.dfy` | options, Python slices, filters, intervals |

Every object that updates itself in place is a class with the same fields, and each of its
methods is proved to take the state where a specification function says it goes. Runs are
sequences of events applied to that function, in any order and interleaving; the theorems are
about all of them. Breakers, brokers and limiters are cut at their locks and awaits. A step of
the two workers is atomic; an approval request is atomic in `AgentLoop.dfy` and cut at its awaits
in `ApprovalOverlap.dfy`. Time is a real number given with each event. What the outside decides
(what the model answers, whether a tool exists, whether git accepts a commit, which file fails to
be written) is part of the event.

## Findings

Some behaviour the code or its comments intend holds only under a condition. Each is proved as
an equivalence, with an input or a run for the other side.

- The collector of the fixed-window limiter is invisible if and only if it spares entries
  younger than two windows (`CollectorInvisibleExactly`). The default of 3600 s against windows
  of 60 s is safe.
- The Redis limiter and the list limiter give the same answers if and only if no key is
  admitted twice at one instant (`InterchangeableExactly`): the sorted set keys its members by
  the instant, so the second admission overwrites the first.
- A half-open breaker can reject for ever, with nothing in flight, if and only if it needs more
  successes than it lets through (`WedgesExactly`). The database preset needs 5 and lets 3
  through (`Presets`).
- The maximum of calls in the half-open state bounds recorded successes, not calls: from 1 on, a
  half-open period admits any number of calls, and below that it admits one
  (`ProbesUnboundedExactly`).
- A task whose row is not found has no cap on its iterations, so the loop is sure to end if and
  only if the row is found (`EndsExactly`).
- Every dangerous call that runs is the call of a request a human granted if and only if no
  answer the model may give, all of whose arguments parse, holds a dangerous call that runs as it
  stands: unsimulated, and either an admin's or permitted to the role with the approval flag
  already set (`HumansDecideExactly`; `UnaskedCallRuns` shows the run). The code reads the flag
  from a call's arguments, wherever they come from.
- A limit of 0 asks the UI view for everything, and a negative one cuts the front off
  (`UiIsTailExactly`). With `max_recent` 0 the recent messages are never trimmed
  (`RecentBoundedExactly`).
- A schedule can lose a message if and only if it adds more than `max_recent` after the last
  flush that saved, or reloads a context with unsaved ones (`NoLossExactly`). A flush saves only
  if it finds the session's row, the context is dirty and its numbers are free: without the row
  it clears the flag and saves nothing (`FlushWithoutRowLoses`, `ClearedFlagIsSkipped`), and a
  reload without the row restarts the numbering under numbers that are taken
  (`RestartedNumberIsSkipped`).
- An approval request is not locked between the look at a pending request and its mark. A request
  is dispatched as often as approving looks found it pending, so it is dispatched at most once if
  and only if no second one looks before the first has marked it (`DispatchedOnceExactly`,
  `OverlapDispatchesTwice`).
- A read through the file overlay returns what was last written, or the clone's bytes, and nothing
  once deleted, if and only if the path was not deleted since, or has vanished
  (`OverlayRefinesMap`): it was never written, a commit took it off the disk, and no read since the
  last remount had loaded it; or it was a new file, written once, never put on disk by a commit and
  never in an accepted one (`NextFate`, `ReadsNothingExactly`).
- After an accepted commit an entry is marked unchanged although disk and reader differ if and only
  if that was so before, or its change came apart (`BehindExactly`). A change comes apart when it
  is not loaded and differs, when its write raises and leaves other bytes, since the commit passes
  errors over, or when it deletes a file that was written through the overlay (`ComesApart`).
  Two runs show it: a change restored by a remount, beside another that makes the commit acceptable
  (`UnloadedChangeIsNotCommitted`; alone, git refuses it, `UnloadedAloneIsRefused`), and a
  committed deletion, whose old bytes reads bring back (`DeletedBytesComeBack`). The only other way
  there is to write HEAD's bytes back after a refused commit (`BehindBeginsExactly`).
- "Unchanged" is decided by digests, and a clone lists git's own ids instead: there, a file's own
  bytes written back are listed as modified (`HeadBytesWrittenBack`, `UnchangedMeansHead`).
- The comments promise that the stdio client checks response ids; the code does not. Requests
  and answers stay aligned if and only if each answer is preceded by fewer than 50 notifications, no
  unreadable line, and no silence in which its request times out or is cancelled
  (`AlignedExactly`, `OneBreakMisaligns`); after the first miss the ids differ
  (`LateAnswerIsMisdelivered`).

## Model

| member | source | states |
|---|---|---|
| FixedWindowLimiter.RateLimiter.CheckRateLimit | src/services/mcp/mcp_rate_limiter.py:34-51 | a check answers and updates the key's entry as the specification says, creating it if needed, and touches no other entry |
| FixedWindowLimiter.RateLimiter.CleanupOldEntries | src/services/mcp/mcp_rate_limiter.py:53-58 | the collector removes exactly the entries whose first request is longer ago than the given age, and changes no other |
| FixedWindowLimiter.BlockEndsWithinTwoWindows | src/services/mcp/mcp_rate_limiter.py:38-48 | in every run no block lasts beyond two windows after its entry's first request |
| FixedWindowLimiter.CollectorIsInvisible | src/services/mcp/mcp_rate_limiter.py:34-58 | collector calls, each with any age of two windows or more, inserted anywhere, change no answer and no admission of any key |
| FixedWindowLimiter.EarlyCollectionShows | src/services/mcp/mcp_rate_limiter.py:53-58 | for every smaller age there is a run whose answers the collector changes: a blocked key is admitted |
| FixedWindowLimiter.CollectorInvisibleExactly | src/services/mcp/mcp_rate_limiter.py:34-58 | for a limiter that admits at least one request and has a positive window, collector calls of one age are invisible in all runs if and only if that age is at least two windows |
| FixedWindowLimiter.AdmissionsAreBounded | src/services/mcp/mcp_rate_limiter.py:34-58 | every closed interval as long as the window holds at most twice `max_requests` admissions of a key, with any such collector calls between |
| FixedWindowLimiter.PenaltyHolds | src/services/mcp/mcp_rate_limiter.py:38-58 | after a rejection that trips the block, whatever follows, such collector calls included, nothing is admitted for the key before one window has passed |
| FixedWindowLimiter.RetryTellsTheBlock | src/services/mcp/mcp_rate_limiter.py:34-51 | in every run an admission has no retry time; a refusal's is its block's remaining time in whole seconds, rounded down: before it a check is refused, a second after it one is admitted; and a block lasts exactly one window from the refusal that starts it |
| SlidingWindowLimiter.LocalRateLimiter.CheckRateLimit | src/infrastructure/resilience/rate_limiter.py:138-174 | a check prunes the key's list, admits below the limit, reports all six fields, and leaves other keys alone |
| SlidingWindowLimiter.LocalRateLimiter.Reset | src/infrastructure/resilience/rate_limiter.py:176-180 | a reset forgets the key and nothing else |
| SlidingWindowLimiter.RedisRateLimiter.CheckRateLimit | src/infrastructure/resilience/rate_limiter.py:73-115 | the sorted-set commands of a check, by their documented effect including expiry, add up to the specified step |
| SlidingWindowLimiter.RedisRateLimiter.Reset | src/infrastructure/resilience/rate_limiter.py:125-128 | a reset deletes the key's sorted set and nothing else |
| SlidingWindowLimiter.LocalRefinesLog | src/infrastructure/resilience/rate_limiter.py:144-174 | pruning is invisible: a limiter that keeps every admission answers the same, and the stored list is exactly the still-live part of that log |
| SlidingWindowLimiter.RedisMirrorsLocal | src/infrastructure/resilience/rate_limiter.py:83-115 | if no key is admitted twice at one instant, the sorted set holds exactly the instants of the list after every run, expiry included, and all statuses agree |
| SlidingWindowLimiter.RedisAgreesWithLocal | src/infrastructure/resilience/rate_limiter.py:83-115 | with a strictly increasing clock the two limiters return the same status, all fields, on every sequence of calls and resets |
| SlidingWindowLimiter.DuplicateShows | src/infrastructure/resilience/rate_limiter.py:97-100 | after a second admission at one instant, the next call tells the two limiters apart |
| SlidingWindowLimiter.InterchangeableExactly | src/infrastructure/resilience/rate_limiter.py:83-174 | the two limiters are interchangeable on a run if and only if no key is admitted twice at one instant |
| SlidingWindowLimiter.RefusedExactlyWhenFull | src/infrastructure/resilience/rate_limiter.py:156-173 | a call is admitted if and only if fewer than its limit, a whole number, were admitted in the preceding 60 s; `current` counts them, `remaining` what is left, and `retry_after` is 60 s exactly for a refusal |
| SlidingWindowLimiter.ResetAfterIsNextLapse | src/infrastructure/resilience/rate_limiter.py:163-171 | `reset_after` is exactly the time until the oldest live admission lapses, and lies between 0 and 60 s |
| SlidingWindowLimiter.RetryAfterSuffices | src/infrastructure/resilience/rate_limiter.py:109-115 | a refused caller that waits `retry_after`, with no request of the key admitted meanwhile, is admitted under any positive limit, and a refusal leaves no trace |
| SlidingWindowLimiter.SlidingWindowBound | src/infrastructure/resilience/rate_limiter.py:144-161 | with limits up to n, every interval (t - 60, t] holds at most n admissions of a key, in every run between resets |
| SlidingWindowLimiter.WholeLimitBound | src/infrastructure/resilience/rate_limiter.py:144-161 | the same bound for configured limits that are at most n as numbers |
| SlidingWindowLimiter.LogIsAnswers | src/infrastructure/resilience/rate_limiter.py:156-161 | the log these laws speak of is exactly the instants of the calls that the limiter answered with an admission since the key's last reset |
| Prelude.TruncateIsIntegerPart | src/infrastructure/resilience/rate_limiter.py:157-157 | the limit is the integer part of the configured number |
| SlidingWindowLimiter.AdmissionsAreSpaced | src/infrastructure/resilience/rate_limiter.py:144-161 | the admission n places later comes at least 60 s later |
| CircuitBreaker.CircuitBreaker.CanExecute | src/infrastructure/resilience/circuit_breaker.py:91-118 | admission, the move from open to half-open, and the rejection count are those of the specified step |
| CircuitBreaker.CircuitBreaker.RecordSuccess | src/infrastructure/resilience/circuit_breaker.py:120-135 | a success counts, closes a half-open breaker at the threshold, and clears failures otherwise |
| CircuitBreaker.CircuitBreaker.RecordFailure | src/infrastructure/resilience/circuit_breaker.py:137-161 | a tracked failure counts and stamps the time, opens at the threshold, and re-opens a half-open breaker; an untracked one does nothing |
| CircuitBreaker.CountersAreHistory | src/infrastructure/resilience/circuit_breaker.py:120-175 | in every run the totals and the last failure time are those of the history, and while closed the failure count is the number of tracked failures since the last success or close, below the threshold |
| CircuitBreaker.CountersInEveryState | src/infrastructure/resilience/circuit_breaker.py:120-175 | in every state the failure count is that of tracked failures since the last success that cleared them, and the success count that of successes since the state last changed |
| CircuitBreaker.OpenUntilTimeout | src/infrastructure/resilience/circuit_breaker.py:97-112 | an open breaker admits, and leaves the open state, exactly on a call at least `timeout` after the latest tracked failure |
| CircuitBreaker.ClosedUntilThreshold | src/infrastructure/resilience/circuit_breaker.py:148-154 | a closed breaker opens exactly on the tracked failure that brings the run of failures to the threshold |
| CircuitBreaker.HalfOpenPeriod | src/infrastructure/resilience/circuit_breaker.py:101-132 | a half-open state goes back to one admitted probe; since then no failure was tracked and the success count is the number of successes recorded |
| CircuitBreaker.HalfOpenUntilDecided | src/infrastructure/resilience/circuit_breaker.py:126-161 | a half-open breaker re-opens exactly on a tracked failure and closes exactly on the success that completes the threshold since its probe |
| CircuitBreaker.StuckForever | src/infrastructure/resilience/circuit_breaker.py:114-116 | once the half-open successes reach the call limit with nothing in flight, no continuation changes the state |
| CircuitBreaker.ReachWedge | src/infrastructure/resilience/circuit_breaker.py:91-161 | for every configuration that needs more successes than it lets through, a run that ends wedged |
| CircuitBreaker.WedgesExactly | src/infrastructure/resilience/circuit_breaker.py:114-132 | a breaker can reject for ever if and only if max(1, success_threshold) exceeds half_open_max_calls |
| CircuitBreaker.HalfOpenAlwaysAdmits | src/infrastructure/resilience/circuit_breaker.py:114-116 | otherwise every reachable half-open state admits calls |
| CircuitBreaker.ProbeNeedsRoom | src/infrastructure/resilience/circuit_breaker.py:114-116 | a half-open breaker admits a call exactly while fewer successes than the maximum were recorded since its opening probe |
| CircuitBreaker.ProbesUnboundedExactly | src/infrastructure/resilience/circuit_breaker.py:37-37 | for every n some half-open period admits n calls, if and only if the maximum is at least 1; below that every period admits exactly its opening call |
| CircuitBreaker.RejectionsAreCounted | src/infrastructure/resilience/circuit_breaker.py:97-116 | the rejection count is the number of calls turned away while open, and none turned away half-open |
| CircuitBreaker.Presets | src/infrastructure/resilience/circuit_breaker.py:300-319 | the default, model and sandbox presets cannot wedge; the database preset can |
| DurableBroker.LocalDurableBroker.Publish | src/infrastructure/queue/redis_streams_broker/local_broker.py:21-36 | a fresh id; the message is queued at the tail exactly when the stream has had a subscriber |
| DurableBroker.LocalDurableBroker.Subscribe | src/infrastructure/queue/redis_streams_broker/local_broker.py:53-58 | one more consumer, and the stream's queue if it was missing |
| DurableBroker.LocalDurableBroker.Deliver | src/infrastructure/queue/redis_streams_broker/local_broker.py:59-64 | the head of the queue moves to the consumer's hands and to `_pending`, or is dropped when it is already completed |
| DurableBroker.LocalDurableBroker.Succeed | src/infrastructure/queue/redis_streams_broker/local_broker.py:66-69 | the message is completed and leaves `_pending`; a missing key would count as a failure |
| DurableBroker.LocalDurableBroker.Fail | src/infrastructure/queue/redis_streams_broker/local_broker.py:70-77 | one more attempt; dead-lettered at the third, re-queued at the tail before |
| DurableBroker.LocalDurableBroker.Cancel | src/infrastructure/queue/redis_streams_broker/local_broker.py:78-79 | the consumer stops, with whatever it holds |
| DurableBroker.RunKeepsInv | src/infrastructure/queue/redis_streams_broker/local_broker.py:21-79 | the broker's invariant holds after every interleaving of publishers, consumers, failures and cancellations |
| DurableBroker.Conservation | src/infrastructure/queue/redis_streams_broker/local_broker.py:21-79 | each message is once, and only once, in its queue, a running consumer's hands, the completed set, the dead-letter list or a cancelled consumer's hands |
| DurableBroker.BoundedRedelivery | src/infrastructure/queue/redis_streams_broker/local_broker.py:59-77 | a message is delivered at most three times, dead-lettered exactly when three deliveries failed, and a completed one was delivered once more than it failed |
| DurableBroker.NeverDeliveredAgain | src/infrastructure/queue/redis_streams_broker/local_broker.py:60-75 | after success or dead-lettering there is no further delivery, whatever follows |
| DurableBroker.PayloadIsKept | src/infrastructure/queue/redis_streams_broker/local_broker.py:59-77 | data and stream of a stored message never change |
| DurableBrokerReceipts.PublishedIsStored | src/infrastructure/queue/redis_streams_broker/local_broker.py:27-32 | a message published on a stream that has had a subscriber has the data and stream it was published with, in every continuation |
| DurableBrokerReceipts.ConsumersAreSubscriptions | src/infrastructure/queue/redis_streams_broker/local_broker.py:53-59 | in every run there is one consumer for each subscription, with its stream and group, and a queue for exactly the streams subscribed to |
| DurableBrokerReceipts.MessagesAreMarked | src/infrastructure/queue/redis_streams_broker/local_broker.py:62-75 | in every run a held message is marked as being processed by its consumer's group, and a dead letter tells the error of its last failure |
| DurableBrokerReceipts.FifoExactly | src/infrastructure/queue/redis_streams_broker/local_broker.py:31-77 | queues are first in, first out: a publication and a retry go to the tail, a delivery takes the head, nothing else touches them |
| DurableBroker.HeadIsLive | src/infrastructure/queue/redis_streams_broker/local_broker.py:59-61 | the head of a queue is never completed, so the check against completed ids never drops anything |
| DurableBroker.PendingDeletionNeverMisses | src/infrastructure/queue/redis_streams_broker/local_broker.py:69-69 | the deletion from `_pending` always finds its key |
| DurableBroker.FirstDeliveriesInOrder | src/infrastructure/queue/redis_streams_broker/local_broker.py:27-77 | the first deliveries on a stream, followed by what was never delivered, are exactly the messages in publish order, retries notwithstanding |
| DurableBrokerReceipts.ReceivedIsPublished | src/infrastructure/queue/redis_streams_broker/local_broker.py:27-77 | in every run, the ids and data that a stream's consumers were first handed, followed by those still waiting undelivered, are exactly those published, in order |
| DurableBroker.EnqueuedIncreases | src/infrastructure/queue/redis_streams_broker/local_broker.py:27-32 | publish order is the order of the ids |
| DurableBroker.WorkTakesWeight | src/infrastructure/queue/redis_streams_broker/local_broker.py:59-79 | every delivery, outcome or cancellation with a message in hand lowers the weight of its message |
| DurableBroker.Drains | src/infrastructure/queue/redis_streams_broker/local_broker.py:59-79 | once publishing stops, the steps taken and the work left never exceed the work there was |
| DurableBroker.WorkIsBounded | src/infrastructure/queue/redis_streams_broker/local_broker.py:72-77 | that work is at most six steps a message |
| DurableBroker.QuietIsDrained | src/infrastructure/queue/redis_streams_broker/local_broker.py:59-79 | when nothing can move and every non-empty stream has a running consumer, the queues are empty and each message is completed, dead-lettered or abandoned by a cancelled consumer |
| Policy.PausesExactly | src/services/governance/policy_engine.py:51-105 | a call waits for a human exactly when the caller is no admin, the tool is dangerous under the session's risk mode, and no approval came with it; an approved call never waits |
| Policy.RunsUnaskedExactly | src/services/governance/policy_engine.py:51-105 | a dangerous call can run as it stands exactly when it is not simulated and is an admin's, or permitted to the role and flagged as approved |
| Policy.VerdictExactly | src/services/governance/policy_engine.py:21-105 | tool by tool and role by role: an admin's call is allowed; of the others', an unapproved screenshot, or in strict mode an unapproved shell, waits; one whose tool is neither in the role's table nor an MCP tool, or whose checked path is outside, is refused; the rest is allowed |
| AgentLoop.TaskRuntime.ProcessTaskEvent | src/services/agent_loop/brain/brain_worker.py:26-88 | a reasoning step counts its iteration, stops past 50, notes the wrap-up at 40, and otherwise does what its outcome says, as the specified step |
| AgentLoop.TaskRuntime.CallModel | src/services/agent_loop/brain/llm_caller.py:28-137 | each way the model call can end leaves its message, and a call is counted exactly when one was made |
| AgentLoop.TaskRuntime.ProcessResponse | src/services/agent_loop/brain/response_parser.py:34-72 | the answer is recorded, and its calls are dispatched as one batch or, if any arguments do not parse, not at all |
| AgentLoop.TaskRuntime.ProcessToolEvent | src/services/agent_loop/tool_worker.py:60-177 | one message per call, and the brain is triggered again exactly when no call of the batch waits for approval |
| AgentLoop.TaskRuntime.ProcessCall | src/services/agent_loop/tool_worker.py:82-163 | one call leaves one message and runs or not as specified, and waits for approval exactly when the policy pauses it |
| AgentLoop.TaskRuntime.RetriggerBrain | src/services/agent_loop/tool_worker.py:180-190 | one thought with an empty description is queued |
| AgentLoop.TaskRuntime.ApproveToolCall | src/api/rest/routers/chat.py:160-212 | for a request to the endpoint that no other overlaps: only a pending request is decided; a denial queues nothing, anything else queues the one call with its approval flag |
| AgentLoop.TaskRuntime.FindPending | src/api/rest/routers/chat.py:170-180 | the look finds the call of a request exactly while it is pending |
| AgentLoop.TaskRuntime.MarkRequest | src/api/rest/routers/chat.py:182-212 | the mark and the dispatch follow from what the look saw, whatever has happened since |
| AgentLoopProofs.OneMessagePerCall | src/services/agent_loop/tool_worker.py:70-163 | a batch adds exactly one message per call, in order, each naming its call; a request for approval holds the call itself |
| AgentLoopProofs.RunKeepsInv | src/services/agent_loop/tool_worker.py:68-177 | the protocol invariant holds in every reachable state, whatever the outside answers |
| AgentLoopProofs.LoopSafety | src/services/agent_loop/brain/brain_worker.py:58-88 | at most 50 model calls when the task's row is found; queued events never exceed one plus the approvals granted; where approval requests do not overlap, each request is dispatched at most once, and exactly if it was approved |
| AgentLoopProofs.DecisionIsFinal | src/api/rest/routers/chat.py:171-200 | where approval requests do not overlap, a decided request keeps its decision in every later state, and every further decision on it is answered with not-found and changes nothing |
| AgentLoopProofs.RunsWereAsked | src/services/agent_loop/tool_worker.py:70-139 | every call that really ran, arguments included, is one a recorded answer of the model asked for, or the call of an approved request, which is such a call with the approval flag of the grant |
| AgentLoopRecords.ExecutesExactly | src/services/agent_loop/tool_worker.py:60-177 | an execution leaves for each call the request, refusal, or result that the plain rules, the registry and the shadow mode decide, and runs exactly the permitted, unpaused, path-allowed, known and unsimulated calls; without its session it leaves an error and runs nothing |
| AgentLoopRecords.RunsAreExecutions | src/services/agent_loop/tool_worker.py:70-139 | what really ran in a run is exactly what its executions should have run, each call judged with its own path check |
| AgentLoopRecords.RunsArePermitted | src/services/governance/policy_engine.py:21-89 | in every run, unless the user is an admin, only tools of the role's table or MCP tools have run, and none that had to wait; no dry run has run, and nothing in shadow mode |
| AgentLoopRecords.ThinkRecordsExactly | src/services/agent_loop/brain/brain_worker.py:43-88 | a reasoning step records exactly the wrap-up note in the 40th iteration, the description, and its outcome, the answer with its calls included, or the one message for a missing session or an iteration past 50; it calls the model exactly when it gets that far |
| AgentLoopRecords.DecisionDispatches | src/api/rest/routers/chat.py:182-212 | deciding a pending request: a denial queues nothing; anything else queues exactly one event with exactly one call, whose id, name, dry-run flag and payload are those of the request and whose approval flag is set; only that request's message changes |
| AgentLoopRecords.GrantedRunsWereAsked | src/api/rest/routers/chat.py:189-210 | every granted call that really ran agrees with a call of a recorded answer in everything but the approval flag, which is set |
| AgentLoopProofs.DangerousOnlyAfterApproval | src/services/governance/policy_engine.py:65-80 | for a non-admin, a dangerous call that really ran carries the approval flag, and is the very call of a request a human granted or one whose flag the model's own answer had set |
| AgentLoopProofs.UnaskedCallRuns | src/services/governance/policy_engine.py:78-80 | the failing run: for every session and every parsing answer that holds a dangerous call able to run as it stands, answer and execution run it without any grant |
| AgentLoopProofs.HumansDecideExactly | src/services/governance/policy_engine.py:51-89 | for every session and every set of answers the model may give: in all runs every dangerous call that ran is the call of a granted request, if and only if no parsing answer of the set holds a dangerous call able to run as it stands |
| AgentLoopProofs.StepDropsPair | src/services/agent_loop/tool_worker.py:68-177 | when the task's row is found, every handler step lowers the pair (model calls left, weight of what is queued or pending) lexicographically |
| AgentLoopProofs.StuckEventually | src/services/agent_loop/brain/brain_worker.py:58-66 | when the task's row is found, every endless schedule of handler steps, from any state, meets a step that cannot be taken |
| AgentLoopProofs.EndsExactly | src/services/agent_loop/brain/brain_worker.py:55-66 | every schedule ends if and only if the task's row is found; without it a model that keeps searching is never stopped |
| AgentLoopProofs.RunLength | src/services/agent_loop/brain/brain_worker.py:58-66 | when the task's row is found and no answer holds more than b calls, a task takes at most 50 * (3b + 2) + 1 handler steps |
| ApprovalOverlap.LookThenMark | src/api/rest/routers/chat.py:170-212 | without overlap, a look and its mark are the one decision of the atomic model |
| ApprovalOverlap.MarkDispatchesWhatWasSeen | src/api/rest/routers/chat.py:171-210 | whatever happened since, an approving mark queues exactly one event with exactly one call: the one its look saw, with the flag set |
| ApprovalOverlap.PendingUntilMarked | src/api/rest/routers/chat.py:171-180 | in every run with any overlap, a look finds a request pending exactly when it was posted and no visit has marked it yet |
| ApprovalOverlap.DispatchesAreLooks | src/api/rest/routers/chat.py:171-210 | a request is dispatched at most as often as approving looks found it pending, and exactly as often once all of them have run to their end |
| ApprovalOverlap.DispatchedOnceExactly | src/api/rest/routers/chat.py:171-210 | in every complete run a request is dispatched at most once if and only if no two approving looks found it pending |
| ApprovalOverlap.OverlapDispatchesTwice | src/api/rest/routers/chat.py:171-210 | the failing run: two approvals look before either marks, and the call is queued twice |
| ApprovalOverlap.OverlapSafety | src/services/agent_loop/brain/brain_worker.py:58-88 | overlap or not: at most 50 model calls when the task's row is found, and never more queued events than one plus the dispatches of approved calls |
| ToolCallStream.MergeOne | src/services/agent_loop/brain/llm_caller.py:117-125 | one fragment creates its call on first sight and extends name and arguments by what it carries |
| ToolCallStream.Merge | src/services/agent_loop/brain/llm_caller.py:116-125 | after the fragments of a chunk the dict holds, per index, the joined fragments seen so far |
| ToolCallStream.Collect | src/services/agent_loop/brain/llm_caller.py:99-125 | for any interleaving, the text is the tokens in order and each index's name and arguments are its own fragments joined in order |
| ToolCallStream.AddRepresents | src/services/agent_loop/brain/llm_caller.py:117-125 | one more fragment keeps the dict what the stream spells out |
| ToolCallStream.ValuesAreCalls | src/services/agent_loop/brain/response_parser.py:34-36 | the dict's values are the calls in first-seen order of their indexes |
| ToolCallStream.OrderIsDistinct | src/services/agent_loop/brain/llm_caller.py:118-120 | each index yields one call |
| ToolCallStream.NeighboursCommute | src/services/agent_loop/brain/llm_caller.py:116-125 | swapping neighbouring fragments of two indexes already seen changes no call |
| ToolCallStream.WholeCall | src/services/agent_loop/brain/llm_caller.py:117-125 | a fragment that carries a whole call gives that call |
| ToolCallStream.CutsAreIrrelevant | src/services/agent_loop/brain/llm_caller.py:116-125 | cutting any fragment of a stream in two, anywhere in its name and its arguments, changes no call |
| ToolCallStream.ChunksFollow | src/services/agent_loop/brain/llm_caller.py:106-117 | texts and fragments of chunks come one after the other, and a chunk without a choice adds nothing |
| ToolCallStream.DispatchIsAllOrNothing | src/services/agent_loop/brain/response_parser.py:34-62 | a stream's calls go out as one batch with every call, in order and with its own parsed arguments, exactly when all of them parse; otherwise nothing is queued |
| SessionContext.AddAppends | src/services/memory/context/message_handler.py:41-68 | whatever the limit, an addition appends one message, numbered next, to windows and recent taken together, and marks the context dirty |
| SessionContext.SegmentedRefinesLog | src/services/memory/context/message_handler.py:41-69 | after any additions to a fresh context, windows and recent together are the flat log, numbered from one without gap |
| SessionContext.WindowBoundsMatch | src/services/memory/context/windows.py:30-37 | in every run each window's bounds are the sequences of its first and last message and as far apart as it has messages; the first begins at one, each next one where the last ended, and recent goes on; its size is a quarter, rounded down, of the length of its text |
| SessionContext.RecentBoundedExactly | src/services/memory/context/message_handler.py:54-57 | recent never holds more than `max_recent` if and only if that is at least 1 |
| SessionContext.RecentIsLogEnd | src/services/memory/context/message_handler.py:53-57 | with a positive limit, recent is exactly the end of the log |
| SessionContext.SortSorts | src/services/memory/context/builder.py:75-76 | the sort orders any list and loses nothing |
| SessionContext.SortOfSorted | src/services/memory/context/builder.py:75-76 | an ordered list is left as it is |
| SessionContext.ContextBuilder.BuildForUi | src/services/memory/context/builder.py:61-79 | the view is the end slice of the sorted history |
| SessionContext.UiIsTailExactly | src/services/memory/context/builder.py:67-79 | for any history and limit, the sort changes nothing, and the view is the last `limit` messages if and only if the limit is positive or at least as negative as the history is long |
| SessionContext.ContextBuilder.Search | src/services/memory/context/builder.py:81-99 | the hits are the messages of the history whose lower-cased text holds the lower-cased query, in order |
| SessionContext.ContextBuilder.GetFileContext | src/services/memory/context/builder.py:101-118 | the hits are the messages of the history that name the file, in order |
| SessionContext.SearchIsFilter | src/services/memory/context/builder.py:81-118 | filtering the windows and recent is filtering the flat log, wherever windows were cut |
| SessionContext.HitsExactly | src/services/memory/context/builder.py:87-118 | a message is a hit of a search exactly when it is in the log and the query occurs in its text, both lower-cased; and of a file exactly when its text holds the path as it is |
| ContextPersistence.ContextStore.AddMessage | src/services/memory/context/message_handler.py:41-68 | the cached context after an addition is the specified one |
| ContextPersistence.ContextStore.CreateWindow | src/services/memory/context/windows.py:27-38 | one more window, with its bounds and size estimate |
| ContextPersistence.ContextStore.SummaryArrived | src/services/memory/context/windows.py:69-70 | a summary marks the context dirty |
| ContextPersistence.ContextStore.PersistToDb | src/services/memory/context/persistence.py:77-115 | recent messages whose sequence is not yet stored are added, and nothing when the session is gone |
| ContextPersistence.ContextStore.Flush | src/services/memory/context/manager.py:146-152 | a dirty context is persisted if the session is found, and marked clean in either case |
| ContextPersistence.ContextStore.LoadFromDb | src/services/memory/context/persistence.py:35-75 | the rows with the highest sequences, at most twice `max_recent`, in chronological order, with the highest sequence as last; nothing when session or rows are missing |
| ContextPersistence.ContextStore.Reload | src/services/memory/context/manager.py:68-79 | a context that left the cache is loaded, or starts afresh |
| ContextPersistence.LoadedIsTail | src/services/memory/context/persistence.py:45-75 | loading rows numbered from one yields the last min(2 * max_recent, n) of them and continues their numbering |
| ContextPersistence.OverflowLoses | src/services/memory/context/message_handler.py:54-57 | one addition beyond `max_recent` unsaved ones pushes a message out of both places |
| ContextPersistence.EarlyReloadLoses | src/services/memory/context/manager.py:68-79 | reloading with unsaved additions, whether or not the session is found, forgets one of them |
| ContextPersistence.NoLossExactly | src/services/memory/context/persistence.py:77-115 | over schedules of additions, summaries, flushes and reloads, each flush and reload with or without the session's row: every message is at every moment in the database or recent, whatever the messages say, if and only if no more than `max_recent` are added after the last flush that saved and no context is reloaded with unsaved ones |
| ContextPersistence.NoLossOnRun | src/services/memory/context/persistence.py:77-115 | the same equivalence on a single run, if its texts all differ or its session was never missing at a reload while rows were there |
| ContextPersistence.FlushWithoutRowLoses | src/services/memory/context/persistence.py:81-87 | the failing input: with room for one, an addition, a flush without the row and another addition leave the first message in neither place |
| ContextPersistence.RestartedNumberIsSkipped | src/services/memory/context/persistence.py:91-102 | after a reload without the row, a message numbered from one again is not stored while that number is taken |
| ContextPersistence.PersistThenLoad | src/services/memory/context/persistence.py:45-115 | after every disciplined run, saving and loading back yields the last min(2 * max_recent, n) messages in order with the same last sequence, if and only if nothing is unsaved or the context is dirty, and numbering had not restarted |
| ContextPersistence.NumberingContinues | src/services/memory/context/persistence.py:63-73 | then the next message is numbered n + 1, and all numbers are consecutive from one |
| ContextPersistence.AddedAreDrafts | src/services/memory/context/persistence.py:105-113 | what is kept of a message is its role, content and task |
| ContextPersistence.LoadShowsDrafts | src/services/memory/context/persistence.py:61-71 | and what is loaded after such a save shows the last messages added, each with its role, content, task and number, and without tool calls |
| GitOverlay.Mount.Clone | src/infrastructure/storage/gvfs/operations/clone.py:59-84 | a fresh mount has an unchanged, unloaded entry for each indexed file, and HEAD is the indexed part of the disk |
| GitOverlay.Mount.ReadFile | src/infrastructure/storage/gvfs/api/filesystem.py:22-43 | the bytes and the entry a read leaves behind are the specified ones, untracked files included |
| GitOverlay.Mount.LoadContent | src/infrastructure/storage/gvfs/api/filesystem.py:45-60 | lazy loading takes the saved change if there is one and the disk otherwise |
| GitOverlay.Mount.WriteFile | src/infrastructure/storage/gvfs/api/filesystem.py:62-89 | status, digest, content, saved change and saved state after a write are the specified ones |
| GitOverlay.Mount.DeleteFile | src/infrastructure/storage/gvfs/api/filesystem.py:91-104 | an added entry disappears, another is marked deleted, and the answer says whether there was one |
| GitOverlay.Mount.GetChanges | src/infrastructure/storage/gvfs/api/changes.py:16-22 | the three lists hold exactly the paths of the entries with that status |
| GitOverlay.Mount.ApplyToWorkspace | src/infrastructure/storage/gvfs/api/changes.py:24-51 | in whatever order entries are visited and whichever of them raise, the disk ends with each loaded change written and each deletion made that did not raise, and nothing else changed |
| GitOverlay.Mount.ApplyFile | src/infrastructure/storage/gvfs/api/changes.py:34-49 | one entry's write or removal, or what an error leaves of it, and no other file |
| GitOverlay.Mount.CommitChanges | src/infrastructure/storage/gvfs/api/git_ops.py:28-74 | changes go to disk, errors passed over; if git agrees and the work tree then differs from HEAD, it becomes HEAD and every changed entry unchanged at its own digest, also one whose write failed; the answer says whether |
| GitOverlay.Mount.SettleChanges | src/infrastructure/storage/gvfs/api/git_ops.py:60-64 | every changed entry becomes unchanged at its own digest and loaded bytes, and no other changes |
| GitOverlay.Mount.SaveMountState | src/infrastructure/storage/gvfs/operations/persistence.py:30-56 | the saved state is every entry without its bytes |
| GitOverlay.Mount.RestoreMountState | src/infrastructure/storage/gvfs/operations/persistence.py:59-80 | the restored entries are the saved ones, unloaded |
| GitOverlay.Mount.Remount | src/infrastructure/storage/gvfs/core.py:81-89 | a persisting unmount followed by a mount saves and restores the entries |
| GitOverlay.ViewIsModel | src/infrastructure/storage/gvfs/api/filesystem.py:22-104 | in every run, a path that was not deleted since it was last written stands for what the plain map of the clone's files, changed by every write and deletion, holds |
| GitOverlay.ReadsNothingExactly | src/infrastructure/storage/gvfs/api/filesystem.py:22-104 | over every run a read finds nothing exactly when the path's history of operations, and of the successes of commits, is one of vanishing: never there, or never written, taken off the disk by a commit and not loaded before, or a new file deleted before any commit touched it |
| GitOverlay.OverlayRefinesMap | src/infrastructure/storage/gvfs/api/filesystem.py:22-104 | over every run, deletions, lazy loading, commits and remounts included: a read returns what the plain map holds, if and only if the path was not deleted since it was last written, or its history is one of vanishing |
| GitOverlay.DeletionHidesExactly | src/infrastructure/storage/gvfs/api/filesystem.py:91-104 | right after a deletion a read finds nothing exactly when the disk has no bytes and the file was just added or never written through the overlay |
| GitOverlay.CommitKeepsView | src/infrastructure/storage/gvfs/api/changes.py:33-49 | for every entry of every reachable state, deleted ones included: a commit, accepted or not, changes the bytes a path stands for exactly when it takes a deleted, never written file off the disk |
| GitOverlay.CommitWritesExactly | src/infrastructure/storage/gvfs/api/changes.py:33-49 | a commit takes a deleted file off the disk unless its removal raises; any other entry stands on disk as it reads exactly when its loaded change was written, or an error left it those bytes, or, without either, when it stood so before |
| GitOverlay.AcceptedExactly | src/infrastructure/storage/gvfs/api/git_ops.py:28-51 | on a clean work tree git accepts exactly when it agrees and a change reaches the disk: a loaded one with other bytes, or the removal of a file that is there |
| GitOverlay.UnloadedAloneIsRefused | src/infrastructure/storage/gvfs/api/git_ops.py:50-74 | if every listed change is unloaded, the commit is refused and nothing changes |
| GitOverlay.BehindExactly | src/infrastructure/storage/gvfs/api/git_ops.py:60-66 | for every entry of every reachable state, deleted ones included: after an accepted commit the disk is HEAD, and an entry is unchanged with disk and reader apart exactly when it was so before, or its change was unloaded and differed, failed to be written, or deleted a file that was written through the overlay |
| GitOverlay.BehindBeginsExactly | src/infrastructure/storage/gvfs/api/git_ops.py:28-66 | of all operations, only an accepted commit of such a change, or writing back bytes of HEAD's digest over a disk that has others, puts an entry there |
| GitOverlay.StaysBehind | src/infrastructure/storage/gvfs/api/git_ops.py:60-66 | it stays there, with the same disk and the same reads, through every continuation that neither writes nor deletes the path |
| GitOverlay.UnloadedChangeIsNotCommitted | src/infrastructure/storage/gvfs/api/git_ops.py:28-66 | two files written, a remount, and only the new one read: the commit is accepted, the other is marked unchanged without reaching disk or HEAD, then and in every continuation that leaves its path alone, and reads still return its written bytes |
| GitOverlay.DeletedBytesComeBack | src/infrastructure/storage/gvfs/api/git_ops.py:60-66 | a file written, committed, deleted and committed again: disk and reader agree before the last commit, it is accepted, and afterwards the entry is unchanged, disk and HEAD lack the file, and reads return its old bytes |
| GitOverlay.ChangeTracking | src/infrastructure/storage/gvfs/api/filesystem.py:71-103 | in every run, deletions included, an entry that is modified or unchanged is modified exactly when its digest differs from the one at HEAD, and saved bytes have the recorded digest |
| GitOverlay.StatusesAreKnown | src/infrastructure/storage/gvfs/api/filesystem.py:31-36 | in every run no entry is in conflict, and a path that git indexes always has an entry, neither added nor untracked |
| GitOverlay.CommitSettles | src/infrastructure/storage/gvfs/api/git_ops.py:60-66 | after an accepted commit the three change lists are empty, and writing the committed bytes back leaves the file unchanged |
| GitOverlay.UnchangedMeansHead | src/infrastructure/storage/gvfs/api/filesystem.py:71-75 | in every run from a clean clone, on a path neither deleted nor ever behind: an entry that a commit brought to HEAD is unchanged exactly when its bytes have the digest of HEAD's; one still known by git's id exactly when it was never written or its digest is that id; a new file written twice is modified |
| GitOverlay.HeadContentIsHead | src/infrastructure/storage/gvfs/api/filesystem.py:53-58 | where digests tell bytes apart, in every run from a clean clone, on a path neither deleted nor ever behind: the bytes an entry shows as HEAD's are HEAD's |
| GitOverlay.ReadShowsHead | src/infrastructure/storage/gvfs/api/filesystem.py:53-58 | the first read of a file that was never written shows its bytes on disk as content and as HEAD's |
| GitOverlay.HeadBytesWrittenBack | src/infrastructure/storage/gvfs/api/filesystem.py:71-75 | on a fresh clone, writing a file's own bytes back lists it as modified unless their digest is git's id |
| GitOverlay.SaveRestore | src/infrastructure/storage/gvfs/operations/persistence.py:30-80 | saving and restoring loses the loaded bytes and nothing else, and a second round trip changes nothing |
| GitOverlay.RestartLosesOnlyBytes | src/infrastructure/storage/gvfs/operations/persistence.py:19-80 | right after a write, an accepted commit or a remount, a process that starts again from the saved state finds every entry as it was, without its bytes |
| GitOverlay.FirstIsRemoved | src/infrastructure/storage/gvfs/api/filesystem.py:29-29 | normalising a path removes the first occurrence of the workspace part, wherever it is, and keeps the rest |
| GitOverlay.PathsNameOneFile | src/infrastructure/storage/gvfs/api/filesystem.py:29-29 | a path names the same file as it is, from the root, and with the workspace in front |
| StdioProtocol.StdioClient.NextId | src/services/mcp/stdio_protocol.py:44-46 | ids count up from one |
| StdioProtocol.StdioClient.ReadLine | src/services/mcp/stdio_writer.py:27-60 | what comes next past any blank, non-JSON or malformed lines: a JSON object, a line that cannot be read and is consumed, a silence in which waiting is given up, or the end |
| StdioProtocol.StdioClient.SendRequest | src/services/mcp/stdio_protocol.py:48-79 | a fresh id is sent, and the outcome, errors and being given up included, and the unread stream are those of the specified bounded read |
| StdioProtocol.AwaitExchange | src/services/mcp/stdio_protocol.py:57-79 | one read consumes exactly one exchange and delivers its answer, errors included, if fewer notifications than the cap and neither an unreadable line nor a silence precede it, and fails otherwise |
| StdioProtocol.RequestIds | src/services/mcp/stdio_protocol.py:44-55 | the k-th request is sent with the id k, whatever comes back |
| StdioProtocol.RequestsStayAligned | src/services/mcp/stdio_protocol.py:57-79 | if that holds for the first k exchanges, the first k requests deliver their answers, each with the request's own id, and the stream stands at the next exchange |
| StdioProtocol.AlignedExactly | src/services/mcp/stdio_protocol.py:57-79 | against a server that answers once and in order, requests and answers stay aligned if and only if each answer is preceded by fewer than 50 notifications, no unreadable line, and no silence in which its request times out or is cancelled; other noise never matters |
| StdioProtocol.AnswersAreDelivered | src/services/mcp/stdio_protocol.py:68-77 | the k-th of aligned requests ends in an error exactly when its answer has one, with the server's code and message or -32603 and "Unknown error", and its data; otherwise it returns exactly the answer's result |
| StdioProtocol.LateAnswerIsMisdelivered | src/services/mcp/stdio_protocol.py:59-79 | the first request to miss its answer fails, and the next one, sent with another id than that answer carries, is given it exactly when nothing still unread stands in its way |
| StdioProtocol.OneBreakMisaligns | src/services/mcp/stdio_writer.py:33-46 | one unreadable line or one such silence, and no notification, fails the first request and gives its answer to the second |

## Left out

- HTTP routers other than the approval endpoint, authentication, cryptography, billing details, container runners, tracing, metrics and the UI: input and output, or libraries.
- The clock: a handler reads it once in the model; the fixed-window limiter reads it up to three times within one check.
- Floating point: times are reals, so the rounding of differences of instants is not captured.
- Redis: the commands of one check run as one step, so two processes that interleave between them are not modelled; `increment` and pipelines are not part of this model.
- Circuit breaker: `opened_at`, `closed_at`, `get_metrics`, the registry, and the smaller breaker inside the MCP proxy tool.
- Broker: broadcast channels (`subscribe_channel`), the injection of trace and tenant into a payload, and timestamps; a message is a value found by its counter, so aliasing of one message object by a callback is not captured.
- Agent loop: a step of the two workers commits as a whole, so a crash that rolls back half of one is not modelled; nor are the `task_log` and `task_resolved` notices and semantic memory.
- Agent loop: the wording of notices is shortened; arguments are the approval flag, the dry-run flag and the rest as text, and arguments that are valid JSON but no object are left out.
- The usage-quota check and the choice of model client are outcomes of a step.
- Session context: what summaries say (that they mark a context dirty is modelled), key topics, file references, the view for the model, the cache's eviction order, contexts that are loaded but never cached, and the checkpoint loop.
- Message rows written by other code: their numbering in `persist_message` is not part of this model, and the store is its session's only writer.
- ContextPersistence.PersistThenLoad: covers role, content, task and sequence; tool calls and results of a message are not stored by the code either, and timestamps are left out.
- Overlay: the count and the messages of write errors, files that git ignores, its own directory, file modes, sizes, modification times, the commit id, directory listings, diffs, unmounting without saving, mounting over another mount, and paths that are a file in one place and a directory in another; an entry is a value found by its path, so a caller's alias of it is not captured.
- Stdio: an `error` member that is no object, the length of a timeout, the `initialize` handshake, server start and stop, and requests that the server itself sends.
