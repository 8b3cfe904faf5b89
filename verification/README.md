# A verified model of the uCentral client's request manager and outbound path

The uCentral client sits between a cloud controller (JSON-RPC over one WebSocket) and local agents
(NATS). This project models, in Dafny, the parts of it whose correctness depends on interleavings:

- **the request manager** (`pkg/reqmgr/manager.go`): transactions from admission to their one terminal
  event, the state lock that serialises state-changing commands, buffered early replies, replayed
  cached responses, the hand-over of an upgrade's lock to a durable record with disk I/O outside the
  mutex, recovery of that lock after a crash, and the sweeper of orphaned records;
- **its callers**: the frame handler and the executor goroutine of each transaction
  (`cmd/ucentral-client/handler.go`), the result workers (`cmd/ucentral-client/main.go`), response timers;
- **the outbound path**: the anti-starvation scheduler (`pkg/queues/scheduler.go`) and the WebSocket
  writer with its one-message hand-off and the message it retains across reconnects
  (`pkg/websocket/client.go`);
- **smaller cores**: canonical request keys, the disk store, the configuration UUID checked in three
  modules, the back-pressure monitor, and the telemetry ring buffer.

## How the model is built

`Transactions`, `Manager`, `OperationStore` and `FrameHandler` say, as functions on values, what each
stretch of code under `m.mu` does to the manager's memory. `RequestManager` is the mutable object: a
class whose methods update fields step by step as the code does, each proved equal to the matching
function and proved to keep the invariant of `ManagerInvariants`. `World` puts the manager among its
callers: a step is one critical section or one effect on the store, a failing Save or Delete may still
have taken effect, and a run is any interleaving of steps from any process start. `WorldInvariants` and
`WorldSteps` prove one inductive invariant of all runs; `WorldEffects` says what a single step can
touch. On these stand `RequestTheorems`, `MutualExclusion`, `Progress`, `OperationTheorems`,
`SweeperTheorems`, `OperationSweep`, `LockRelease`, `ResponseTheorems`,
`AdmissionTheorems`, `Endings`, `AnswerTheorems`, `CacheTheorems` and `Scenarios`. `Scheduler`,
`SchedulerTheorems`, `PriorityScheduler` and `Transport` model the outbound path the same way, and
`EndToEnd` joins both halves. `Decimal`, `Rational` and `CanonicalKeys`, `DiskStore`, `Configure`,
`ResultQueue` and `RingBuffer` are the smaller cores.

Modelling decisions:

- Identifiers drawn by uuid.New are fresh numbers, and the clock never goes back.
- `retired` holds what a pointer to a removed transaction still reaches, and doubles as history.
- A response timer that was ever armed may fire until its transaction is gone, because stopping a timer
  does not recall a callback that already waits for the mutex. This allows more runs than the code has.
- No code arms DispatchTimer; dispatchTimeoutFail is a step that may happen at any time, so the results
  hold with and without it.
- Results of downstream agents may carry any payload and arrive at any time and any number of times.
- The worker's Fail after a failed RespondAndRetain is the always possible step ResultFail.
- Start runs before the other goroutines; any of its deletions may fail. The boot identifier is fixed
  during a run. Stored times keep whole seconds.
- The comment on Timeout says that the dispatch timer generates time-outs; the code arms only the
  response timer, and the model follows the code.

## Main results

- At every moment of every interleaving mutex, holder and owner phase agree, the holder is what its
  phase says (`LockSafety`), and Unlock is only reached with the mutex held (`Unlock` requires it).
- Of two live state-changing transactions one has already given up the lock with its outcome decided
  (`AtMostOneChanges`).
- A transaction ends exactly once (`LifecycleSafety`), and once it is published or in a handoff with the
  first terminal event that was accepted (`FirstTerminalWins`, `CompetitorsLose`). Before that an accepted,
  buffered reply can still be replaced by a failure; a buffered reply outlives every run if and only if its
  transaction is published or in a handoff (`SurvivesExactlyWhen`, `EarlyReplyCanBeLost`).
- Nothing is stranded: every live transaction has an agent that can move, and ends after a bounded number
  of its agents' steps (`NothingStranded`, `AgentEnabled`, `AgentsFinish`).
- The owning operation's record is in the store or past its TTL, a crash does not lose its lock, and the
  sweeper never deletes an unexpired record whose operation holds the lock or ever will (`OwnerIsDurable`,
  `CrashSafety`, `SweeperSafety`).
- An expired lock is freed by a sweep that was handed its record, unless the lock was just on its way to that
  operation: then a Save that returns after the sweeper removed the expired record takes the lock behind its
  back. An operation's lock can be freed again if and only if its record is in the store or its handoff is about
  to release it; otherwise it is held until the process ends (`ExpiredLockIsFreed`, `FreeableExactlyWhen`,
  `StuckForever`, `LateSaveStrandsLock`). If Saves return before their record expires this cannot happen
  (`OwnerIsKept`, `SweepSeesOwner`, `PromptLockIsFreed`).
- Each inbound frame is answered at most once, notifications never, repeats with the cached response
  (`OnePushPerFrame`, `NotificationsAreSilent`, `RepeatsAreReplayed`). Conversely every request with an id that
  is not over the absolute size limit is answered, unless its transaction is still under way or ended with
  nothing to say, and every transaction that ended is answered with exactly its payload
  (`EveryRequestIsAnswered`, `EveryEndIsAnswered`). Over every run of manager, scheduler and
  writer together, each response that is written goes to the socket of the session its frame came in on,
  and different responses answer different frames (`ResponsesEndToEnd`).
- The scheduler is first in, first out per level (`FirstInFirstOut`). A message waits at most 33 dequeues for
  each message up to and including it on its level, and ten more for each dequeue that skips its level because
  Priority 0 is empty and a level in between is not (`BoundedWaiting`); level 1 is never skipped
  (`NeverSkipped`), levels 2 and 3 can be skipped for ever (`LowerStarves`). The writer never sends a message more often than it was accepted (`NothingInvented`);
  it loses and reorders nothing below Priority 0 across reconnects if fetch goroutines do not overlap, and
  can lose a message if they do (`NothingLost`, `OverlapLoses`). In a session that is not cancelled and whose
  writes succeed every response for it that leaves is written (`HealthySessionWrites`).

## Model

| member | source | states |
|---|---|---|
| `RequestTheorems.LockSafety` | pkg/reqmgr/manager.go:201-212 | in every reachable state of every interleaving the mutex is held iff there is a holder iff the owner phase is not None; an RPC holder is a live transaction outside a handoff, a TransferPending holder a live upgrade whose handoff is running, an Operation holder no transaction at all |
| `RequestTheorems.TablesSafety` | pkg/reqmgr/manager.go:187-231 | activeCloudRequests is exactly the inverse of the non-empty keys of the live transactions, every buffered reply belongs to a live transaction that is pre-flight or in handoff, live transactions never exceed the limit and are never terminal, removed ones always are |
| `RequestTheorems.LifecycleSafety` | pkg/reqmgr/transaction.go:41-63 | along every run a transaction's state rank only rises, it never vanishes without a terminal record, and that record never changes |
| `RequestTheorems.TimedOutOnlyFromInFlight` | pkg/reqmgr/transaction.go:55-58 | whatever the step, a transaction that ends TimedOut was InFlight |
| `RequestTheorems.FirstTerminalWins` | pkg/reqmgr/manager.go:502-531 | once a reply is buffered for a published transaction or one in handoff, over any later run that transaction is still live with that reply buffered or has ended with exactly its state and payload |
| `RequestTheorems.CompetitorsLose` | pkg/reqmgr/manager.go:541-573 | Complete, Fail and Timeout on such a transaction return AlreadyTerminal, and on a finished one TransactionNotFound |
| `RequestTheorems.SuccessIsRecorded` | pkg/reqmgr/manager.go:335-359 | when Complete, Fail or Timeout returns success its reply is at that moment either buffered or what the transaction ended with, for every manager state |
| `AnswerTheorems.ResultEnds` | pkg/reqmgr/manager.go:341-358 | the result of a transaction in flight and in no handoff is always accepted: the transaction is completed with it, gone from every table, its lock free, every other entry unchanged, and the response pushed if one was wanted and there is one |
| `AnswerTheorems.ResultIsBuffered` | pkg/reqmgr/manager.go:341-357 | the first result for a transaction that is not in flight yet or in a handoff is accepted and buffered, and nothing else changes |
| `RequestTheorems.SurvivesExactlyWhen` | pkg/reqmgr/manager.go:549-559 | in every reachable state a buffered reply is still buffered or the outcome after every later run if and only if its transaction is PendingPublish or in a handoff |
| `RequestTheorems.UndecidedCanBeReplaced` | pkg/reqmgr/manager.go:549-573 | otherwise Fail succeeds and the transaction ends with the failure instead of the buffered reply |
| `Scenarios.EarlyReplyCanBeLost` | pkg/reqmgr/manager.go:346-359 | from every process with a free lock: admission, a Complete that is accepted and buffered, and a Fail that discards it |
| `RequestTheorems.UnpublishedSaveFailure` | pkg/reqmgr/manager.go:461-488 | a failed Save before publication returns AlreadyTerminal with the transaction still live, and the caller's Fail then finishes it |
| `RequestTheorems.NothingStranded` | cmd/ucentral-client/handler.go:366-444 | every live transaction has an unfinished executor, a running handoff or an armed response timer; so a lock held for a transaction always has a releaser |
| `MutualExclusion.AtMostOneChanges` | pkg/reqmgr/manager.go:201-212 | of two live transactions for configure, reboot, factory, leds, upgrade, certupdate, reenroll or script one has given its lock away and has its outcome buffered; while an operation holds the lock, or nobody does, every such transaction is in that closing phase |
| `MutualExclusion.StepExclusive` | cmd/ucentral-client/handler.go:325-364 | every step keeps "each live transaction for one of the eight state-changing commands holds the lock until it is closing", including admission, handoffs and sweeps |
| `AdmissionTheorems.DecidesExactly` | cmd/ucentral-client/handler.go:107-149 | the handler's verdict in full: which commands, sizes, parameters and notifications are admitted, which frames are answered at once, and which are dropped |
| `AdmissionTheorems.ChangingFrame` | pkg/reqmgr/manager.go:201-212 | an acceptable state-changing command with an id is refused with StateLockBusy and answered while the lock is held, and opens a transaction that holds it when it is free |
| `AdmissionTheorems.QueryFrame` | cmd/ucentral-client/handler.go:107-136 | ping, trace, telemetry and rtty are admitted whoever holds the lock, and leave it alone |
| `AdmissionTheorems.RefusedFrame` | cmd/ucentral-client/handler.go:325-356 | an acceptable request that is a duplicate, over capacity or without a usable id is answered with the handler's refusal, or with the cached response while one is fresh, and does nothing else |
| `AdmissionTheorems.UnexecutableFrame` | cmd/ucentral-client/handler.go:203-322 | every other frame is answered with the handler's error, or dropped if it is over the absolute limit or a notification that parses, and does nothing else |
| `Progress.AgentProgress` | cmd/ucentral-client/handler.go:366-476 | every step of a transaction's executor, handoff or armed timer ends it or leaves its agents strictly less to do |
| `Progress.AgentEnabled` | pkg/reqmgr/manager.go:295-327 | while a transaction is live, and for either answer of store, dispatch buffer and dispatch, some agent of it can take a step with that answer |
| `Progress.AgentsFinish` | cmd/ucentral-client/main.go:278-318 | in every interleaving a transaction is gone once its agents took more than 13 steps plus 7 for each upgrade result that arrived for it |
| `OperationTheorems.OwnerIsDurable` | pkg/reqmgr/manager.go:441-500 | whenever an operation owns the lock, its active record is of this boot as far as both are known, and in the store as long as no more than sweeperTTL has passed since its stamp, under any failures of Save and Delete |
| `OperationTheorems.CrashSafety` | pkg/reqmgr/manager.go:707-756 | after a crash at any step, a Start no later than sweeperTTL after the owner's stamp, with a readable store and room for all active records, holds the lock for a record of this boot that is as young and at least as new |
| `OperationTheorems.StartTakesOnlyRecoverable` | pkg/reqmgr/manager.go:716-745 | Start ends with the lock held iff some listed record is of this boot, as far as both are known, has a readable stamp, and is at most sweeperTTL old |
| `OperationTheorems.StartDeletesOtherBoots` | pkg/reqmgr/manager.go:717-725 | Start deletes only records whose known boot differs from the running one |
| `OperationTheorems.StampedNow` | pkg/reqmgr/manager.go:441-455 | a handoff stamps its record with the running boot and the current second |
| `OperationTheorems.QueryReturnsAll` | pkg/reqmgr/store.go:22-29 | a query whose limit leaves room returns every active record |
| `OperationStore.FirstRecoverableIsNewest` | pkg/reqmgr/manager.go:716-745 | because the list is newest first, the first recoverable record is a newest recoverable one |
| `OperationTheorems.ProtectedStep` | pkg/reqmgr/manager.go:436-439 | no step makes an existing operation owner, or owner-to-be, that was neither before |
| `SweeperTheorems.SweeperSafety` | pkg/reqmgr/manager.go:787-838 | although check and delete are separate steps, a record the sweeper deletes no later than sweeperTTL after its stamp belongs to an operation that does not hold the lock and never will in that run |
| `SweeperTheorems.NeverProtectedAgain` | pkg/reqmgr/manager.go:497-500 | an operation that neither owns nor is about to own the lock never does later in the run |
| `SweeperTheorems.OwnerIsKept` | pkg/reqmgr/manager.go:457-500 | if successful Saves return before their record expires, the owning operation's record is in the store at every step of every run |
| `SweeperTheorems.SweepSeesOwner` | pkg/reqmgr/manager.go:777-783 | in such runs every sweep with room for all records is handed the owner's record |
| `SweeperTheorems.PromptLockIsFreed` | pkg/reqmgr/manager.go:811-824 | in runs whose successful Saves return before their record expires, a sweep that was handed an expired record leaves its operation without the lock when it is done, even if the lock was on its way to it |
| `LockRelease.ExpiredLockIsFreed` | pkg/reqmgr/manager.go:811-824 | a sweep that was handed a record more than sweeperTTL old, or with an unreadable stamp, leaves its operation without the lock in every run in which it completes, with no assumption on Saves, if and only if the lock was not being transferred to that operation |
| `LockRelease.OwnerKeepsLockWithinTTL` | pkg/reqmgr/manager.go:799-841 | over every run, an operation whose handoff is over keeps the lock and its record stays in the store as long as no more than sweeperTTL has passed since its stamp |
| `LockRelease.FreeableExactlyWhen` | pkg/reqmgr/manager.go:361-396 | in every reachable state with room for all records, some later run takes the lock from the operation that owns it if and only if its record is in the store or its handoff is about to release it |
| `LockRelease.StuckForever` | pkg/reqmgr/manager.go:497-500 | an operation that owns the lock without a record, listed by no sweep and in no handoff, owns it in every later state of the process |
| `LockRelease.OwnerStays` | pkg/reqmgr/manager.go:373-381 | every step but the release of that operation leaves the lock with it |
| `Scenarios.LateSaveStrandsLock` | pkg/reqmgr/manager.go:811-822 | from every process with a free lock and an empty store: an upgrade whose Save returns after the sweeper removed its expired record ends up owning the lock in every later state |
| `OperationSweep.SweepConverges` | pkg/reqmgr/manager.go:777-842 | from every reachable state without a running handoff, an uninterleaved sweep whose deletions work leaves no active record but the owner's of at most sweeperTTL, keeps that one and the lock, frees the lock if the owner's record is older or has no readable stamp, and leaves inactive records alone |
| `OperationSweep.SweepAllForm` | pkg/reqmgr/manager.go:787-838 | a whole sweep amounts to, in numbers and boot names: free the lock iff an outdated record of its owner is listed, delete exactly the orphans and that record, whatever deletions fail; decisions do not depend on the order |
| `OperationSweep.SweepIsARun` | pkg/reqmgr/manager.go:777-842 | the sequential sweep is one of the interleaved model's runs, made of sweeper steps only |
| `ResponseTheorems.OnePushPerFrame` | cmd/ucentral-client/handler.go:203-364 | in every reachable state every push answers an inbound frame, no two pushes the same one, and a transaction's push carries its own session and payload and only if a response was wanted |
| `AnswerTheorems.EveryEndIsAnswered` | pkg/reqmgr/manager.go:692-702 | in every reachable state a transaction that ended, in whatever state, with a non-empty payload and a wish for a response has exactly one push, with its session and that payload; any other has none |
| `AnswerTheorems.EveryRequestIsAnswered` | cmd/ucentral-client/handler.go:203-364 | over any later run every request with an id that is not over the absolute limit is answered, or its transaction is live, or that ended with no payload |
| `AnswerTheorems.TimeoutsNameTheirRequest` | pkg/reqmgr/manager.go:578-590 | over any later run a transaction that timed out ended with the time-out text for the id of the frame that opened it iff that frame had an id, and with nothing otherwise |
| `Endings.SubjectSettles` | pkg/reqmgr/manager.go:636-704 | whichever step ends a transaction pushes exactly its answer and caches a completed response for its lifetime; a step that ends none pushes nothing for transactions; time-outs keep their text |
| `ResponseTheorems.AnswersGoBack` | cmd/ucentral-client/handler.go:203-364 | over any later run every push that answers a frame is for the session the frame came in on |
| `ResponseTheorems.NotificationsAreSilent` | cmd/ucentral-client/handler.go:264-322 | a valid notification is answered neither on arrival nor by anything that happens later |
| `ResponseTheorems.CompletionCaches` | pkg/reqmgr/manager.go:657-660 | whichever step completes a transaction with a response, that response is cached under its key for the method's own time if positive, else the default if positive, else five minutes |
| `ResponseTheorems.NoReexecution` | pkg/reqmgr/manager.go:181-189 | after any later run inside the TTL a repeat of the request, with an equivalent id and whatever method, gets exactly the cached response, opens nothing and changes nothing |
| `AnswerTheorems.RepeatsAreReplayed` | cmd/ucentral-client/handler.go:328-338 | after any later run inside the lifetime, an acceptable frame with an equal id on the same session is answered with exactly the first response and does nothing else |
| `ResponseTheorems.CacheSafety` | pkg/reqmgr/cache.go:66-80 | no key is both active and freshly cached, and the empty key is never cached |
| `ResponseTheorems.SweepIsInvisible` | pkg/reqmgr/cache.go:102-112 | the cache sweep leaves exactly the unexpired entries and changes no present or later lookup |
| `Scenarios.UpgradeCanSucceed` | pkg/reqmgr/manager.go:401-534 | from every started process with a free lock, every acceptable upgrade request can reach in ten steps an operation that owns the lock, with its record stored and exactly its response pushed |
| `Scenarios.QueryCanBeAnswered` | cmd/ucentral-client/handler.go:366-444 | from every started process, whoever holds the lock, every acceptable query with an id can reach its answer in seven steps, with the lock where it was |
| `Scenarios.LocalFailureIsAnswered` | cmd/ucentral-client/handler.go:366-401 | a full dispatch buffer or a failed dispatch ends the transaction as Failed in two steps and answers with the executor's error |
| `Scenarios.BufferedReplyEndsHandoff` | pkg/reqmgr/manager.go:502-527 | a reply that arrived during the Save frees the lock, deletes the record and ends the transaction with that reply in four steps |
| `RequestTheorems.HandoffBeginsExactly` | pkg/reqmgr/manager.go:404-439 | a handoff begins exactly for a published upgrade that holds the lock and is in no handoff, and changes only its flag, its timer and the owner phase |
| `RequestTheorems.SaveHandsOver` | pkg/reqmgr/manager.go:496-533 | a successful Save gives the lock to the operation; the transaction is completed with its response, or waits with the reply that came first |
| `WorldSteps.StepKeeps` | pkg/reqmgr/manager.go:164-842 | every step of every process keeps the whole invariant: tables, lock, buffers, timers, cache, outbox, identifiers, program counters, handoffs, records, durability, sweeper, frames |
| `WorldSteps.StartKeeps` | pkg/reqmgr/manager.go:707-756 | Start establishes that invariant from any store contents |
| `WorldEffects.StepFollows` | pkg/reqmgr/transaction.go:41-63 | whatever the step, a transaction keeps its identity and follows the lifecycle, and a removed one is not touched |
| `ManagerInvariants.CreateKeeps` | pkg/reqmgr/manager.go:164-234 | admission keeps the manager's invariant for a fresh identifier |
| `ManagerInvariants.RetireKeeps` | pkg/reqmgr/manager.go:650-702 | the single exit keeps the manager's invariant for every final state and payload |
| `ManagerInvariants.MarkInFlightKeeps` | pkg/reqmgr/manager.go:295-327 | going in flight keeps it, with or without a buffered reply to deliver |
| `ManagerInvariants.ConcludeKeeps` | pkg/reqmgr/manager.go:596-634 | Fail and Timeout keep it in all four of their outcomes |
| `ManagerInvariants.ConcludeForm` | pkg/reqmgr/manager.go:541-573 | the outcome of Fail and Timeout is one of: refused, buffered, the buffered reply delivered instead, finished |
| `ManagerInvariants.ResumeFailedForm` | pkg/reqmgr/manager.go:461-494 | after a failed Save the transaction ends with its buffered reply, or stays unpublished, or gets its timer back, or times out past its deadline, each with the error the code returns |
| `ManagerInvariants.ResumeSavedKeeps` | pkg/reqmgr/manager.go:496-533 | after a successful Save the invariant holds whichever reply won |
| `ManagerInvariants.ReleaseKeeps` | pkg/reqmgr/manager.go:361-396 | both critical sections of ReleaseOperationLock keep the invariant |
| `RequestManager.RequestManager.CreateTransaction` | pkg/reqmgr/manager.go:164-234 | does to the object exactly what the admission function says and keeps the invariant |
| `RequestManager.RequestManager.TerminalTransition` | pkg/reqmgr/manager.go:636-704 | does exactly what the exit function says; the mutex is only unlocked when held |
| `RequestManager.RequestManager.MarkPreparingDispatch` | pkg/reqmgr/manager.go:261-276 | advances the state or reports why not, keeps the invariant |
| `RequestManager.RequestManager.MarkPendingPublish` | pkg/reqmgr/manager.go:278-293 | advances the state or reports why not, keeps the invariant |
| `RequestManager.RequestManager.MarkInFlight` | pkg/reqmgr/manager.go:295-327 | delivers a buffered reply or arms the response timer, as specified, keeps the invariant |
| `RequestManager.RequestManager.Complete` | pkg/reqmgr/manager.go:335-359 | buffers or finishes as specified, keeps the invariant |
| `RequestManager.RequestManager.SettlePending` | pkg/reqmgr/manager.go:551-558 | delivers a buffered reply if the transaction can be promoted to InFlight, else drops it |
| `RequestManager.RequestManager.Fail` | pkg/reqmgr/manager.go:541-573 | as specified, keeps the invariant |
| `RequestManager.RequestManager.Timeout` | pkg/reqmgr/manager.go:596-634 | as specified, keeps the invariant for the callback of an armed timer |
| `RequestManager.RequestManager.DispatchTimeoutFail` | pkg/reqmgr/manager.go:236-259 | as specified, keeps the invariant |
| `RequestManager.RequestManager.BeginRetain` | pkg/reqmgr/manager.go:401-439 | first critical section of RespondAndRetain, as specified, keeps the invariant |
| `RequestManager.RequestManager.ResumeAfterFailure` | pkg/reqmgr/manager.go:461-494 | critical section after a failed Save, as specified, keeps the invariant |
| `RequestManager.RequestManager.ResumeAfterSave` | pkg/reqmgr/manager.go:496-533 | critical section after a successful Save, as specified, keeps the invariant |
| `RequestManager.RequestManager.StartRelease` | pkg/reqmgr/manager.go:361-382 | first critical section of ReleaseOperationLock, as specified, keeps the invariant |
| `RequestManager.RequestManager.FinishRelease` | pkg/reqmgr/manager.go:389-393 | second critical section of ReleaseOperationLock, as specified, keeps the invariant |
| `RequestManager.RequestManager.Start` | pkg/reqmgr/manager.go:707-756 | over the disk store: the lock is held iff a listed record is of this boot and at most sweeperTTL old, then for the first such, a record is gone iff it was listed, of another boot and its deletion worked, and the outcome is an initial state of the interleaved model |
| `RequestManager.RequestManager.SweepOrphanedOperations` | pkg/reqmgr/manager.go:777-842 | the loop over the disk store's answer does exactly what the sequential sweep says to memory and store |
| `RequestManager.TransactionCache.Set` | pkg/reqmgr/cache.go:56-63 | from now on a lookup of the key finds the payload exactly until it expires, and no lookup of another key changes |
| `CacheTheorems.LastSetWins` | pkg/reqmgr/cache.go:56-112 | over any history of insertions and sweeps a lookup returns the payload of the latest insertion under its key while that has not expired, and nothing otherwise |
| `RequestManager.TransactionCache.SweepCache` | pkg/reqmgr/cache.go:102-112 | the deletion loop leaves exactly the unexpired entries, and no later lookup can tell |
| `Transactions.ValidateTransition` | pkg/reqmgr/transaction.go:41-63 | an accepted move raises the rank, never leaves a terminal state, and reaches TimedOut only from InFlight |
| `Transactions.LegalMoves` | pkg/reqmgr/transaction.go:41-63 | the ten legal moves, and AlreadyTerminal exactly from terminal states |
| `FrameHandler.Decide` | cmd/ucentral-client/handler.go:203-330 | a frame is admitted only with a response wanted iff it has an id, state-changing ones only with an id, and a valid notification is never answered |
| `CanonicalKeys.KeysAreFaithful` | pkg/reqmgr/manager.go:128-162 | for colon-free sessions two valid ids get equal keys iff both are notifications, or the session is the same and the ids are equal strings or numerals of equal exact rational value |
| `CanonicalKeys.KeyIsDefined` | pkg/reqmgr/manager.go:128-161 | every string or number of at most 256 bytes has a key, and nothing else but a missing id |
| `Rational.DigitsAreNumbers` | pkg/reqmgr/manager.go:150-156 | digits alone are worth the number they denote |
| `Rational.ExponentScales` | pkg/reqmgr/manager.go:150-156 | one more in the exponent is a factor of ten |
| `Rational.PointMoves` | pkg/reqmgr/manager.go:150-156 | moving the decimal point right takes one off the exponent; with the two laws above this fixes the value of every literal |
| `CanonicalKeys.ColonsCollide` | pkg/reqmgr/manager.go:148-149 | with colons in session names two different requests can share a key |
| `CanonicalKeys.SessionNames` | pkg/websocket/client.go:263-263 | generated session names are colon-free and distinct per generation |
| `Rational.ReduceIsNormalForm` | pkg/reqmgr/manager.go:150-156 | two fractions reduce to the same pair iff they are equal numbers |
| `Rational.RatStringIsInjective` | pkg/reqmgr/manager.go:155-156 | reduced fractions with the same text are equal |
| `DiskStore.DiskOperationStore.Save` | pkg/reqmgr/disk_store.go:43-104 | the record is stored under its operation unless the call failed before the rename, and one without a readable time only displaces the old one; other files are untouched |
| `DiskStore.DiskOperationStore.Get` | pkg/reqmgr/disk_store.go:106-132 | None iff the file is absent, and the saved document for a stored record |
| `DiskStore.DiskOperationStore.Delete` | pkg/reqmgr/disk_store.go:219-229 | exactly the operation's file goes, unless the call failed before the removal |
| `DiskStore.DiskOperationStore.QuarantinePath` | pkg/reqmgr/disk_store.go:250-258 | the file's entry is afterwards under its time-stamped name in quarantine and no longer in the directory, no other name in either place changes, the bag of all entries is conserved unless an older quarantined file is overwritten, and a file that cannot be renamed stays |
| `DiskStore.DiskOperationStore.GetActive` | pkg/reqmgr/disk_store.go:134-217 | returns the `limit` newest (all when limit is not positive) of exactly the well-formed active records, newest first; every readable corrupt file that can be renamed leaves and is in quarantine, all other files stay, and the bag of contents is conserved while no quarantine name is taken |
| `DiskStore.SortNewest` | pkg/reqmgr/disk_store.go:205-210 | a permutation of its argument, newest first |
| `DiskStore.TakeAnswers` | pkg/reqmgr/disk_store.go:212-214 | cutting the sorted list of all active records at the limit gives the newest ones and leaves out only older ones |
| `DiskStore.TidyKeepsRecords` | pkg/reqmgr/disk_store.go:159-203 | quarantining changes no record |
| `Scheduler.DequeueForm` | pkg/queues/scheduler.go:122-163 | a dequeue removes the head of one queue and returns it, finds nothing only when all queues are empty, and keeps capacities and levels |
| `Scheduler.PushKeeps` | pkg/queues/scheduler.go:64-88 | a push appends to its own level within capacity or changes nothing |
| `Scheduler.PushAcceptsExactly` | pkg/queues/scheduler.go:64-88 | a push is accepted iff its priority is 0 to 3 and its queue is below the emergency capacity for 0 and the common capacity for the rest |
| `Scheduler.YieldReaches` | pkg/queues/scheduler.go:124-134 | the round robin finds a message within the distance of a non-empty level and gets strictly closer to that level |
| `SchedulerTheorems.FirstInFirstOut` | pkg/queues/scheduler.go:73-163 | over any run, level by level: delivered followed by queued equals queued before followed by accepted |
| `SchedulerTheorems.BoundedWaiting` | pkg/queues/scheduler.go:122-150 | under any traffic the first k+1 messages of level 1, 2 or 3 are delivered in order within 33(k+1) dequeues and ten more for each dequeue that skips the level, Priority 0 being empty and a level in between not |
| `SchedulerTheorems.UnskippedWaiting` | pkg/queues/scheduler.go:122-150 | 33(k+1) dequeues suffice on level 1 whatever arrives, and on levels 2 and 3 while every dequeue finds Priority 0 waiting |
| `SchedulerTheorems.NeverSkipped` | pkg/queues/scheduler.go:137-147 | level 1 is never skipped, and no level is while Priority 0 is waiting |
| `SchedulerTheorems.LowerIsServed` | pkg/queues/scheduler.go:124-134 | among any eleven dequeues that each find a lower message waiting one returns a lower message |
| `SchedulerTheorems.PriorityOrder` | pkg/queues/scheduler.go:137-147 | a message overtakes a waiting more urgent one only after ten Priority-0 messages in a row, and the count restarts |
| `SchedulerTheorems.HighestIsPrompt` | pkg/queues/scheduler.go:122-150 | over any run whose every dequeue finds Priority 0 waiting, whatever arrives in between, at least ten Priority-0 messages are delivered between any two lower ones |
| `SchedulerTheorems.LowerStarves` | pkg/queues/scheduler.go:122-150 | without Priority-0 traffic a message of level 2 or 3 can wait for any number of dequeues |
| `PriorityScheduler.PriorityScheduler.Push` | pkg/queues/scheduler.go:73-88 | the object does what the push function says and stays within capacity |
| `PriorityScheduler.PriorityScheduler.TryDequeue` | pkg/queues/scheduler.go:122-150 | the two scanning loops do what the dequeue function says |
| `Transport.ResponsesStayHome` | pkg/websocket/client.go:605-689 | over any run, even with overlapping sessions, no retained message is a response, every response written went to the socket of its own session, every one discarded was discarded by the writer of another session, and writes follow the order of connections |
| `Transport.GivenUpExactlyWhen` | pkg/websocket/client.go:605-689 | a move gives a response up iff a writer of another session holds it, or its write fails, or its fetch goroutine offers it after its session is over |
| `Transport.HeldCanBeWritten` | pkg/websocket/client.go:658-689 | a message the writer holds for its own session, or below Priority 0, can be written and not discarded |
| `Transport.HealthySessionWrites` | pkg/websocket/client.go:636-698 | in a session that is neither cancelled nor has a failed write, every response for it that leaves is written to its socket |
| `Transport.NextGoesOut` | pkg/websocket/client.go:605-698 | the message the scheduler gives next goes out in four moves, and the session is ready for the one after |
| `Transport.RetainedGoesFirst` | pkg/websocket/client.go:579-605 | a message retained from an earlier session is written before the new session asks the scheduler |
| `Transport.CancelFreesFetchers` | pkg/websocket/client.go:587-622 | after a cancellation a waiting fetch goroutine can leave, and the lower message it offers is retained if the slot is free |
| `Transport.OneSocketPerResponse` | pkg/websocket/client.go:253-263 | a response for session g was written on connection g and no other |
| `Transport.SessionsIncrease` | pkg/websocket/client.go:253-263 | over any run generations never decrease, and a session started later has a larger number and another name |
| `Transport.NothingInvented` | pkg/websocket/client.go:571-698 | over any run, even with overlapping sessions, every message is gone, on its way or queued exactly as often as it was accepted; so none is written more often than it was pushed |
| `Transport.NothingLost` | pkg/websocket/client.go:571-698 | if every session starts after earlier fetch goroutines exited: at each step, per level, accepted equals gone, then the one in transit or retained, then queued; below Priority 0 gone means written |
| `Transport.WrittenInOrder` | pkg/websocket/client.go:571-698 | from a fresh client what was written on a level below 0 is a prefix of what was pushed, at most one message is out of the queues, and no queue exceeds its capacity |
| `Transport.LosesExactlyWhen` | pkg/websocket/client.go:594-690 | a move gives up a message below Priority 0 iff it would retain it and the slot is taken |
| `Transport.OverlapLoses` | pkg/websocket/client.go:571-625 | a run with two overlapping fetch goroutines that loses a Priority-1 message |
| `EndToEnd.ResponsesEndToEnd` | pkg/reqmgr/manager.go:694-702 | over every run of manager, handler, scheduler and writer together, overlapping fetch goroutines included: each response that left the client is one push, unaltered, which answers an inbound frame and carries the session that frame came in on; if written it went to that session's socket, and if discarded then not by that session's writer; and different responses are different pushes answering different frames |
| `EndToEnd.ResponsesInOrder` | pkg/websocket/client.go:571-698 | without overlapping fetch goroutines the responses leave in the order in which the scheduler accepted them |
| `EndToEnd.EventKeeps` | cmd/ucentral-client/handler.go:171-201 | every event of manager or client keeps the link between inbound frames, pushes, accepted responses and what left |
| `Configure.ValidateAndGetUUID` | pkg/contracts/rpc.go:309-384 | terminates with at most one decompression, and none without compressed data |
| `Configure.AcceptedExactly` | pkg/contracts/rpc.go:309-384 | validation yields a UUID iff the request is plain and well-formed, or carries nothing but one in compressed form of the announced size, and the UUID is the configuration's own positive version or else the request's |
| `Configure.ValidatedIsPositive` | pkg/contracts/rpc.go:327-361 | a validated UUID is a positive int64 |
| `Configure.ValidatedIsEffective` | pkg/contracts/rpc.go:933-958 | after successful validation EffectiveUUID succeeds with at most one decompression, and agrees iff it is not the case that the configuration as given fails to decode while its trimmed form states a positive version other than the request's; in particular it agrees if trimming leaves the configuration alone |
| `Configure.DecodedAgrees` | pkg/contracts/rpc.go:933-958 | for every request out of the JSON decoder the two agree |
| `Configure.PaddingDisagrees` | pkg/contracts/rpc.go:336-361 | for a hand-made request with a padded configuration they can differ |
| `Configure.AdmittedConfigureSubmits` | pkg/nats/client.go:103-118 | the UUID text printed for an admitted configure is that of a positive int64, passes SubmitConfigure's checks, and is the only decimal text that does |
| `Configure.SubmitsExactly` | pkg/nats/client.go:97-118 | the client's checks pass iff the version is 1.0, the UUID text a positive int64, and the payload valid with that UUID |
| `Decimal.ParsePrintRoundTrip` | pkg/nats/client.go:103-106 | every int64 survives printing and parsing |
| `ResultQueue.FlipsNeedTraffic` | pkg/queues/hysteresis.go:45-62 | n flips of the monitor need at least (n - 1)(upper - lower)capacity pushes and pops |
| `ResultQueue.WatermarksDecide` | pkg/queues/hysteresis.go:45-62 | a check throttles at the upper watermark, recovers at the lower one, and changes nothing in between |
| `ResultQueue.CommandResultQueue.Push` | pkg/queues/results.go:86-99 | appends iff there is room |
| `ResultQueue.CommandResultQueue.Pop` | pkg/queues/results.go:102-120 | removes and returns the oldest item |
| `ResultQueue.HysteresisMonitor.IsThrottled` | pkg/queues/hysteresis.go:45-62 | reports throttling at or above the upper watermark, none at or below the lower one, and its previous answer in between |
| `RingBuffer.TelemetryRingBuffer.Push` | pkg/queues/buffer.go:31-52 | the array with head and tail refines an ideal queue that drops its oldest item when full; tail = (head + size) mod capacity |
| `RingBuffer.TelemetryRingBuffer.Pop` | pkg/queues/buffer.go:56-70 | removes and returns the oldest item, same invariant |
| `RingBuffer.NewestUnpopped` | pkg/queues/buffer.go:31-70 | over any run the contents are the newest items neither popped nor dropped, in order, and pushes = pops + drops + size |
| `RingBuffer.PopReturnsOldest` | pkg/queues/buffer.go:56-70 | after any run a pop returns the oldest such item |
| `RingBuffer.DropsOldest` | pkg/queues/buffer.go:40-45 | a push drops an item iff the buffer is full, and then the oldest |

## Left out

- TLS, dialing, the connect handshake, ping and pong deadlines, and frame reading: network plumbing.
- NATS publishing and subscription, capability loading, and everything behind the agent library.
- JSON, base64, zlib, UUID and RFC 3339 texts, and the schema validator: deterministic parameters with the stated round trips.
- Configuration files, environment variables and their clamping.
- Validate methods of the individual commands, their enums and result payloads; `paramsOk` stands for their verdict.
- fsync and partially written files: a Save is one update of the directory that may also report failure.
- Condition variables and the blocking loop of scheduler Next: a fetch is enabled when a dequeue would find a message.
- Real timers: a response timer is a flag, and its callback may run at any time once it was armed.
- NATSDispatchBuffer and the state coalescer: they would add only easy members; a full dispatch buffer is a choice of step ExecBuffer.
- The queue of the result workers: on overflow the result is handled inline with the same manager calls, which are the Result steps; a result that never arrives is a run without that step.
- getTransactionTimeout: the selected time-out is part of the inbound frame.
- SetBootID during a run: the boot identifier is fixed.
- The writer's goroutines are a step machine on values, not objects: their fields are shared under c.mu and only interleavings matter.
- Transactions are values in the manager's table, not shared pointers; what a dangling pointer reaches is the map `retired`.
- Floating-point rounding of Utilization: exact ratios are used.
- Configure.EffectiveUUID: takes a bound on nested decompressions, because the code does not limit them; the results need a bound of one.
- Transport.NothingLost: needs fetch goroutines not to overlap; OverlapLoses shows why.
- EndToEnd.ResponsesEndToEnd: responses are paired with pushes by session and payload; two pushes with equal session and payload are not told apart.
- GetActive beside concurrent Saves and Deletes: the interleaved model reads the store in one step, while the code lists the directory and then reads file by file.
- ResponseTheorems.NotificationsAreSilent: only for frames that parse and are valid requests; a frame that fails the full parse or the structural check is answered with a null id, as in the code.
