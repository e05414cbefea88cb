# A lease cache, verified

The repository is a cache in which a read or an update of a key grants a
*lease*: the answer carries a value and a deadline, and the value is not to
change before the deadline. An update that arrives under a lease is deferred
until the lease runs out, then commits and is answered. One binary-heap timer
queue drives every expiry, and its callbacks come back into the state machines
and wind up more timers. Responses are repeated once if no acknowledgement
comes within 500 ms.

The project models the server (timer queue, lease state machine, cached
elements, the two bookkeeping maps), its clients, the identifiers and the
deadline arithmetic between them, and a network that loses, delays, reorders
and repeats. The main results hold in every run:

* **Lease safety** (`Safety.LeaseSafety`): after an Ok answer with a value and
  a deadline, the value of the key is that value at every later moment before
  the deadline.
* **End-to-end coherence** (`Coherence.EndToEnd`): the same for what a client's
  callback was told, with the deadline as the client recovers it from 32 bits.
* **Refinement** (`Safety.StepRefines`, `Drain.DrainRefines`): the data center
  with its heap of timers behaves, key by key, like an entry with a value, a
  promise and at most one waiting update (`KeySpec.Entry`).
* **Value history, bounded wait, conservation, retransmission**
  (`Safety.ValueIsLastCommit`, `Safety.BoundedWait`,
  `Accounting.EachRequestOnce`, `Accounting.SentOnceOrTwice`,
  `Accounting.ClosedBy`).
* **The guards of a run are exact** (`Guards.GuardsAreExact`): after any step of
  any run, in every guarded continuation by whole ticks all promises are kept
  and no callback throws, if and only if that step heeded its guard. The
  exceptions of the handlers themselves are those of `KeySpec.RefusedWhen`.
* **Beliefs are exact** (`Beliefs.BeliefIsSafeWhen`): what a client was told,
  however late, is safe until the deadline it computes if and only if the
  entry of the key covers it.
* **The drain loop is exact, ordered and terminates** (`Drain.DrainIsExact`,
  `Drain.DrainInOrder`, `Drain.TurnSpendsToken`, `Server.CacheServer.Tick`).

## How it is built

The code changes state in place, so each of its classes is a Dafny class with
the same fields: `TimerQueue`, `CacheStateManager`, `CacheElement`,
`CacheDataCenter`, `CacheServer`, `CacheClient`, `SnowFlake`. Every method is
proved equal to a function on the abstract state (`ManagerUpdate`,
`CenterUpdate`, `HandledUpdate`, `Turned` and so on). Invariants and runs are
about those functions. The abstract queue is a map from address to timer; the
heap order exists only in the class, and `Tick` is proved to take a drain in
the sense of `Drain.IsDrain`, whichever of several equal timers its heap puts
first.

| file | content |
|---|---|
| `Common.dfy`, `Messages.dfy` | widths, deadline arithmetic, messages, callbacks as data |
| `TimerHeap.dfy`, `TimerQueue.dfy` | the sift loops, the queue with lazy deletion |
| `StateManager.dfy`, `DataCenter.dfy` | the lease state machine, the values and their map |
| `ServerModel.dfy`, `Server.dfy` | what the server does with each message and timer; the object that does it |
| `ServerInvariant.dfy`, `Ownership.dfy` | who owns which timer, and that nobody touches another's |
| `KeySpec.dfy`, `Drain.dfy` | the cache as its user sees it; one complete drain |
| `SnowFlake.dfy`, `Client.dfy` | identifiers; the pending table and the callbacks |
| `World.dfy`, `Safety.dfy`, `Accounting.dfy`, `Coherence.dfy` | runs, and what holds in all of them |
| `Responses.dfy`, `ApplicationTimers.dfy` | what responses say and when they are repeated; when the application's callbacks run |
| `Strays.dfy`, `Hypotheses.dfy`, `Collisions.dfy`, `LateUpdates.dfy`, `Duplicates.dfy` | what whole ticks do where a guard was not heeded |
| `Schedules.dfy`, `Guards.dfy`, `Beliefs.dfy` | continuations by whole ticks; that the guards are exact, and the beliefs of clients |
| `Counterexamples.dfy`, `Unguarded.dfy` | runs that reach what the guards exclude, what holds without them |

## Modelling decisions

* Callbacks are data (`LeaseExpired`, `CommitDeferred`, `Resend`, `User`) and
  the server dispatches them.
* A timer is named by its address. Addresses are recycled, so a new timer gets
  any nonzero address that is not in the queue at that moment.
* The clock is a parameter, read once per step, and never goes back in a run.
  The code reads it several times per step.
* The identifiers that a step obtains (addresses of timers) are parameters of
  the state functions and results of the methods; lemmas hold for all of them.
* Runs are guarded (`World.Guarded`) by what the code needs and does not check:
  a key that is read is not *overdue* (its lease ran out and its timer was not
  drained); an update that would be deferred has a low half of its own and
  finds no lease so late that the delay wraps. That is less than draining before
  every operation (`Ownership.DrainedIsSafe`). Operation identifiers are fresh
  in any case (`World.Possible`).
* In a run any timer that is due may fire, and messages may arrive in the middle
  of a tick, so what holds in every run holds for more orders than the code
  takes. What breaks is shown on *schedules* (`Schedules.IsSchedule`): each
  firing takes an earliest timer, and nothing else happens until nothing is due
  or a callback throws.

## Findings

* A read of an overdue key leaves the old timer enabled without an owner. The
  next tick, in whatever order, ends the new lease at once without an exception
  (`Hypotheses.OverdueReadDrained`), and an update takes effect inside it
  (`Hypotheses.LeaseBrokenAfterSomeRun` builds such a run for any values).
* An update of an overdue key is refused, unless its lateness modulo 2^32 is
  more than 2^31 ms (`LateUpdates.LateUpdate`). Lateness 2^31 + 1 wraps, 2^32 + 5
  does not. A wrapped update is deferred by up to 2^31 ms instead, and the next
  tick frees the key through the old timer, still enabled
  (`LateUpdates.LateUpdateDrained`). Later updates are answered Ok until the tick
  at the wrapped deadline overwrites one of them inside its lease
  (`LateUpdates.LateUpdateBreaksLease`, reached by
  `Counterexamples.LateUpdateIsReached`).
* Two deferred updates with the same low half of their identifiers share one
  entry (`Counterexamples.CollisionIsReached`). If the second key commits first,
  the answer goes to the first request: Ok, with a value its key does not have
  (`Collisions.DrainAnswersFirst`). A tick that finds both due ends in
  an exception, in whatever order (`Collisions.NoDrainPastCollision`). The commit that throws has stored
  its value, its timer stays due, and its next run throws again and stores the
  moved-from, empty value (`Collisions.ThrowingCommitRepeats`).
* A request that is answered again while its first answer waits for its
  acknowledgement winds up a second timer without an entry
  (`Duplicates.RepeatedReadDoubles`). A tick that finds both timers due ends in an
  exception (`Duplicates.NoDrainPastDoubled`), and from then on every turn of the
  second timer sends the response once more and throws again
  (`Duplicates.UnrecordedThrows`).
* When a client cannot send its acknowledgement, the request stays pending
  after its callback ran, and a repeated response runs it again. A callback
  runs once per failed acknowledgement, and once more when it is done with
  (`Coherence.CallbacksCounted`).
* A client that takes a response later than its deadline believes in it again
  if and only if the lateness, modulo 2^32, is more than 2^31 ms
  (`Coherence.BelievedWhen`). It then believes in a value that the server may
  no longer have (`Counterexamples.StaleBelief`); `Beliefs.BeliefIsSafeWhen` says
  exactly when that can happen.
* The comment at `cache_system/include/cache_state_manager.h:43-44` says that a
  read of a protected key answers with the current time; the code does so, and
  that answer is Ok without any promise (`KeySpec.ReadAnswers`).
* Of the 16 bits that tell generators apart, the identifier keeps six: the top
  bit and the two low bits of the data center and the six low bits of the
  worker are lost, and one bit is shared by both
  (`SnowFlakeIds.MachineBitsAreMachineId`, `SnowFlakeIds.MachinesCollide`).

## Model

| member | source | states |
|---|---|---|
| Common.DeadlineRoundTrip | cache_system/include/common.h:83-86 | a deadline sent as uint32 comes back as the exact remaining time if and only if it is within 2^31 ms, before or after |
| Common.PastLooksAhead | cache_system/include/common.h:83-86 | a deadline of the past, sent as uint32, looks like one of the future if and only if the lateness modulo 2^32 exceeds 2^31 ms, and then by how much |
| Common.NegatedSpan | cache_system/include/cache_state_manager.h:108 | the 32-bit delay of a lease that ran out is positive if and only if its lateness wraps, and then what it is |
| Common.ToInt32 | cache_system/include/common.h:85 | the narrowing cast gives the one number of the signed 32-bit range that is congruent modulo 2^32, and keeps a number exactly when it is in that range |
| TimerHeap.FrontIsLeast | cache_system/src/timer_queue.cc:64 | the front of a heap expires no later than any timer |
| TimerHeap.SiftUp | cache_system/src/timer_queue.cc:47 | a heap with a hole at a leaf becomes a heap holding the placed timer, with the same timers; an earlier-or-equal front stays |
| TimerHeap.LowerToLeaf | cache_system/src/timer_queue.cc:74 | the hole moves from the root to a leaf, losing no timer and keeping the order around it |
| TimerHeap.PushHeap | cache_system/src/timer_queue.cc:47 | appending then sifting yields a heap of the same timers, and never displaces a front that is no later than the new timer |
| TimerHeap.PopHeap | cache_system/src/timer_queue.cc:80-81 | the front goes to the end and the rest is a heap, same timers, even when the key of the front was raised first |
| EventTimers.TimerQueue.FrontIsEarliest | cache_system/src/timer_queue.cc:64-65 | the front is a timer of the queue that no other precedes |
| EventTimers.TimerQueue.AddTimer | cache_system/src/timer_queue.cc:35-50 | zero repeats is an argument error and changes nothing; otherwise exactly one timer is added under an address not in the queue, and a due front stays the front |
| EventTimers.TimerQueue.EmplaceBack | cache_system/src/timer_queue.cc:41-47 | the heap gains exactly the new timer |
| EventTimers.TimerQueue.DelTimer | cache_system/src/timer_queue.cc:51-60 | exactly the timer with that address is disabled and stays in the queue; the heap and its front stay |
| EventTimers.TimerQueue.SettleFront | cache_system/src/timer_queue.cc:68-84 | after the callback the front counts one firing, then leaves or is wound up again; all others stay |
| EventTimers.TimerQueue.RemoveFront | cache_system/src/timer_queue.cc:74-75 | exactly the front leaves the heap |
| EventTimers.TimerQueue.RewindFront | cache_system/src/timer_queue.cc:79-83 | raising the front's expiry before pop and push keeps a heap of the right timers |
| EventTimers.ListsDisabled | cache_system/src/timer_queue.cc:54-59 | disabling every timer with an address in the array is disabling the one timer of that address |
| StateManager.CacheStateManager.constructor | cache_system/include/cache_state_manager.h:120-126 | a new manager is idle with no timer |
| StateManager.CacheStateManager.StopExpire | cache_system/include/cache_state_manager.h:166-171 | the timer is deleted and forgotten only if its deadline is in the future |
| StateManager.CacheStateManager.StartExpire | cache_system/include/cache_state_manager.h:161-165 | the old timer is stopped, a new one runs once, and deadline and address are recorded |
| StateManager.CacheStateManager.EnterIdle | cache_system/include/cache_state_manager.h:65-68 | timer and deadline are forgotten, no timer is touched |
| StateManager.CacheStateManager.EnterGuaranteed | cache_system/include/cache_state_manager.h:88-92 | a lease of 10000 ms starts |
| StateManager.CacheStateManager.EnterUpdateProtected | cache_system/include/cache_state_manager.h:107-117 | a remaining 32-bit delay of zero or less is an exception with nothing changed; otherwise the commit timer runs for that delay |
| StateManager.CacheStateManager.ReadOp | cache_system/include/cache_state_manager.h:60-64 | results and state changes of a read in each of the three states |
| StateManager.CacheStateManager.UpdateOp | cache_system/include/cache_state_manager.h:73-81 | results, exceptions and state changes of an update in each of the three states |
| DataCenter.CacheElement.UpdateOp | cache_system/include/cache_data_center.h:56-71 | an accepted value is stored, a deferred one set aside, any other dropped |
| DataCenter.CacheElement.Commit | cache_system/include/cache_data_center.h:45-49 | the new lease starts, then the set-aside value is committed, under the recorded operation |
| DataCenter.CacheDataCenter.ReadOp | cache_system/include/cache_data_center.h:93-99 | a known key is read and leased, an unknown one is NoData with the caller's variables untouched; no other key changes |
| DataCenter.CacheDataCenter.FindOrCreate | cache_system/include/cache_data_center.h:103-112 | an unknown key gets a new element, nothing else changes |
| DataCenter.CacheDataCenter.UpdateOp | cache_system/include/cache_data_center.h:102-114 | an update reaches the element of its key, created if missing, and no other |
| DataCenter.CacheDataCenter.OnLeaseExpired | cache_system/include/cache_state_manager.h:89-91 | a lease that ran out makes its key idle |
| DataCenter.CacheDataCenter.OnCommit | cache_system/include/cache_state_manager.h:112-115 | a deferred update commits its own value under a new lease |
| Server.CacheServer.constructor | cache_system/include/protobuf_message_server_impl.h:212-213 | a new server is empty |
| Server.CacheServer.Respond | cache_system/include/protobuf_message_server_impl.h:72-84 | the resend timer is wound up and recorded unless the operation already waits; the response is sent once |
| Server.CacheServer.OnReadRequest | cache_system/include/protobuf_message_server_impl.h:162-174 | the whole new state of the server after a read request |
| Server.CacheServer.OnUpdateRequest | cache_system/include/protobuf_message_server_impl.h:215-229 | the whole new state after an update request; an exception of the state machine is reported and leaves no answer |
| Server.CacheServer.StartTimer | cache_system/include/timer_queue.h:87-88 | the application may add timers of its own |
| Server.CacheServer.OnAck | cache_system/include/protobuf_message_server_impl.h:85-96 | an acknowledgement ends the wait of its operation, one for an unknown operation does nothing |
| Server.CacheServer.Commit | cache_system/include/protobuf_message_server_impl.h:246-270 | a commit answers the recorded request and takes it off the record; a missing entry is an exception |
| Server.CacheServer.Call | cache_system/src/timer_queue.cc:69 | what each callback does, when it throws, and that a due front stays the front meanwhile |
| Server.CacheServer.TakeTurn | cache_system/src/timer_queue.cc:65-84 | one turn of the loop takes an earliest timer that is due and does what that turn should |
| Server.CacheServer.Tick | cache_system/src/timer_queue.cc:61-89 | the loop ends, its turns form a drain from the old state to the new, nothing is due afterwards, and with books in order no callback throws |
| ServerInvariant.TurnKeepsInv | cache_system/src/timer_queue.cc:68-84 | no turn throws, and each keeps every timer owned |
| ServerInvariant.HandledReadKeepsInv | cache_system/include/protobuf_message_server_impl.h:162-174 | a read of a key that is not overdue keeps every timer owned |
| ServerInvariant.HandledUpdateKeepsInv | cache_system/include/protobuf_message_server_impl.h:215-229 | an update keeps every timer owned and deferrals matching their keys |
| ServerInvariant.AcknowledgedKeepsInv | cache_system/include/protobuf_message_server_impl.h:85-96 | an acknowledgement keeps every timer owned |
| ServerInvariant.TurnKeepsOwners | cache_system/src/timer_queue.cc:68-84 | a turn that does not throw keeps every timer owned, even while a key waits without an entry, and what it does to values and maps |
| ServerInvariant.DelayIsPositive | cache_system/include/cache_state_manager.h:108-110 | the delay of a deferral is positive if and only if the lease runs or its lateness wraps, with its value in both cases |
| Unguarded.ReadKeepsWellFormed | cache_system/include/protobuf_message_server_impl.h:162-174 | any read, overdue or not, leaves a queue in which no lease or resend timer lacks a delay |
| Unguarded.UpdateKeepsWellFormed | cache_system/include/protobuf_message_server_impl.h:215-229 | so does any update |
| Unguarded.AckKeepsWellFormed | cache_system/include/protobuf_message_server_impl.h:85-96 | so does any acknowledgement |
| Unguarded.TurnKeepsWellFormed | cache_system/src/timer_queue.cc:68-84 | so does any turn, also one that throws |
| Unguarded.EveryRunIsWellFormed | sample/server.cc:28-31 | in every run, guarded or not, the queue is one that `Tick` accepts and drains in finitely many turns |
| ServerInvariant.StartedOnlyKey | cache_system/include/cache_state_manager.h:161-171 | starting the timer of a key replaces its own timer and touches no other |
| ServerInvariant.OnlyKeyKeepsOwners | cache_system/src/timer_queue.cc:51-60 | a step on one key never disturbs the timer of another owner |
| ServerInvariant.FiringIsOnRecord | cache_system/include/cache_state_manager.h:112-116 | a lease timer that fires is the one its key records, at its deadline, for the last time |
| ServerInvariant.DrainedLeavesNoneOverdue | cache_system/src/timer_queue.cc:65 | when nothing is due, every lease ends 1 to 10000 ms from now |
| KeySpec.ReadRefines | cache_system/include/cache_data_center.h:50-54 | a read extends the promise of its key, unless an update waits, and changes no other entry |
| KeySpec.ReadAnswers | cache_system/include/protobuf_message_server_impl.h:192-196 | a read answers the committed value with a promise of 10000 ms that the entry now has, none while an update waits; NoData passes on what the handler's variables hold |
| KeySpec.UpdateRefines | cache_system/include/cache_data_center.h:102-114 | an accepted update that can be deferred if it is to be takes effect, waits, or is turned away, by the entry of its key; no other entry changes |
| KeySpec.RefusedWhen | cache_system/include/cache_state_manager.h:74-75 | with books in order, an update is refused as an illegal argument if and only if its identifier is cut to zero under a promise, and with a system error if and only if it is not and its key is overdue by a lateness that does not wrap |
| KeySpec.UpdateAnswers | cache_system/include/protobuf_message_server_impl.h:272-289 | Ok with a promise of 10000 ms, Retry with the standing one, or no answer yet, by the entry |
| KeySpec.TurnRefines | cache_system/include/cache_state_manager.h:88-117 | a firing lease timer lets the entry of its key elapse, every other turn and entry stays |
| KeySpec.AckRefines | cache_system/include/protobuf_message_server_impl.h:85-96 | an acknowledgement changes no entry |
| Drain.CallTimers | cache_system/src/timer_queue.cc:69 | a callback leaves every timer of the queue as it is and adds only timers of the future |
| KeySpec.TurnKeepsElapsed | cache_system/src/timer_queue.cc:61-89 | whichever timer fires first, letting time pass afterwards gives the same entry as before it |
| Drain.TurnTimers | cache_system/src/timer_queue.cc:68-84 | a turn consumes one firing of its own timer and touches no other |
| Drain.DrainInOrder | cache_system/src/timer_queue.cc:64-65 | timers fire in nondecreasing order of expiry, all of them due |
| Drain.DrainIsExact | cache_system/src/timer_queue.cc:61-89 | a complete drain fires each timer exactly as often as it is due: never a deleted or a future one |
| ApplicationTimers.StepLogs | cache_system/src/timer_queue.cc:68-69 | the callback of the application runs once when its enabled timer is fired, and at no other step |
| ApplicationTimers.StartedTimerDue | cache_system/include/timer_queue.h:54-58 | a timer started now is not due before its timeout, then once, or as often as it repeats if it has no delay |
| ApplicationTimers.DrainRunsCallbacks | cache_system/src/timer_queue.cc:61-89 | a complete drain runs each callback of the application exactly as often as its timers are due, summed over them |
| Drain.DrainRefines | cache_system/src/timer_queue.cc:61-89 | after a complete drain each entry is what time makes of it, whatever order the heap chose |
| Drain.TurnSpendsToken | cache_system/src/timer_queue.cc:65-88 | each turn strictly shrinks the firings that due timers have left, so the loop ends |
| Drain.DrainExists | cache_system/src/timer_queue.cc:61-89 | every well-formed queue has a drain in order, to the end or up to a callback that throws |
| Ownership.OneLeaseTimer | cache_system/include/cache_state_manager.h:161-171 | an enabled timer is the lease timer of a key if and only if the key is not idle and records it; it carries the deadline |
| Ownership.OneResendTimer | cache_system/include/protobuf_message_server_impl.h:72-84 | wait-for-ack entries and enabled 500 ms resend timers correspond one to one |
| Ownership.ReadSparesOthers | cache_system/src/timer_queue.cc:51-60 | a read leaves every timer alone but the enabled one of its key, even with recycled addresses |
| Ownership.UpdateSparesOthers | cache_system/src/timer_queue.cc:51-60 | so does an update |
| Ownership.AckSparesOthers | cache_system/include/protobuf_message_server_impl.h:93-95 | an acknowledgement stops the resend timer of its operation and no other timer |
| Ownership.CallSparesItsTimer | cache_system/src/timer_queue.cc:69-70 | a callback never deletes its own timer, so the count after it is exact and does not wrap |
| Ownership.DeferralKeepsDeadline | cache_system/include/cache_state_manager.h:107-117 | the remaining delay is 1 to 10000 and exact, and the re-armed deadline equals the old one |
| Ownership.DrainedIsSafe | sample/server.cc:28-31 | in a drained state no read is unsafe, and an update exactly when its low half is taken |
| World.StepKeepsOps | cache_system/include/protobuf_message_server_impl.h:280-282 | what the server keeps on record comes from requests it took |
| World.SentIs | cache_system/include/protobuf_message_server_impl.h:171-172 | a step sends its answer, or repeats one response, or sends nothing |
| Safety.StepKeepsInv | cache_system/src/timer_queue.cc:61-89 | every enabled step keeps every timer owned and no callback throws |
| Safety.RunKeepsInv | cache_system/src/timer_queue.cc:61-89 | so in every state of every run |
| Safety.PathKeepsSane | cache_system/src/timer_queue.cc:61-89 | from a world in order, every guarded continuation stays in order and runs no callback that throws |
| Safety.DrainIsRun | sample/server.cc:28-31 | a drain of the server is a piece of a run, whatever order its heap takes |
| Safety.StepRefines | cache_system/include/cache_data_center.h:93-114 | every step changes every entry as the per-key specification says |
| Safety.AnswerIsTrue | cache_system/include/protobuf_message_server_impl.h:123-132 | an Ok answer tells the value its key then has, with a deadline within 10000 ms that the entry covers |
| Safety.ValueChanges | cache_system/include/cache_data_center.h:63-67 | a value changes exactly when an update of its key is answered Ok, and is then that of the update |
| Safety.LeaseSafety | cache_system/include/cache_state_manager.h:52-118 | in every run, after an Ok answer the value of the key stays until the deadline |
| Safety.ValueIsLastCommit | cache_system/include/cache_data_center.h:45-71 | in every run the value of a key is that of the last update answered Ok |
| Safety.RunAnswersCurrent | cache_system/include/protobuf_message_server_impl.h:123-132 | in every run each Ok answer, also to a read while an update waits, tells the value of the last update answered Ok up to it |
| Safety.PendingStays | cache_system/include/cache_state_manager.h:97-106 | reads and further updates never move or overwrite a waiting update; only its own commit ends the wait, with its value and identifier |
| Safety.WaitsOrCommits | cache_system/include/cache_state_manager.h:107-117 | in every run a waiting update waits unchanged or was answered Ok with its own value, no earlier than its deadline |
| Safety.BoundedWait | cache_system/include/cache_state_manager.h:107-117 | it waits at most 10000 ms, and is committed by the first drained moment at or after its deadline |
| Accounting.WaitsAfter | cache_system/include/protobuf_message_server_impl.h:72-108 | an operation waits for its acknowledgement after a step if and only if it was answered, or waited and was neither repeated nor acknowledged |
| Accounting.DeferredAfter | cache_system/include/protobuf_message_server_impl.h:246-289 | an operation is deferred after a step if and only if the step deferred it, or it was deferred and not answered |
| Accounting.StepMovesOn | cache_system/include/protobuf_message_server_impl.h:72-108 | how each step moves an operation on, and how often it is sent on the way |
| Accounting.EachRequestOnce | cache_system/include/protobuf_message_server_impl.h:215-289 | each request taken is answered once, or still deferred, or was refused; never two of these |
| Accounting.SentOnceOrTwice | cache_system/include/protobuf_message_server_impl.h:45-49 | a response is sent at most twice, once while it waits, never without an answer |
| Accounting.ClosedForGood | cache_system/include/protobuf_message_server_impl.h:102-108 | what no longer waits is never sent again |
| Accounting.ClosedBy | cache_system/include/protobuf_message_server_impl.h:45-49 | an operation acknowledged in time was sent once for good, any other twice |
| Responses.TimerOfAnswer | cache_system/include/protobuf_message_server_impl.h:67-82 | in every run the timer of a waiting operation expires exactly 500 ms after its one answer was given, and carries that answer |
| Responses.NeverRepeatedEarly | cache_system/include/protobuf_message_server_impl.h:45-49 | in every run no response is repeated before 500 ms have passed since its answer, and what is sent is that answer |
| Responses.RepeatedInTime | cache_system/src/timer_queue.cc:61-89 | at the first drained moment from 500 ms on, an operation no longer waits |
| Responses.RunAnswersFit | cache_system/include/protobuf_message_server_impl.h:123-132 | in every run each answer has the type and the key of its request; a read is answered Ok or NoData, an update Ok or Retry with its own value |
| Responses.RunResponsesFit | cache_system/include/protobuf_message_server_impl.h:186-189 | in every run each response sent, and each that a timer holds, is a read response if and only if its request is a read, and has its key and an update's value |
| Responses.RunRepeatsLastRead | cache_system/include/protobuf_message_server_impl.h:192-201 | in every run a NoData answer has the value and the deadline of the last read answer before it, or is empty with deadline 0 |
| Responses.NeverWrongKey | cache_system/include/protobuf_message_client_impl.h:51-54 | in every run a response is unknown to its client or of the key it waits under: the exception for a mismatch never occurs |
| Coherence.StepKeepsResponses | cache_system/include/protobuf_message_server_impl.h:123-132 | every response sent or waiting to be repeated tells an answer that was given |
| Coherence.RunFoundsCallbacks | cache_system/include/protobuf_message_client_impl.h:55 | in every run a callback is given an answer of the server, and not before it was made |
| Coherence.BelievedWhen | cache_system/include/protobuf_message_client_impl.h:55 | a client believes in an Ok answer for no longer than its deadline, or not at all, if and only if it is not late by a lateness that wraps |
| Coherence.EndToEnd | cache_system/include/protobuf_message_client_impl.h:39-58 | after a callback with Ok that could read its deadline, the server's value is the one told until the deadline the client computes |
| Beliefs.BelievableWhenCovered | cache_system/include/cache_state_manager.h:88-117 | in every run a value is safe until some time ahead, in all guarded continuations by whole ticks, if and only if the entry promises it that long, or waits to commit the same value and will promise that long enough |
| Beliefs.BeliefIsSafeWhen | cache_system/include/protobuf_message_client_impl.h:55 | the same for what a callback was told and the deadline its client computes, however late the response |
| Coherence.CallbacksCounted | cache_system/include/protobuf_message_client_impl.h:161-162 | in every run a callback ran once per acknowledgement of its own that failed, and once more if the client no longer waits; never for an operation the client did not issue |
| Coherence.AtMostOnce | cache_system/include/protobuf_message_client_impl.h:161-162 | a callback ran at most once if and only if none of its acknowledgements failed, or one did and the client still waits |
| Coherence.CallbacksAreAsked | cache_system/include/protobuf_message_client_impl.h:51-55 | a callback runs only on the identifier and the key that this client asked for |
| Coherence.PendingUntilHandled | cache_system/include/protobuf_message_client_impl.h:151-162 | a request leaves the table if and only if its response with its key was handled and acknowledged; a mismatch leaves it pending |
| Client.RepeatedResponse | cache_system/include/protobuf_message_client_impl.h:55-57 | a repeated response runs the callback again exactly when the first acknowledgement failed |
| Client.CacheClient.constructor | cache_system/include/protobuf_message_client_impl.h:138-140 | a new client has nothing pending, and its generator is that of its data center and worker |
| Client.RequestsCollide | cache_system/include/protobuf_message_client_impl.h:164-179 | the identifiers of two requests of two clients are equal if and only if the six surviving bits of their data centers and workers agree, their stamps, and their numbers modulo 4096 |
| Client.FirstIdOfSample | sample/client.cc:9 | the first identifier of the sample's client, bit for bit |
| Client.ReusedIdentifier | cache_system/include/protobuf_message_client_impl.h:168 | a request under a pending identifier is not entered, and its response is a mismatch |
| Client.CacheClient.ReadCacheAsync | cache_system/include/protobuf_message_client_impl.h:164-171 | a read is issued under the next identifier and becomes pending with its key |
| Client.CacheClient.UpdateCacheAsync | cache_system/include/protobuf_message_client_impl.h:172-179 | so is an update |
| Client.CacheClient.OnReceive | cache_system/include/protobuf_message_client_impl.h:141-163 | what becomes of a response: unknown, of the wrong key, handled, or handled without acknowledgement |
| SnowFlakeIds.IdIsSumOfFields | cache_system/include/snowflake.h:39 | the mask loses nothing and the fields do not overlap, so the bits of an identifier are a sum |
| SnowFlakeIds.MachineBitsAreMachineId | cache_system/include/snowflake.h:31 | the masks and shifts leave five and two bits of the two identifiers, one shared |
| SnowFlakeIds.EqualBits | cache_system/include/snowflake.h:39 | two 64-bit identifiers are the same if and only if machine, stamp and the low 12 bits of the sequence are |
| SnowFlakeIds.SequenceBits | cache_system/include/snowflake.h:39 | the masked bits of the 16-bit sequence are the remainder modulo 4096 |
| SnowFlakeIds.MachinesCollide | cache_system/include/snowflake.h:31 | two generators have the same machine number if and only if four bits of the data center, one of the worker and the shared one agree |
| SnowFlakeIds.EqualIds | cache_system/include/snowflake.h:35-41 | two identifiers are equal if and only if their machines and stamps are and their numbers differ by a multiple of 4096 |
| SnowFlakeIds.IdsAreDistinct | cache_system/include/snowflake.h:35-41 | all identifiers of a generator are distinct if and only if at most 4096 are made per millisecond, despite the 16-bit wrap |
| SnowFlakeIds.EqualCutIds | cache_system/include/protobuf_message_server_impl.h:275 | two identifiers cut to 32 bits are equal if and only if their machines are, their stamps modulo 1024 ms and their numbers modulo 4096 |
| SnowFlakeIds.CutIdsAreDistinct | cache_system/include/protobuf_message_server_impl.h:275 | any 4096 consecutive identifiers stay distinct when cut to 32 bits |
| SnowFlakeIds.SnowFlake.constructor | cache_system/include/snowflake.h:30-34 | a generator starts its run with the number of its machine |
| SnowFlakeIds.SnowFlake.GenerateUniformId | cache_system/include/snowflake.h:35-41 | the next identifier of the run, as a number, with the sequence wrapping at 2^16 |
| Hypotheses.OverdueReadOrphans | cache_system/include/cache_state_manager.h:166-171 | a read of an overdue key leaves its due timer enabled beside the new one |
| Hypotheses.ReadIsSafeUnlessOverdue | cache_system/include/cache_state_manager.h:166-171 | a read keeps the books in order if and only if its key is not overdue |
| Hypotheses.OverdueReadDrained | cache_system/src/timer_queue.cc:61-89 | after such a read every complete drain, in whatever order, frees the key with its old value, and no callback throws |
| Hypotheses.OverdueReadBreaksLease | cache_system/include/cache_state_manager.h:82-92 | so after the tick the next update takes effect inside the lease that the read was granted |
| Hypotheses.OverdueIsReached | cache_system/include/cache_state_manager.h:161-165 | a run of three steps makes a key overdue, for any first update |
| Hypotheses.LeaseBrokenAfterSomeRun | cache_system/src/timer_queue.cc:61-89 | a run, a read, a whole tick and an update that break a promise, for any values |
| Hypotheses.UpdateIsSafeUnlessStuck | cache_system/include/cache_state_manager.h:107-117 | an update keeps the books in order if and only if it can be deferred when it is to be; `Guards.GuardsAreExact` says the same of answers and values |
| Hypotheses.TwoDeferralsOneEntry | cache_system/include/protobuf_message_server_impl.h:280-282 | two keys wait under one low half, and the entry there is that of the other key |
| Collisions.CollisionArises | cache_system/include/protobuf_message_server_impl.h:280-282 | the second of two updates with the same low half waits under the entry of the first |
| Collisions.CollidingCommit | cache_system/include/protobuf_message_server_impl.h:251-269 | its commit answers the first request Ok with a value the first key does not have, and leaves that key without an entry |
| Collisions.CollidingTurn | cache_system/include/protobuf_message_server_impl.h:251-256 | until one of the two commits nothing throws and nothing changes for either; if the first commits, the second is without an entry |
| Collisions.StuckTurn | cache_system/include/protobuf_message_server_impl.h:252-254 | a key without an entry stays so until its own commit, and that throws |
| Collisions.ThrowingCommitRepeats | cache_system/src/timer_queue.cc:68-71 | a commit that throws has stored its value, stays due, throws again and then stores the moved-from value |
| Collisions.NoDrainPastCollision | cache_system/src/timer_queue.cc:61-89 | past both deadlines no order of firing drains the queue without an exception |
| Collisions.DrainAnswersFirst | cache_system/src/timer_queue.cc:61-89 | between the two deadlines every complete drain gives the false Ok answer |
| LateUpdates.LateUpdate | cache_system/include/cache_state_manager.h:107-117 | an update of an overdue key is refused, or, if the lateness wraps, deferred to a new deadline with the old timer left behind |
| Strays.TurnCommutes | cache_system/src/timer_queue.cc:68-84 | a turn on any timer but the strays of a key does the same as if that key's lease had been drained in time |
| Strays.OverdueReadHaunts | cache_system/include/cache_state_manager.h:161-171 | a read of an overdue key leaves a book that is in order but for the key and its two timers, one of them due |
| Strays.LateUpdateHaunts | cache_system/include/cache_state_manager.h:107-117 | so does an update whose delay wraps, but for its entry |
| Strays.HauntedDrainReleases | cache_system/src/timer_queue.cc:61-89 | in any drain of such a book no callback throws, and a complete one frees the key with its old value |
| LateUpdates.LateUpdateDrained | cache_system/src/timer_queue.cc:61-89 | after a late update every complete drain frees the key although the update still waits, and leaves its timer armed |
| LateUpdates.ArmedDrainReplaces | cache_system/include/cache_state_manager.h:112-115 | every complete drain at the time of an armed timer replaces the value of the key |
| LateUpdates.LateUpdateBreaksLease | cache_system/include/cache_state_manager.h:112-116 | a whole tick frees the key, an update is then answered Ok just before the wrapped deadline, and every whole tick a millisecond later replaces its value |
| Duplicates.SecondAnswerDoubles | cache_system/include/protobuf_message_server_impl.h:78-83 | a second answer to a waiting operation winds up a second timer, and the entry keeps naming the first |
| Duplicates.RepeatedReadDoubles | cache_system/include/protobuf_message_server_impl.h:162-174 | a read that arrives again before its acknowledgement does that |
| Duplicates.UnrecordedThrows | cache_system/include/protobuf_message_server_impl.h:102-106 | a response without an entry is sent, then its callback throws and everything is as before, so it is sent again at every turn |
| Duplicates.NoDrainPastDoubled | cache_system/src/timer_queue.cc:61-89 | with both timers due no order of firing drains the queue without an exception |
| Guards.SaneIsSound | sample/server.cc:28-31 | from a world in order all promises are kept and no callback throws, in every guarded continuation, whatever the order of firing |
| Guards.LateUpdateIsUnsound | cache_system/include/cache_state_manager.h:107-117 | after an update with a wrapped delay some guarded continuation by whole ticks breaks a promise or has a callback that throws |
| Guards.CollisionIsUnsound | cache_system/include/protobuf_message_server_impl.h:280-282 | so has some continuation after a colliding update |
| Guards.OverdueReadIsUnsound | cache_system/include/cache_state_manager.h:166-171 | so has some continuation after a read of an overdue key |
| Guards.GuardsAreExact | sample/server.cc:28-31 | in every run, a step is followed by kept promises and no throwing callback in all guarded continuations by whole ticks if and only if it heeds its guard |
| Counterexamples.CollisionIsReached | cache_system/include/protobuf_message_server_impl.h:275 | a run to a collision, for any two keys and any identifiers with the same low half |
| Counterexamples.LateUpdateIsReached | cache_system/include/cache_state_manager.h:108 | a run to an update of any lateness; it cannot be deferred if and only if the lateness wraps |
| Counterexamples.StaleBelief | cache_system/include/protobuf_message_client_impl.h:55 | a run by whole ticks after which a client believes in a value that was replaced, for any lateness that wraps |

## Left out

- Sockets, the network library, logging, the socket group and its wrappers: sending appends to a sequence, receiving is a step. That a send fails is modelled only for the client's acknowledgement.
- Protobuf parsing, headers with wrong magic or version, arenas and message ownership: messages are the fields that decide what happens.
- Threads and mutexes: one thread. As written, `tick` holds a mutex across the callback (`cache_system/src/timer_queue.cc:67-69`) that `add_timer` takes again (`cache_system/src/timer_queue.cc:40`); the model states the behaviour without that lock.
- C++ lifetimes: the reference to the front of the queue (`cache_system/src/timer_queue.cc:64`), which a growing vector invalidates, is read as "the current front". The unnamed `ContainerIteratorRaii` temporaries (`cache_system/include/protobuf_message_server_impl.h:93`) are read as "use the entry, then erase it". A resend timer carries its response, where the code keeps a raw pointer to the map's entry.
- Timers as heap objects: a timer is a value in the queue's sequence, since its `unique_ptr` gives it one holder; the sift loops work on a sequence value and not on the vector in place.
- Objects around the server: `CacheWaitAcktManager` and the three operation classes are one class with their fields. `CacheElement::op_id_`, which is never read, and the two function fields, whose target is always the same, are not kept.
- Moved-from strings: a committed value leaves an empty set-aside value behind.
- Several clock readings in one step: one reading. The width of `time_t`, clock jumps and the Windows branch are not modelled.
- Timers of the application that call back into the queue, and application code that updates the data center directly (`sample/server.cc:17`): a `User` callback only writes a log.
- Duplicated requests: `World.Possible` lets each request arrive once, because `register_wait_ack` assumes a fresh identifier (`cache_system/include/protobuf_message_server_impl.h:80-83`); `Duplicates` says what a second arrival does. Responses and acknowledgements may be repeated at will.
- Exceptions thrown by the application's callback in the client, and clients that re-enter themselves from it.
- Identifiers unique across machines: `World.Possible` assumes them fresh; `SnowFlakeIds.MachinesCollide` and `SnowFlakeIds.EqualIds` say exactly when the packing gives it.
- Safety.LeaseSafety: is stated for runs that heed `World.Guarded`. By `Guards.GuardsAreExact` no weaker guard would do, also when ticks run in order and to their end.
- Coherence.EndToEnd: covers Ok answers whose deadline the client can read (`Coherence.Readable`), which is exact for what the client believes by `Coherence.BelievedWhen`; for all others `Beliefs.BeliefIsSafeWhen` has the exact condition. A NoData answer repeats the data of the previous read.
- Guards.GuardsAreExact: assumes that some client exists, to issue one more update; so does `Beliefs.BelievableWhenCovered`. Exceptions that a handler reports to its caller are not counted: `KeySpec.RefusedWhen` says when they occur.
- Server.CacheServer.Tick: is stated for a well-formed queue, in which only the application's timers have no delay; every run keeps it so, guarded or not (`Unguarded.EveryRunIsWellFormed`).
- SnowFlakeIds.SnowFlake.GenerateUniformId: the generator computes with numbers. Its 64-bit form is tied to them field by field (`SnowFlakeIds.MachineBitsAreMachineId`, `SnowFlakeIds.SequenceBits`, `SnowFlakeIds.IdIsSumOfFields`), and equality of the bits to equality of the fields (`SnowFlakeIds.EqualBits`), not by one equation between a 64-bit vector and a number.
