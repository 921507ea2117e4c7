# Verified model of the bounded threading runtime

This project models the scheduling core of an embedded threading library and proves what it promises.
The library gives an application a fixed topology of Task facilities, Dedicated Threads and Workers, with
no allocation after start: records, registrations and signals are reused, and one bit tells two uses of
the same slot apart.

## What is modelled

**The bounded Task facility.** N records are reused; a handle is a slot index and the one-bit Phase
captured at admission. `TaskModel` gives the facility as values: what a record holds, what each operation
of the core does, what each mutex-protected section of the runtime does, and whom a section has notified
when it ends. On top of it stand two layers.

* The stored form, changed in place: `TaskRecords` (the packed control byte, the scratch scalar that is a
  queue link first and a Worker context afterwards, the payload buffer), `BoundedSets` (index sets and the
  intrusive FIFO threaded through the scratch scalars), `WaitRegistrations`, `WorkerLeases`,
  `TaskFacility` (the core), `TaskRuntime` (the runtime's sections with their loops), `TaskWorker` and
  `TaskHandle`. Every method is proved against the value functions.
* The interleaved form: `TaskProtocol`, `TaskSteps`, `TaskRest` and `TaskRuns` let any number of handles,
  waiting contexts and Worker trampolines act in any order, each locked section being one step, and
  blocking, waking, spurious wakes, time-outs, failed wakes and the unlocked invocation steps of their own.
  `TaskLedger` is the facility a caller would like to have: Tasks are numbered by admission, a number is
  never used twice, and every Task has a history of what happened to it and a log of its callable and result. `TaskGuarantees`
  states the promises for every reachable state, and `TaskAnswers` says, in terms of the history alone, what
  callers are told and what becomes of what they hand in; `TaskInterrupts` follows who was asked to stop and who has
  looked, and `TaskWitnesses` holds runs that reach what the promises speak about. `TaskBinding` shows that
  what the methods of the facility's runtime ensure is a step of these runs, and that their preconditions
  always hold for those who may call them.

**Dedicated Threads.** `ThreadModel` and `ThreadRuntime` hold the packed control byte and the sections
under the thread's mutex. `ThreadProtocol` numbers the activations without bound, while the byte keeps one
bit, and interleaves start callers (with both looks at the lifecycle), bootstrap callers (who commit the
initialization, start the infrastructure, begin and finalize the shutdown, and read and publish the
lifecycle in separate critical sections), stop requests, joiners and the trampoline.
`ThreadGuarantees` states what follows, and `ThreadBinding` shows that what the methods of `ThreadRuntime`
ensure is what the steps of these runs do.

**Smaller protocols.** `LockDiscipline` (which mutex a context holds while it takes another one) with
`LockBinding` (which sections of the facility's runs those are), `ShutdownWait` (registration under one lock,
publication under another, with the class tied to the protocol by `EntryIsARun`), `FailClosedMutex` (sticky
failure latch, wait slice, any number of callers, with the class tied to the protocol by `AcquireIsARun`),
`WaitBudget` (the budget that never restarts, and the sleep that spends it), `Lifecycle` (transactional start
with rollback, order of finalization). `Registrations`, `CompactIndex`, `Pigeonholes` and `Runs` are shared.

Capacities (records, Workers, contexts, callers) are parameters everywhere. A state of the record table,
the registrations and the signals is finite; runs are of any length.

## Assumptions

* The facility, thread and shutdown-wait mutexes are sound and are always acquired. The fail-closed mutex
  is modelled for itself, with failing acquisitions and releases. The code itself breaks the assumption in two
  ways, which `LockDiscipline` and `LockBinding` state: a dispatch wait looks for an interruption under the
  mutex of its facility, and a callable or a result is destroyed under the mutex of its facility although a
  Task handle inside takes a mutex when it goes. Deadlock is possible exactly when these two relations
  together have a cycle (`DeadlockIffCyclic`); everything else is about runs in which nobody is caught in one.
* An execution context starts at most once in its life, so of any number of callers that start the
  infrastructure at most one finds all resources startable.
* A wake latches the one-bit signal of a managed context or fails; which one is arbitrary each time.
  `failed` collects the contexts some wake to which has failed, and every promise about waking names it.
* A handle is used by one caller at a time. A waiting call has registered before its handle can be given
  up; after that the wait does not depend on the handle.
* A Task whose callable returns nothing is treated as one whose result is an object with an empty
  destructor.
* Time enters as arbitrary clock readings. A context that runs a Task of the facility is interrupted when that
  Task was asked to stop; beyond that, interruption is an arbitrary answer.
* The queue and index-set containers are part of another repository; their behaviour is taken from
  tests/ThreadingFoundationTests.cpp, lines 1887 to 2044.

## Where the code and its documentation disagree

* docs/LIFECYCLE.MD, line 19, says that a later restart cannot retarget a captured Join. With one Phase bit
  it can: after an even, non-zero number of restarts, while the thread runs, a joiner that has not looked in
  between takes the running activation for its own (`MissHappens`), and exactly then
  (`MissedExactlyAfterEvenRestarts`). What never happens is the opposite error: `Joined` is returned only
  when the captured activation is over.
* docs/LIFECYCLE.MD, line 48, says that completion is published once. The read and the publication of the
  lifecycle are separate critical sections, so a caller that has looked earlier, to commit the
  initialization, to start the infrastructure or to begin the shutdown, can publish over ShutdownComplete
  (`CompletionCanRegress`, once for each kind); completion is final exactly when no such caller stands
  between the two (`CompletionIsFinalUnlessBootPending`).
* docs/LIFECYCLE.MD, line 38, calls Task waits, sleeps and Thread joins interruption-aware. A Thread join is
  not before it blocks for the first time: a Worker whose Task was asked to stop, and which has already taken
  the signal of that request, can block there with nothing to wake it (`DeafJoinHappens`). The waits inside a
  dispatch and the wait for the end of the shutdown, which that line does not list, behave the same way
  (`DeafCapacityWaitHappens`, `DeafGrantWaitHappens`, `ShutdownWait.DeafWaitHappens`). After the first look
  none of them loses an interruption, and a wait for a Task never does: `NoLostInterruption` and
  `DeafOnlyBeforeTheFirstLook` of `TaskGuarantees`, `ThreadGuarantees` and `ShutdownWait` say so for each.
* docs/LIFECYCLE.MD, lines 7 and 44, say that destroying a Task handle and beginning a shutdown do not block.
  When a handle is inside a callable or a result of its own facility, and that payload is destroyed under the
  facility's mutex, neither ever ends (`OwnMutexHappens`, `EndingIsASection`).

## Model

| member | source | states |
|---|---|---|
| CompactIndex.ScratchRoundTrip | src/threading/detail/TaskRecord.hpp:176-297 | whatever the two capacities, every index and either sentinel comes back from the shared scratch scalar unchanged |
| TaskRecords.PackedRoundTrip | src/threading/detail/TaskRecord.hpp:37-75 | state, owner bit and Phase bit of the control byte do not disturb each other |
| TaskRecords.TaskRecord.InitializeQueued | src/threading/detail/TaskRecord.hpp:83-95 | a new incarnation is Queued, owned and has the other Phase |
| TaskRecords.TaskRecord.SetState | src/threading/detail/TaskRecord.hpp:97-105 | replaces the state and leaves owner and Phase alone |
| TaskRecords.TaskRecord.CompareExchangeState | src/threading/detail/TaskRecord.hpp:107-123 | applied exactly when the expected state is found |
| TaskRecords.TaskRecord.ReleaseOwner | src/threading/detail/TaskRecord.hpp:125-132 | clears the owner bit alone |
| TaskRecords.TaskRecord.SetQueueNext | src/threading/detail/TaskRecord.hpp:257-282 | the link that is read back is the link that was stored, through the width of the scratch scalar |
| TaskRecords.TaskRecord.SetContext | src/threading/detail/TaskRecord.hpp:284-298 | the context, or the invalid sentinel, that is read back is the one that was stored |
| TaskRecords.TaskRecord.Invoke | src/threading/detail/TaskPayloadAdapter.hpp:29-50 | the callable ends, and a normal return leaves a result in the same buffer |
| TaskRecords.TaskRecord.MoveResult | src/threading/detail/TaskPayloadAdapter.hpp:62-66 | the result goes to the destination and its life in the buffer ends |
| BoundedSets.BoundedIndexSet.FindFirstSet | tests/ThreadingFoundationTests.cpp:1887-1965 | finds the lowest member, or none exactly when the set is empty |
| BoundedSets.LinkedPush | tests/ThreadingFoundationTests.cpp:1968-1995 | appending keeps the links an acyclic, complete spelling of the queue |
| BoundedSets.LinkedPop | tests/ThreadingFoundationTests.cpp:2010-2044 | taking the head keeps the links a spelling of the rest |
| BoundedSets.LinkedRemove | tests/ThreadingFoundationTests.cpp:2001-2008 | bypassing any queued record keeps the links a spelling of the queue without it, and touches no record outside the queue |
| BoundedSets.LinkedFrame | src/threading/detail/TaskRecord.hpp:233-240 | scratch scalars of records that are not queued may hold anything without harm to the queue |
| BoundedSets.IntrusiveQueue.Push | src/threading/detail/TaskFacilityCore.hpp:477-482 | the queue grows by the record at its end, and no other scratch scalar changes |
| BoundedSets.IntrusiveQueue.Pop | src/threading/detail/TaskFacilityCore.hpp:499-508 | yields the oldest record and leaves the rest in order |
| BoundedSets.IntrusiveQueue.Remove | src/threading/detail/TaskFacilityCore.hpp:707-714 | takes the record out wherever it stands, and reports whether it was queued |
| BoundedSets.IntrusiveQueue.Length | src/threading/detail/TaskFacilityCore.hpp:1033-1047 | the walk along the links ends and counts exactly the queued records |
| WaitRegistrations.ManagedContextRouter.Wake | src/threading/detail/ManagedContextRouter.hpp:211-217 | a wake latches the context's signal or fails, and concerns nobody else |
| WaitRegistrations.MatchingIsWaited | src/threading/detail/WaitRegistration.hpp:242-262 | the count of matching registrations is zero exactly when nobody waits |
| WaitRegistrations.RegistrationSet.Register | src/threading/detail/WaitRegistration.hpp:197-214 | fills the first inactive slot, or reports that there is none |
| WaitRegistrations.RegistrationSet.Unregister | src/threading/detail/WaitRegistration.hpp:216-224 | clears that slot and no other |
| WaitRegistrations.RegistrationSet.MatchingCount | src/threading/detail/WaitRegistration.hpp:242-262 | the number of active registrations for a target; zero exactly when nobody waits for it |
| WaitRegistrations.RegistrationSet.ActiveCount | src/threading/detail/WaitRegistration.hpp:229-240 | the number of active registrations |
| WaitRegistrations.RegistrationSet.WakeMatching | src/threading/detail/TaskFacilityRuntime.hpp:233-267 | every context registered for the target is notified or its wake has failed, nobody else is, and the answer is good only if no wake failed |
| WorkerLeases.WorkerLeaseScheduler.MarkAvailable | src/threading/detail/WorkerLeaseScheduler.hpp:106-130 | sets the bit of a Worker in range and refuses every other context |
| WorkerLeases.WorkerLeaseScheduler.TryClaimSpecific | src/threading/detail/WorkerLeaseScheduler.hpp:132-162 | reserves the Worker exactly when it is in range and available |
| WorkerLeases.WorkerLeaseScheduler.TryClaimAvailable | src/threading/detail/WorkerLeaseScheduler.hpp:164-183 | reserves the lowest available Worker, or none when there is none |
| WorkerLeases.WorkerLeaseScheduler.InUseCount | src/threading/detail/WorkerLeaseScheduler.hpp:193-201 | Workers not available |
| WorkerLeases.ClaimConserves | src/threading/detail/WorkerLeaseScheduler.hpp:132-183 | a claim moves exactly one Worker from available to in use, and giving it back restores the set |
| TaskFacility.TaskFacilityCore.constructor | src/threading/detail/TaskFacilityCore.hpp:355-358 | every record is free and decodes as Queued, ownerless, Phase false |
| TaskFacility.TaskFacilityCore.Admit | src/threading/detail/TaskFacilityCore.hpp:375-488 | the lowest free record becomes a new incarnation, Queued, owned, with the other Phase and the very callable that was given, at the end of the queue; or no record is free and nothing changes |
| TaskFacility.TaskFacilityCore.ClaimNextForWorker | src/threading/detail/TaskFacilityCore.hpp:496-527 | the oldest queued Task runs on the given Worker; an empty queue changes nothing |
| TaskFacility.TaskFacilityCore.AssignedTaskForContext | src/threading/detail/TaskFacilityCore.hpp:530-554 | the first record running on the Worker |
| TaskFacility.TaskFacilityCore.PublishInvocationOutcome | src/threading/detail/TaskFacilityCore.hpp:573-603 | a finished Task is Completed and keeps its result for its owner, or loses it at once when nobody owns it; any other is Cancelled |
| TaskFacility.TaskFacilityCore.PublicState | src/threading/detail/TaskFacilityCore.hpp:609-633 | Queued, Running, Completed or Cancelled by the state of the named incarnation, Cancelled for any other |
| TaskFacility.TaskFacilityCore.HasWorkerGrant | src/threading/detail/TaskFacilityCore.hpp:656-680 | the scratch scalar of an allocated record still tells whether the Task was granted |
| TaskFacility.TaskFacilityCore.Cancel | src/threading/detail/TaskFacilityCore.hpp:689-764 | queued Tasks end and leave the queue, running ones are asked, terminal ones refuse; accepted and published are exact |
| TaskFacility.TaskFacilityCore.ReleaseOwner | src/threading/detail/TaskFacilityCore.hpp:773-829 | an abandoned queued Task ends, a completed one loses its result, and the owner bit goes |
| TaskFacility.TaskFacilityCore.TakeResult | src/threading/detail/TaskFacilityCore.hpp:835-868 | succeeds for exactly a completed Task, hands out exactly the value that was in the payload, and gives its owner bit away; Cancelled and any other state are told apart |
| TaskFacility.TaskFacilityCore.IsOwnerlessTerminal | src/threading/detail/TaskFacilityCore.hpp:877-896 | current, terminal and without owner |
| TaskFacility.TaskFacilityCore.Reclaim | src/threading/detail/TaskFacilityCore.hpp:902-935 | an allocated ownerless terminal record, and no other, becomes free, and the queue is untouched |
| TaskFacility.TaskFacilityCore.HasExecutionWork | src/threading/detail/TaskFacilityCore.hpp:1001-1027 | some allocated record is queued or running |
| TaskFacility.TaskFacilityCore.QueuedTasks | src/threading/detail/TaskFacilityCore.hpp:1033-1047 | the walk returns the length of the queue after any mix of operations |
| TaskFacility.TaskFacilityCore.ExecutionContextFor | src/threading/detail/TaskFacilityCore.hpp:1071-1093 | the Worker context of a running incarnation |
| TaskFacility.TaskFacilityCore.IsCancellationRequested | src/threading/detail/TaskFacilityCore.hpp:1050-1068 | the named incarnation runs and was asked to stop |
| TaskFacility.TaskFacilityCore.IsCancellationRequestedForContext | src/threading/detail/TaskFacilityCore.hpp:1099-1116 | some cancellation-requested Task runs on that context |
| TaskRuntime.TaskFacilityRuntime.ScheduleAvailableWorkers | src/threading/detail/TaskFacilityRuntime.hpp:299-376 | the loop ends; it grants oldest first, the executing Worker before the lowest one; every granted Worker is running or was woken first and every granted Task's waiters were told; it stops with no free Worker, an empty queue or a failed wake |
| TaskRuntime.PassGoesOn | src/threading/detail/TaskFacilityRuntime.hpp:303-375 | one more round of the loop is one more grant of the pass, and the queue is shorter |
| TaskRuntime.PassEnds | src/threading/detail/TaskFacilityRuntime.hpp:315-347 | the rounds up to a return make up the whole pass |
| TaskRuntime.TaskFacilityRuntime.ReclaimIfQuiescent | src/threading/detail/TaskFacilityRuntime.hpp:379-409 | reclaims exactly an ownerless terminal record nobody waits for, and tells everybody who waits for capacity; the answer is good exactly when none of these wakes failed |
| TaskRuntime.TaskFacilityRuntime.UnregisterWaiter | src/threading/detail/TaskFacilityRuntime.hpp:415-428 | the registration goes, and the record it was holding |
| TaskRuntime.TaskFacilityRuntime.WithdrawUnreturnedDispatch | src/threading/detail/TaskFacilityRuntime.hpp:830-845 | the Task that cannot be returned is released and reclaimed |
| TaskRuntime.TaskFacilityRuntime.DispatchAttempt | src/threading/detail/TaskFacilityRuntime.hpp:1059-1154 | the locked part of a dispatch: when the caller is to wait for capacity, when it is told Unavailable or Interrupted without admission, and otherwise how the section ends and the state it leaves |
| TaskRuntime.DispatchEnded | src/threading/detail/TaskFacilityRuntime.hpp:1101-1152 | admission, pass and withdrawal compose to the dispatch section |
| TaskRuntime.TaskFacilityRuntime.WorkerBecameAvailable | src/threading/detail/TaskFacilityRuntime.hpp:1209-1235 | a Worker in range is listed and a pass follows; any other context is refused |
| TaskRuntime.TaskFacilityRuntime.Invoke | src/threading/detail/TaskFacilityRuntime.hpp:1254-1273 | running the payload changes that record's buffer alone |
| TaskRuntime.TaskFacilityRuntime.CompleteWorkerTask | src/threading/detail/TaskFacilityRuntime.hpp:1276-1335 | publication, waiters, reclamation, the Worker's return and the next pass, in one section; Completed is answered only when no wake failed |
| TaskRuntime.TaskFacilityRuntime.EnterTaskWait | src/threading/detail/TaskFacilityRuntime.hpp:451-497 | a terminal Task needs no wait, any other gets a registration or there is no room |
| TaskRuntime.TaskFacilityRuntime.RecheckTaskWait | src/threading/detail/TaskFacilityRuntime.hpp:499-631 | Finished exactly when terminal, else Interrupted, TimedOut or another round by the cause; leaving takes the registration along |
| TaskRuntime.TaskFacilityRuntime.EnterGrantWait | src/threading/detail/TaskFacilityRuntime.hpp:848-899 | a granted Task needs no wait; without room the Task is withdrawn |
| TaskRuntime.TaskFacilityRuntime.RecheckGrantWait | src/threading/detail/TaskFacilityRuntime.hpp:901-975 | Succeeded exactly when granted, else Interrupted, TimedOut or another round by the cause; an ungranted Task is withdrawn when the caller leaves |
| TaskRuntime.TaskFacilityRuntime.EnterCapacityWait | src/threading/detail/TaskFacilityRuntime.hpp:745-778 | free capacity needs no wait, otherwise a registration is made |
| TaskRuntime.TaskFacilityRuntime.RecheckCapacityWait | src/threading/detail/TaskFacilityRuntime.hpp:780-827 | Succeeded exactly with capacity, else Interrupted, TimedOut or another round by the cause; leaving takes the registration along |
| TaskRuntime.TaskFacilityRuntime.Cancel | src/threading/detail/TaskFacilityRuntime.hpp:1427-1471 | cancellation and reclamation; the waiters of a queued Task and the Worker of a running one are told or their wake has failed |
| TaskRuntime.TaskFacilityRuntime.ReleaseOwner | src/threading/detail/TaskFacilityRuntime.hpp:1477-1520 | release, the waiters it concerns and reclamation; Released is answered only when no wake failed |
| TaskRuntime.TaskFacilityRuntime.TakeResult | src/threading/detail/TaskFacilityRuntime.hpp:1526-1550 | exactly a completed Task is taken, its own payload value is handed out, and its record reclaimed when nobody waits |
| TaskRuntime.TaskFacilityRuntime.BeginShutdownCancellation | src/threading/detail/TaskFacilityRuntime.hpp:1575-1650 | every allocated Task is cancelled, everybody who waits for one that was queued or for capacity is told, and so is the Worker of every running one; Applied is answered only when no wake failed |
| TaskRuntime.TaskFacilityRuntime.IsExecutionQuiescent | src/threading/detail/TaskFacilityRuntime.hpp:1653-1661 | no Task is queued or running |
| TaskWorker.TaskWorkerExecutionContext.Turn | src/threading/detail/TaskWorkerExecutionContext.hpp:204-241 | shutdown is looked at before work; an assigned Task is run and completed by its own Worker; otherwise nothing changes |
| TaskHandle.Task.Release | src/threading/Task.hpp:84-98 | a handle gives its interest up once and is empty afterwards |
| TaskHandle.Task.MoveFrom | src/threading/Task.hpp:122-134 | the interest moves and the source is empty |
| TaskHandle.Task.MoveAssign | src/threading/Task.hpp:136-154 | what the target had is released, the interest moves, the source is empty, and moving to itself does nothing |
| TaskHandle.Task.TakeResult | src/threading/Task.hpp:267-300 | success empties the handle and hands out the value in the record's payload, anything else leaves both |
| TaskLedger.EventKeepsGood | src/threading/detail/TaskPayloadAdapter.hpp:29-66 | with numbers that are never reused: type-state of the buffer, exactly-once lifetimes, the FIFO equation, and that state, owner, grant and buffer are those the history calls for survive every event |
| TaskLedger.GrantAnswerIsHistory | src/threading/detail/TaskFacilityCore.hpp:650-680 | the grant answer is yes for exactly the Tasks some Worker ever claimed |
| TaskLedger.DroppedStaysDropped | src/threading/detail/TaskFacilityCore.hpp:652-655 | a Task cancelled before a grant never gets one |
| TaskLedger.RetiredStaysRetired | src/threading/detail/TaskFacilityCore.hpp:902-935 | a terminal, ownerless Task with an empty buffer never changes again |
| TaskLedger.EventAdvances | docs/LIFECYCLE.MD:11 | states advance, terminal states are final, interests given up stay given up, grants stay |
| TaskProtocol.EnterKeeps | src/threading/detail/TaskFacilityCore.hpp:441-488 | opening a new incarnation in a reused slot keeps every other reference on its own Task |
| TaskProtocol.GrantKeeps | src/threading/detail/TaskFacilityCore.hpp:496-527 | granting the oldest Task to an awake Worker keeps the invariant |
| TaskProtocol.CancelKeeps | src/threading/detail/TaskFacilityCore.hpp:689-764 | cancellation keeps the invariant when the waiters of a queued Task are told |
| TaskProtocol.ReleaseKeeps | src/threading/detail/TaskFacilityCore.hpp:773-829 | giving up a handle keeps the invariant |
| TaskProtocol.TakeKeeps | src/threading/detail/TaskFacilityCore.hpp:835-868 | taking a result keeps the invariant |
| TaskProtocol.RecycleKeeps | src/threading/detail/TaskFacilityRuntime.hpp:379-409 | reclamation frees only a record nothing refers to any more |
| TaskProtocol.RegisterKeeps | src/threading/detail/TaskFacilityRuntime.hpp:455-497 | a context registered under the lock that saw its predicate false cannot miss it |
| TaskProtocol.ReturnKeeps | src/threading/detail/TaskFacilityCore.hpp:557-567 | the unlocked invocation ends the callable of the very Task it was granted |
| TaskProtocol.PostKeeps | src/threading/detail/TaskFacilityCore.hpp:573-603 | publication keeps the invariant when the waiters are told |
| TaskSteps.GrantAll | src/threading/detail/TaskFacilityRuntime.hpp:299-376 | a whole scheduling pass is that many grants of the ideal facility, in order |
| TaskSteps.DoDispatch | src/threading/detail/TaskFacilityRuntime.hpp:1059-1154 | the dispatch section keeps the invariant and is admission, grants and possibly a release of the ideal facility |
| TaskSteps.DoComplete | src/threading/detail/TaskFacilityRuntime.hpp:1276-1335 | completion keeps the invariant and is a publication followed by grants |
| TaskSteps.DoRecheckGrant | src/threading/detail/TaskFacilityRuntime.hpp:901-975 | each end of the grant wait keeps the invariant and is no event or one release |
| TaskSteps.DoShutdown | src/threading/detail/TaskFacilityRuntime.hpp:1575-1650 | shutdown cancellation keeps the invariant and is one cancellation for each allocated Task |
| TaskSteps.WaiterRoom | src/threading/detail/WaitRegistration.hpp:201-214 | a context not waiting for a Task finds a free registration, by counting |
| TaskSteps.AssignedIsServing | src/threading/detail/TaskFacilityCore.hpp:530-554 | the scan for a Worker finds exactly the record it was granted |
| TaskSteps.UnreturnedUnwaited | src/threading/detail/TaskFacilityRuntime.hpp:829-845 | nobody but the dispatching context waits for an unreturned Task, so withdrawing it need not wake anybody |
| TaskRest.CancelFromTidy | src/threading/detail/TaskFacilityRuntime.hpp:1575-1650 | shutdown needs no reclamation, because a queued Task is owned |
| TaskRest.DispatchRest | src/threading/detail/TaskFacilityRuntime.hpp:1059-1154 | a dispatch ends with every record wanted and no Worker idle beside work |
| TaskRuns.Act | src/threading/detail/TaskFacilityRuntime.hpp:299-1650 | refinement, one step: any action of any context keeps the invariant and is the stated events of the ideal facility |
| TaskRuns.RunRefines | src/threading/detail/TaskFacilityRuntime.hpp:299-1650 | refinement over whole runs |
| TaskRuns.RunRests | src/threading/detail/TaskFacilityRuntime.hpp:299-1650 | at every unlock of every run records are allocated only while wanted work is conserved and whoever looked for an interruption is alert |
| TaskRuns.InitInv | src/threading/detail/TaskRecord.hpp:52-53 | a constructed facility, whose free records decode as Queued, satisfies the invariant |
| TaskGuarantees.InitReachable | src/threading/detail/TaskFacilityCore.hpp:355-358 | a facility of any capacities, as constructed, is where runs begin |
| TaskGuarantees.ReachableStep | src/threading/detail/TaskFacilityRuntime.hpp:299-1650 | whatever action is possible in a reached state leads to a reached state, so the runs leave nothing out |
| TaskGuarantees.OnePhaseBitIsEnough | src/threading/detail/TaskFacilityRuntime.hpp:379-428 | every live handle, waiting context and Worker binding matches an allocated record whose incarnation is its own, and two live handles never share a slot |
| TaskGuarantees.AnswersAreIdeal | src/threading/detail/TaskFacilityCore.hpp:609-680 | state, cancellation answer and grant are those of the ideal facility for that Task number, and a completed, owned record holds what that Task's own callable returned |
| TaskAnswers.StateIsHistory | src/threading/detail/TaskFacilityCore.hpp:609-633 | Queued while in the queue, Running from grant to publication, Completed when the callable produced a result, Cancelled when it did not or the Task was dropped before a grant |
| TaskAnswers.AnswersAreHistory | src/threading/detail/TaskFacilityCore.hpp:656-764 | grant, cancellation request, acceptance of a cancellation and readiness for reclamation, each from the Task's history |
| TaskAnswers.TakingIsHistory | src/threading/detail/TaskFacilityCore.hpp:835-868 | taking succeeds exactly when a result was produced and published, and hands out what the callable returned to an owner; which failure is told is decided by the history |
| TaskAnswers.OwnerTakesWhatWasReturned | src/threading/Task.hpp:267-300 | a live handle that succeeds in taking gets what its own Task's callable returned |
| TaskAnswers.InterruptionIsHistory | src/threading/detail/TaskFacilityCore.hpp:1099-1116 | a Worker is to be interrupted exactly when a Task granted to it was asked to stop and is not published yet |
| TaskAnswers.QuiescenceIsHistory | src/threading/detail/TaskFacilityRuntime.hpp:1653-1661 | quiescent exactly when every Task ever admitted was published or dropped |
| TaskAnswers.DispatchDecides | src/threading/detail/TaskFacilityRuntime.hpp:1101-1154 | the handle comes back exactly when a Worker was granted or, with no failed wake, under QueueForever; the caller goes on waiting exactly under QueueWithTimeout when managed and ungranted; in every other case the Task is gone |
| TaskAnswers.EndsAre | src/threading/detail/TaskFacilityRuntime.hpp:1101-1152 | what the caller of a withdrawn Task is told: Unavailable under AbandonImmediately with no failed wake, Interrupted after a failed wake and for an unmanaged caller that would have to wait |
| TaskAnswers.DispatchStoresItsCallable | src/threading/detail/TaskFacilityCore.hpp:462-466 | a dispatch opens the next Task number with the very callable it was given |
| TaskAnswers.TasksAreTheDispatches | src/threading/detail/TaskFacilityCore.hpp:441-488 | over a whole run the Tasks are the dispatches in order, each with its own callable |
| TaskAnswers.CallablesStayTheirOwn | src/threading/detail/TaskFacilityRuntime.hpp:1254-1273 | a record's callable is the one its Task was dispatched with, and that is what a Worker runs |
| TaskAnswers.ReturnProduces | src/threading/detail/TaskPayloadAdapter.hpp:29-50 | when a callable returns, the record holds what it returned, or nothing |
| TaskAnswers.CompletionPublishes | src/threading/detail/TaskFacilityCore.hpp:573-603 | a completed invocation is published: Completed with the result its callable produced, Cancelled when it produced none |
| TaskAnswers.CompletingWorkerGoesOn | src/threading/detail/TaskFacilityRuntime.hpp:303-332 | a Worker that completes while others queue is granted the oldest of them itself |
| TaskAnswers.PhaseIsParity | src/threading/detail/TaskFacilityCore.hpp:441-460 | the Phase of a slot is the parity of the number of Tasks it has held |
| TaskAnswers.ReferencesMatchAfterEvenReuse | src/threading/detail/TaskFacilityCore.hpp:325-331 | a reference matches its slot exactly while an even number of Tasks has been admitted into the slot since |
| TaskModel.NextWorkerIs | src/threading/detail/TaskFacilityRuntime.hpp:303-332 | the executing Worker first when it is available, otherwise the lowest available one |
| TaskModel.RefusedExactly | src/threading/detail/TaskFacilityRuntime.hpp:1086-1092 | only AbandonImmediately is refused, exactly when no Worker is available or somebody queues |
| TaskGuarantees.RunsAreIdeal | src/threading/detail/TaskFacilityCore.hpp:376-935 | every run of the facility replays on the ideal facility from its empty state |
| TaskGuarantees.AnswersOnlyAdvance | docs/LIFECYCLE.MD:11 | a kept reference sees one Task that only goes forward, through any reuse around it |
| TaskGuarantees.NoLostWakeup | src/threading/detail/TaskFacilityRuntime.hpp:434-975 | a context parked in a Task, grant or capacity wait whose predicate holds has its signal latched, unless a wake of that context failed |
| TaskGuarantees.NoLostInterruption | src/threading/detail/TaskFacilityRuntime.hpp:1449-1459 | a Worker that blocks inside a Task that was asked to stop has its signal latched, unless a wake of it failed: always in a wait for a Task, and in a dispatch wait once it has looked |
| TaskGuarantees.DeafOnlyBeforeTheFirstLook | src/threading/detail/TaskFacilityRuntime.hpp:745-811 | an interruption is lost only in a dispatch wait that blocks before its first look |
| TaskWitnesses.DeafCapacityWaitHappens | src/threading/detail/TaskFacilityRuntime.hpp:745-796 | a run in which a Worker asked to stop blocks for capacity with no signal on its way |
| TaskWitnesses.DeafGrantWaitHappens | src/threading/detail/TaskFacilityRuntime.hpp:848-932 | a run in which a Worker asked to stop blocks for a grant with no signal on its way |
| TaskWitnesses.GrantHappens | src/threading/detail/TaskWorkerExecutionContext.hpp:213-221 | a run that reaches a Task executed by the Worker it was granted to |
| TaskWitnesses.CompletionHappens | src/threading/detail/TaskFacilityRuntime.hpp:1276-1335 | a run that reaches a completed Task whose owner takes what its callable returned |
| TaskInterrupts.CancelAlerts | src/threading/detail/TaskFacilityRuntime.hpp:1427-1471 | whoever a cancellation newly asks to stop is notified by it |
| TaskInterrupts.ShutdownAlerts | src/threading/detail/TaskFacilityRuntime.hpp:1575-1650 | whoever shutdown newly asks to stop is notified by it, over all slots |
| TaskGuarantees.GrantedWorkerIsWoken | src/threading/detail/TaskFacilityRuntime.hpp:332-352 | a parked Worker that holds a grant has its signal latched, whatever wakes failed |
| TaskGuarantees.RegistrationNeverFails | src/threading/detail/WaitRegistration.hpp:201-214 | whoever may register finds a slot, so the branches for missing room are dead |
| TaskGuarantees.PayloadsEndExactlyOnce | src/threading/detail/TaskPayloadAdapter.hpp:29-66 | each callable ends exactly once, each result at most once and exactly once when its Task is gone, and no buffer is ever read as the wrong object |
| TaskGuarantees.InvocationIsUndisturbed | src/threading/detail/TaskFacilityRuntime.hpp:1253-1273 | while a Worker runs a callable without the lock, nobody takes the record and the buffer keeps the very same callable |
| TaskGuarantees.FailedDispatchNeverRuns | src/threading/detail/TaskFacilityRuntime.hpp:1043-1174 | a dispatch that fails after admission leaves no record, handle or queue entry, and in every continuation its callable never runs and it never holds a record again |
| TaskGuarantees.SucceededMeansGranted | src/threading/detail/TaskFacilityRuntime.hpp:1134-1172 | success under QueueWithTimeout or AbandonImmediately means that a Worker was granted |
| TaskGuarantees.AbandonAfterAdmissionIsDead | src/threading/detail/TaskFacilityRuntime.hpp:1086-1132 | an admitted AbandonImmediately Task is granted in that very pass unless a wake fails, so line 1125 is never taken |
| TaskGuarantees.AllocatedIffWanted | src/threading/detail/TaskFacilityRuntime.hpp:379-409 | a Task holds a record exactly while it is not terminal, is owned or is waited for |
| TaskGuarantees.GrantsKeepAdmissionOrder | src/threading/detail/TaskFacilityCore.hpp:496-527 | admissions without the dropped Tasks are the grants followed by the queue as the table spells it |
| TaskGuarantees.GrantsNeverOvertake | src/threading/detail/TaskFacilityCore.hpp:493-527 | a later Task is granted only after every earlier one was granted or dropped |
| TaskGuarantees.RunningIsExclusive | src/threading/detail/WorkerLeaseScheduler.hpp:82-92 | a running Task is on a Worker of this facility that is not available and runs nothing else |
| TaskGuarantees.WorkersAreConserved | src/threading/detail/WorkerLeaseScheduler.hpp:186-201 | a listed Worker is available exactly when it runs no Task |
| TaskGuarantees.InvokedAtMostOnce | src/threading/detail/TaskWorkerExecutionContext.hpp:213-230 | a granted Task is invoked at most once and only by the Worker it was granted to |
| TaskGuarantees.SchedulingConservesWork | src/threading/detail/TaskFacilityRuntime.hpp:294-376 | unless a wake failed, no Worker is available beside a queued Task at any unlock |
| TaskGuarantees.ShutdownLeavesNoWork | src/threading/detail/TaskFacilityRuntime.hpp:1574-1650 | after shutdown cancellation the queue is empty and every allocated Task is terminal or asked to stop |
| TaskBinding.CallersMeetThePreconditions | src/threading/detail/TaskFacilityRuntime.hpp:1276-1550 | handles, waiters and Workers of any run may call the runtime's methods on what they hold |
| TaskBinding.DispatchIsAStep | src/threading/detail/TaskFacilityRuntime.hpp:1059-1154 | what DispatchAttempt ensures is a step of the runs |
| TaskBinding.HandleCallsAreSteps | src/threading/detail/TaskFacilityRuntime.hpp:1427-1550 | what Cancel, ReleaseOwner and TakeResult ensure are steps of the runs |
| TaskBinding.WorkerCallsAreSteps | src/threading/detail/TaskFacilityRuntime.hpp:1209-1335 | what WorkerBecameAvailable and CompleteWorkerTask ensure are steps of the runs |
| TaskBinding.RechecksAreSteps | src/threading/detail/TaskFacilityRuntime.hpp:499-975 | what the two rechecks of a Task wait ensure are steps of the runs |
| TaskBinding.EntriesAreSteps | src/threading/detail/TaskFacilityRuntime.hpp:440-899 | what the entries of the three waits ensure are steps of the runs |
| TaskBinding.CapacityRecheckIsAStep | src/threading/detail/TaskFacilityRuntime.hpp:780-827 | what the recheck of a capacity wait ensures is a step of the runs |
| TaskBinding.TurnsAreSteps | src/threading/detail/TaskWorkerExecutionContext.hpp:213-230 | what a Worker is told to run is what it takes up, and what Invoke ensures is the step in which the callable returns |
| TaskBinding.ShutdownIsAStep | src/threading/detail/TaskFacilityRuntime.hpp:1575-1650 | what BeginShutdownCancellation ensures is a step of the runs |
| ThreadModel.PackedRoundTrip | src/threading/detail/DedicatedThreadControl.hpp:40-73 | the byte decodes to the state and the Phase packed into it |
| ThreadModel.DedicatedThreadControl.TryStart | src/threading/detail/DedicatedThreadControl.hpp:84-107 | starts exactly when not running, with the other Phase |
| ThreadModel.DedicatedThreadControl.TryRequestStop | src/threading/detail/DedicatedThreadControl.hpp:112-123 | accepted exactly in Running, and the Phase stays |
| ThreadModel.DedicatedThreadControl.TryPublishStopped | src/threading/detail/DedicatedThreadControl.hpp:128-150 | published, Phase mismatch or not running, and stopped only when published |
| ThreadRuntime.DedicatedThreadRuntime.StartActivation | src/threading/detail/DedicatedThreadRuntime.hpp:852-899 | the own context is woken before the activation is published; a failed wake starts nothing |
| ThreadRuntime.DedicatedThreadRuntime.RequestStop | src/threading/detail/DedicatedThreadRuntime.hpp:902-928 | the request stands whether or not the wake of the own context works, and that wake is attempted |
| ThreadRuntime.DedicatedThreadRuntime.PublishStopped | src/threading/detail/DedicatedThreadRuntime.hpp:334-365 | a published end tells every joiner of its Phase, and the answer is good exactly when none of these wakes failed |
| ThreadRuntime.DedicatedThreadRuntime.EnterJoin | src/threading/detail/DedicatedThreadRuntime.hpp:462-508 | never started, joined at once, or registered with the Phase found |
| ThreadRuntime.DedicatedThreadRuntime.RecheckJoin | src/threading/detail/DedicatedThreadRuntime.hpp:245-257 | Joined exactly when the captured Phase reads as stopped, else Interrupted, TimedOut or another round by the cause |
| ThreadProtocol.StepKeeps | src/threading/detail/DedicatedThreadRuntime.hpp:391-928 | every step of every caller keeps the invariant between the byte, the unbounded count and the two locks |
| ThreadGuarantees.JoinedMeansStopped | src/threading/detail/DedicatedThreadRuntime.hpp:541-549 | Joined is returned only when the captured activation is over, after any number of restarts |
| ThreadGuarantees.MissedExactlyAfterEvenRestarts | src/threading/detail/DedicatedThreadRuntime.hpp:245-257 | a stopped activation is missed exactly after an even, non-zero number of restarts with one running |
| ThreadGuarantees.MissHappens | docs/LIFECYCLE.MD:19 | a run in which a join is retargeted by two restarts |
| ThreadGuarantees.OnePhaseBitForJoin | src/threading/detail/DedicatedThreadRuntime.hpp:245-257 | the same answer from the control byte alone |
| ThreadGuarantees.StoppedMeansPublished | src/threading/detail/DedicatedThreadRuntime.hpp:475-478 | a join that finds the thread stopped joins an activation that is over |
| ThreadGuarantees.NoLostJoin | src/threading/detail/DedicatedThreadRuntime.hpp:480-600 | a parked joiner whose activation reads as stopped has its signal latched, unless a wake of it failed |
| ThreadGuarantees.NoLostInterruption | src/threading/detail/DedicatedThreadRuntime.hpp:532-575 | a joiner on its signal that is to be interrupted has its signal latched, unless a wake of it failed, once it has looked |
| ThreadGuarantees.DeafOnlyBeforeTheFirstLook | src/threading/detail/DedicatedThreadRuntime.hpp:452-540 | a join loses an interruption only while it blocks for the first time without having looked |
| ThreadGuarantees.DeafJoinHappens | docs/LIFECYCLE.MD:38 | a run in which a context asked to stop blocks in a join with no signal on its way |
| ThreadGuarantees.JoinNeverRefused | src/threading/detail/DedicatedThreadRuntime.hpp:486-494 | registration for a join never fails |
| ThreadBinding.StartIsARun | src/threading/detail/DedicatedThreadRuntime.hpp:852-899 | what StartActivation ensures, from its look under the mutex on, is a run |
| ThreadBinding.StopIsAStep | src/threading/detail/DedicatedThreadRuntime.hpp:902-928 | what RequestStop ensures is a step, from a handle and from the traversal |
| ThreadBinding.PublicationIsAStep | src/threading/detail/DedicatedThreadRuntime.hpp:334-365 | what PublishStopped ensures is the step in which the callable returns, and it always publishes |
| ThreadBinding.JoinEntryIsAStep | src/threading/detail/DedicatedThreadRuntime.hpp:462-508 | what EnterJoin answers is where the joiner stands, and it always finds room |
| ThreadBinding.JoinRecheckIsAStep | src/threading/detail/DedicatedThreadRuntime.hpp:532-600 | what RecheckJoin ensures is a step |
| ThreadGuarantees.PublicationAlwaysMatches | src/threading/detail/DedicatedThreadRuntime.hpp:431-436 | the returning activation is always published, never a Phase mismatch |
| ThreadGuarantees.ActivationsRunOnceInOrder | src/threading/detail/DedicatedThreadRuntime.hpp:402-438 | activations are entered in order, each at most once, and all but the latest are over |
| ThreadGuarantees.NoLostStart | src/threading/detail/DedicatedThreadRuntime.hpp:871-887 | a parked trampoline with a started activation has its signal latched |
| ThreadGuarantees.ShutdownGate | src/threading/detail/DedicatedThreadRuntime.hpp:841-928 | from the traversal's stop request on, in every continuation, the thread is NeverStarted, Stopped or asked to stop, and no activation starts |
| ThreadGuarantees.CompletionIsFinalUnlessBootPending | src/threading/detail/InfrastructureLifecycle.hpp:261-381 | ShutdownComplete stays in every continuation exactly when no caller of CommitInitialization, Start or BeginShutdown is between its read and its publication |
| ThreadGuarantees.CompletionCanRegress | docs/LIFECYCLE.MD:48 | for each of the three kinds, a run that ends completed with such a caller still to publish |
| ShutdownWait.ShutdownWaitRuntime.Enter | src/threading/detail/ShutdownWaitRuntime.hpp:211-260 | both looks at the lifecycle around the registration decide, and a completed wait leaves no registration |
| ShutdownWait.ShutdownWaitRuntime.WakeCompleted | src/threading/detail/ShutdownWaitRuntime.hpp:405-439 | every registered context is woken or its wake has failed; Succeeded is answered only when all are woken |
| ShutdownWait.EntryIsARun | src/threading/detail/ShutdownWaitRuntime.hpp:211-260 | what Enter ensures is a run of the protocol, with completion published in between or not |
| ShutdownWait.StepKeeps | src/threading/detail/ShutdownWaitRuntime.hpp:198-335 | every step under either lock keeps the invariant |
| ShutdownWait.NoLostCompletion | src/threading/detail/ShutdownWaitRuntime.hpp:242-292 | after publication and wake, while the completion stands, a parked waiter has its signal latched, unless its wake failed |
| ShutdownWait.CompletedMeansPublished | src/threading/detail/ShutdownWaitRuntime.hpp:198-335 | Completed is returned only after publication |
| ShutdownWait.NobodyBlocksAfterPublication | src/threading/detail/ShutdownWaitRuntime.hpp:198-335 | in every continuation in which the completion stands, whoever blocks was already going to when it was published, and whoever leaves without having seen it was already leaving |
| ShutdownWait.OverwritingLosesCompletion | src/threading/detail/ShutdownWaitRuntime.hpp:242-292 | a run in which the completion is overwritten and a later wait blocks with no signal on its way |
| ShutdownWait.NoLostInterruption | src/threading/detail/ShutdownWaitRuntime.hpp:264-310 | a context on its signal that is to be interrupted has its signal latched, unless a wake of it failed, once it has looked |
| ShutdownWait.DeafOnlyBeforeTheFirstLook | src/threading/detail/ShutdownWaitRuntime.hpp:198-280 | the wait loses an interruption only while it blocks for the first time without having looked |
| ShutdownWait.DeafWaitHappens | src/threading/detail/ShutdownWaitRuntime.hpp:198-280 | a run in which a context that is to be interrupted blocks with no signal on its way |
| ShutdownWait.RegistrationNeverFails | src/threading/detail/ShutdownWaitRuntime.hpp:230-240 | registering for the end of shutdown never fails |
| FailClosedMutex.WaitSliceIsLeastMultiple | src/threading/FailClosedOrdinaryMutexProvider.hpp:78-90 | the slice is the least whole number of native ticks that reaches one millisecond, inside 64 bits |
| FailClosedMutex.FailClosedOrdinaryMutex.Acquire | src/threading/FailClosedOrdinaryMutexProvider.hpp:141-177 | the loop answers as its passes decide: Acquired only in a pass that got the native mutex and read an unset latch, FailedState only in one that read it set, ProviderFailure only in one in which the platform failed |
| FailClosedMutex.PassesEndOneWay | src/threading/FailClosedOrdinaryMutexProvider.hpp:141-177 | one pass at most ends the loop and in one way only, so the passes determine the answer |
| FailClosedMutex.AcquireIsARun | src/threading/FailClosedOrdinaryMutexProvider.hpp:132-177 | what the loop of one caller comes to is what a run of all callers comes to |
| FailClosedMutex.OneHolder | src/threading/FailClosedOrdinaryMutexProvider.hpp:146-165 | one caller at a time holds the native mutex |
| FailClosedMutex.AcquiredReadUnsetLatch | src/threading/FailClosedOrdinaryMutexProvider.hpp:153-192 | every caller ever told Acquired held the native mutex then and had just read an unset latch; Released is answered only with it unset before and after |
| FailClosedMutex.FailClosed | src/threading/FailClosedOrdinaryMutexProvider.hpp:111-192 | once the latch is set it stays set in every continuation, for any number of callers, and nobody is told Acquired or Released any more |
| LockDiscipline.StepKeeps | src/threading/detail/TaskFacilityRuntime.hpp:166-182 | every step keeps each context's mutexes a stack without repetition whose neighbours are linked |
| LockDiscipline.RingNeverBreaks | src/threading/detail/TaskFacilityRuntime.hpp:941-972 | contexts that each need a mutex another of them holds stay there in every continuation |
| LockDiscipline.DeadlockIsARing | src/threading/detail/TaskFacilityRuntime.hpp:941-972 | nobody who holds a mutex can go on only if they are such a ring, over dispatch waits and payloads with handles alike |
| LockDiscipline.CrossedSectionsNeverReturn | src/threading/detail/StructuralContextResolver.hpp:94-116 | two contexts that each need a mutex of the other, in dispatch waits or in the ends of payloads, never return |
| LockDiscipline.ReentranceNeverReturns | src/threading/detail/TaskFacilityRuntime.hpp:1477-1484 | a section that meets a mutex it holds never ends, whatever others do |
| LockDiscipline.AloneReturnsUnlessReentrant | src/threading/detail/TaskFacilityRuntime.hpp:1477-1520 | with nobody else in the way a section of any depth ends exactly when it never meets a mutex it holds |
| LockDiscipline.OwnMutexNeverReturns | src/threading/detail/TaskFacilityRuntime.hpp:797-811 | a context alone in a dispatch recheck, or in a section that destroys a payload with a handle, comes out exactly when it does not need the mutex it holds |
| LockDiscipline.OwnMutexHappens | src/threading/detail/TaskFacilityCore.hpp:707-721 | a run in which a Worker waits in its own facility, and one in which a payload with a handle of its own facility is destroyed, and nobody returns |
| LockDiscipline.DeadlockIffCyclic | src/threading/detail/TaskFacilityRuntime.hpp:1427-1520 | for any number of contexts: deadlock is possible exactly when the relation that dispatch waits and payloads with handles make between mutexes has a cycle |
| LockDiscipline.OrderedNeverDeadlocks | src/threading/detail/StructuralContextResolver.hpp:94-116 | when every dispatch wait is in a facility ranked before the owner of the waiting context, and every payload in one ranked before those of its handles, in every state of every run somebody who holds a mutex can go on |
| LockBinding.HandleCallsEnd | src/threading/detail/TaskFacilityCore.hpp:700-829 | cancelling destroys exactly a queued callable, and giving up a handle that or a completed result |
| LockBinding.AbandoningEnds | src/threading/detail/TaskFacilityRuntime.hpp:953-972 | leaving a grant wait destroys the dispatched callable exactly when it is still queued |
| LockBinding.EndingIsASection | src/threading/Task.hpp:84-98 | destroying a payload with handles is a legal section, and it meets its own mutex exactly when one of the handles is of that facility |
| LockBinding.RechecksAreSections | src/threading/detail/TaskFacilityRuntime.hpp:797-972 | the two rechecks of the runs are legal sections; a Worker in its own facility meets its own mutex exactly when it does not find what it waits for |
| WaitBudget.BudgetNeverRestarts | src/threading/detail/MonotonicWaitBudget.hpp:96-150 | a budget only shrinks as the clock advances, and spent it stays spent |
| WaitBudget.RelativeBudgetIsExact | src/threading/detail/MonotonicWaitBudget.hpp:125-149 | time waited plus time left is the duration; spent exactly at its end; never more than asked for |
| WaitBudget.RelativeIsDeadline | src/threading/detail/MonotonicWaitBudget.hpp:104-149 | a relative budget is the deadline of its end |
| WaitBudget.SleepWithBudget | src/threading/detail/ExecutionControl.hpp:19-62 | the sleep ends in the first round that is interrupted, failed or finds the budget spent: Completed exactly for the last, Interrupted for the others |
| WaitBudget.SleepEndsOneWay | src/threading/detail/ExecutionControl.hpp:19-62 | one round at most ends the sleep and in one way only, so the rounds determine the answer |
| WaitBudget.SleepsItsTime | src/threading/detail/ExecutionControl.hpp:59-61 | an undisturbed sleep completes in the first round whose clock finds the duration over, however often it is woken, and not before |
| Lifecycle.InfrastructureLifecycle.Start | src/threading/detail/InfrastructureLifecycle.hpp:281-344 | from whatever an earlier caller left: all resources run, or exactly those this call started are woken and joined and every one is destroyed, whatever is published between the read and the publication |
| Lifecycle.SecondStartFails | src/threading/detail/InfrastructureLifecycle.hpp:281-296 | a caller that finds a resource already started or destroyed rolls back |
| Lifecycle.InfrastructureLifecycle.BeginShutdown | src/threading/detail/InfrastructureLifecycle.hpp:350-374 | accepted exactly from Started; the other answers name the state found, and the publication replaces whatever was published since |
| Lifecycle.InfrastructureLifecycle.CommitInitialization | src/threading/detail/InfrastructureLifecycle.hpp:261-273 | commits exactly when it read Uninitialized, and the publication replaces whatever was published since |
| Lifecycle.StaticTopologyOwner.FinalizeShutdown | src/threading/detail/StaticTopologyOwner.hpp:628-662 | completion is published only from ShuttingDown with quiescent, finalized resources, and whenever it is, every registered waiter is woken or its wake has failed; Completed is answered only when all are woken |

## Left out

- Dispatch, WaitWithBudget, WaitForWorkerGrant, WaitForAdmissionCapacity and JoinWithBudget as one method each: between two locked sections other contexts act, so each section is a method and the runs put the sections of a call in sequence, with time-outs and interruptions at any point.
- Entry loops of the trampolines as unbounded loops: one turn is a method, and the runs repeat it.
- Mutex-provider failure branches of the facility, the threads and the shutdown wait: they return without unregistering, so the promises above assume that the lock is acquired.
- Eventual quiescence, and that every granted Task or started activation runs: the trampolines look for termination before they look for work, so the code does not keep it.
- That no Task is admitted after shutdown: the dispatch gate is one look without the facility's lock.
- TaskFacilityRuntime::Admit, which admits without returning a handle: AdmitAndSchedule is its body without the lock.
- ThreadProtocol.StepKeeps: a rollback of the infrastructure start is its publication; that it wakes, joins and destroys the resources is Lifecycle.InfrastructureLifecycle.Start.
- StaticTopologyOwner.BeginShutdown over a whole topology: the traversal of one facility and of one thread is modelled, their composition is not.
- ShutdownWait.CompletedMeansPublished: published at some time; ThreadGuarantees.CompletionIsFinalUnlessBootPending says exactly when it is for good.
- TaskWorker.TaskWorkerExecutionContext.Turn: one turn without anybody in between; the runs put the sections of a turn apart and let others act between them.
- Lifecycle.StaticTopologyOwner.FinalizeShutdown: whether the resources are quiescent and whether they could be torn down are parameters, because their providers are part of other repositories.
- LockDiscipline.OrderedNeverDeadlocks: the ranges of the resources are disjoint in a topology, so the first resource in whose range a context is answers for it; a later one is not asked.
- LockBinding.EndingIsASection: a payload destructor takes other mutexes only through Task handles; what else user code might do in one is not modelled.
- Platform providers, Clock and the containers of EDP-BoundedTopology and EDP-Memory: they are part of other repositories.
- Compile-time composition, resource tables, object sizes and alignment, and the thin forwarding layers: they hold only shallow facts.
