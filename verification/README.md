# Futures, dispatch queues and shared lifetimes: a verified model

This project models three protocols of the Mso libraries and proves what they promise their callers.

**Futures** (`libs/future`). A future keeps its state and the head of its continuation list in one atomic word, and
every operation is a compare-and-swap loop on that word. `FutureCore.dfy` holds the decision every loop takes (the
`switch` statements of all eight operations, as one function) and its transition graph, beside the graph the comments
draw. `FutureProtocol.dfy` is the concurrent protocol: a heap of futures, any number of calls in progress, and one
step for each atomic load, each decision with its plain `m_link` access, and each compare-and-swap, which may also
fail spuriously. `FutureInvariant.dfy` proves, step by step, that its invariant is inductive for callers that go on
from SettingResult only after their own claim, `FutureTheorems.dfy` what follows for all their runs. `FutureLists.dfy`
says exactly which steps keep the list of a future from being handed over to its end, `FutureDelivery.dfy` that
callers who touch a continuation only after its publication take none of them, and what they can rely on: no internal
crash check can fire, every accepted continuation is handed over exactly once. `FutureDiscipline.dfy` and
`FutureClaims.dfy` say what goes wrong with other callers: which of their steps crash or lose a list, and that only
those do. `FuturePosting.dfy` is about the two checks that fire for what other calls did, in `Post()` and
`StartAwaiting`. `FutureCalls.dfy` says what each call does when nobody gets in its way, `FutureProgress.dfy` that from
every reachable state every call can begin, take effect where it is accepted, and come to its end, and
`FutureLinks.dfy` what `m_link` says after the hand-over. `FutureTree.dfy` is the same code in one thread, as a class that updates its fields: the mutual
recursion that settles a whole tree of continuations, whatever their callbacks do to their own futures.
`FutureCallback.dfy` is the callback object given to an executor. `FutureLayout.dfy` and `FuturePacking.dfy` are the
memory layout and the bit packing below all this. `WhenAll.dfy`, `WhenAllInvariant.dfy`, `WhenAllTheorems.dfy` and
`WhenAllProgress.dfy` are the combinator that waits for n parents at once; `WhenAllTask.dfy` is its task buffer.

**Dispatch queues** (`libs/dispatchQueue`). `TaskQueue.dfy` and `QueueService.dfy` are the two-buffer queue and the
service over it, as classes; `TaskService.dfy` is the state the service guards with its mutex, as a value.
`CondvarPool.dfy`, `AtomicPool.dfy` and `Looper.dfy` are the three schedulers, as state machines over that value whose
steps are the locked sections and the atomic operations; in particular, "the task is in the queue" and "the scheduler
was told" are different moments. `EventWaitHandle.dfy` is the event the looper waits for. `TaskContexts.dfy` and
`InvokeOrder.dfy` are the execution of a task with the tasks it defers, in nested contexts.

**Shared lifetimes** (`libs/object`). `Swarm.dfy`, `SwarmInvariant.dfy`, `SwarmTheorems.dfy` and `SwarmProgress.dfy` are
many objects under one strong and one weak counter, with members pushed onto a lock-free list while handles are copied,
dropped and promoted.

Safety says what no run does; for each machine there is also a theorem that a run can always go on to its end, so that
what holds of ended runs is not empty. Concurrent parts are sequences of states (`Run`) in which any call may take the next step; a theorem about `run[i]`
holds in every reachable state. Fields called history record what happened; no step of the code depends on them, only
who may begin a call.

## What is false of the code

Five promises do not hold on all inputs. The model keeps the code as it is and states the exact boundary.

* `TrySetSuccess` accepts any caller while a future is in SettingResult (`libs/future/src/futureImpl.cpp:712`),
  although the comment above it says that only a caller that sets a value gets there. In every state of a disciplined
  run in which some call is between the two halves of `TrySetError`, one more call can crash it
  (`IntruderCrashesSetFailed`), and callers that touch only published futures run into no internal check unless one of
  them goes on from a claim that is not its own (`OnlyIntrudersCrash`). For callers held to nothing, a crash of
  `SetFailed` is still ahead, without any further such step, if and only if one of them has already settled a future
  between those halves (`TheftIsTheReason`). The library has such callers: void promises, promise groups, cancellation
  tokens and future tasks call `TrySetSuccess` without a claim of their own (`libs/future/src/promise.cpp:72`,
  `libs/future/src/promiseGroup.cpp:84`, `libs/future/src/cancellationTokenImpl.cpp:118` beside the `TrySetError` in
  line 124, `libs/future/src/futureTask.cpp:51`).
* A settled future hands over its list to the end, newest first, if and only if no step of the run spoilt that list
  (`DeliveredIffNotSpoilt`), and a spoilt one is never handed over to its end, whatever happens later
  (`SpoiltIsNeverDelivered`). Two kinds of steps spoil: `AddContinuation` publishes a continuation that is no longer
  Pending in front of others, or `TryStartSetError` takes a continuation that others are behind out of Pending. Both
  need a call that began on the continuation before its publication (`OnlyEarlyTouchesSpoil`). The walk of a spoilt
  list fails fast (`OnlySpoiltListsCrash`, `TouchCrashesWalk`), or, when the error was through with first, ends
  silently with every call returned and the rest of the list never handed over (`TouchLosesList`).
* `WhenAll` can lose every error: `AddContinuation` writes the parent's earlier continuation into `m_link`, and
  `TryStartSetError` refuses to leave Pending while `m_link` is set. `SettlesExactlyWhenSafe` says exactly when: some
  parent fails, and a parent at or after the last failing one may have another continuation before WhenAll is in its
  list.
* A MultiPost future in a list cuts the walk short, because `TryPostInternal` does not return its `m_link`
  (`libs/future/src/futureImpl.cpp:1001-1020`). A continuation of the list gets its turn if and only if no MultiPost
  one stands before it (`TurnsUpToMultiPost`), so all do if and only if only the last can be MultiPost
  (`WalkIsCompleteIff`); `MultiPostHidesTheRest` is a call sequence that leaves one behind.
* An empty task given to `DeferElsePost` looks like the end of the deferred queue to `InvokeTask`, which then drops
  the tasks behind it. Every task that is reached runs once or is dropped once (`Accounts`), and all run if and only
  if no context, nested ones included, has a task behind an empty one (`RunsAllIff`); `EmptyTaskDropsTheRest` is the
  smallest example.

Smaller ones: a waiter that times out can take the notification of an auto-reset event with it, so another one can
sleep through the set event if and only if WaitFor is used on it (`NobodySleepsThroughSet`). `GetFutureImpl` finds the
future of a callback exactly when the size of `FutureImpl` is a multiple of 8 (`CallbackFindsFuture`). The graph drawn
above `FutureState` differs from the code in two kinds of edges each way (`CommentIsNearlyExact`). The comment in
`TrySetPosted` says it moves from Pending; the code moves from Posting, and so does the model.

## Model

| member | source | states |
|---|---|---|
| FutureCore.GraphIsExact | libs/future/src/futureImpl.cpp:440-999 | an edge is in the code's transition graph, under its condition on the traits, if and only if some operation can take it |
| FutureCore.CommentIsNearlyExact | libs/future/src/futureImpl.h:28-106 | for every future that can be built the code takes the edges the comment draws, with the conditions written there, except exactly: a future with nothing to invoke is posted, a void one succeeds out of SettingResult, and success out of Pending is refused with a parent value to take or a MultiPost value to set |
| FutureTheorems.NextPreserves | libs/future/src/futureImpl.cpp:364-1034 | every step of every call keeps the protocol's invariant, also when continuations are touched before their publication: references owned by one place, links that trace the lists but where an early error cut them, claims owned by one call |
| FutureTheorems.RunInv | libs/future/src/futureImpl.cpp:364-1034 | the invariant holds in every reachable state |
| FutureDelivery.NoInternalCrash | libs/future/src/futureImpl.cpp:364-1034 | none of the fail-fast checks on words, sentinels, links, parents and SetFailed can fire for disciplined callers; what can is adding twice to a unique future, StartAwaiting on a future that is not Invoking, and Post() of one that is not Pending |
| FuturePosting.PostFailsIff | libs/future/src/futureImpl.cpp:903-926 | a Post() that is over failed fast if and only if some other operation on its future took it out of Pending before |
| FuturePosting.ReturnedPostPosted | libs/future/src/futureImpl.cpp:903-945 | a Post() that returned has moved its future from Pending to Posting |
| FuturePosting.AwaitFailsIff | libs/future/src/futureImpl.cpp:589-606 | a StartAwaiting that began while its future was Invoking failed fast if and only if another call, made in the future's callback or another StartAwaiting, ended that first |
| FutureCalls.OnlyAcceptedCallsWork | libs/future/src/futureImpl.cpp:440-863 | in every state, each of the five calls a caller can make, running alone, changes something if and only if it is accepted there, under the conditions on state, traits, link and callback that the comments of the operations give; then it has its whole effect; it goes on waiting if and only if another thread is just handing the future over. A TrySetSuccess on another call's claim is FutureDiscipline's |
| FutureCalls.RefusedEnds | libs/future/src/futureImpl.cpp:440-606 | a refused call returns without a trace, StartAwaiting fails fast |
| FutureCalls.AddTakesEffect | libs/future/src/futureImpl.cpp:364-438 | AddContinuation alone fails fast exactly when the continuation is one too many for a future that is not shared; otherwise it is in front of the list, or in the adder's hands if the parent is done |
| FutureCalls.HandsOver | libs/future/src/futureImpl.cpp:909-976 | TryPostInternal alone brings a Pending continuation to its callback in Posting, keeps its successor, and sets its link to the parent unless the parent failed and the task is not called on errors |
| FutureCalls.CallbackLeaves | libs/future/src/futureImpl.cpp:978-998 | after a callback that did nothing a future with a TaskPost is Posted, and the walk goes on with the successor |
| FutureProgress.AcceptedCallDelivers | libs/future/include/future/details/ifuture.h:97-110 | from every state of every run a fresh call that is accepted there can take effect: TrySetValue on a Pending promise, from Awaiting, or in the callback from Invoking leads to Succeeded, and so for the other calls |
| FutureProgress.CallbackDelivers | libs/future/src/futureImpl.cpp:300-334 | a task callback can settle its own future with a value, a success or an error, and a TaskPost callback can enter the task or fail it |
| FutureProgress.EveryCallCanEnd | libs/future/src/futureImpl.cpp:364-1034 | from every state of every run a call whose callbacks are over and which need not wait for others ends by its own steps, unless it fails fast |
| FutureLinks.ValueComesFromParent | libs/future/src/futureImpl.cpp:341-355 | a future that succeeded with its parent's value links to the one parent that accepted it, which is done; the link is null only if that parent failed |
| FutureLinks.SettledDropsLink | libs/future/src/futureImpl.cpp:719-863 | a settled future has dropped its link unless it succeeded and uses its parent's value |
| FutureTheorems.OnlyItsCallbackLeaves | libs/future/src/futureImpl.cpp:620-863 | only calls made in the callback a future is in, TrySetPosted after it, or StartAwaiting take it out of Posting or Invoking |
| FutureTheorems.Sentinel | libs/future/src/futureImpl.cpp:137-142 | ContinuationInvoked occurs only in settled words, and a settled word holds null if nothing was ever accepted and ContinuationInvoked otherwise |
| FutureTheorems.UniqueContinuation | libs/future/src/futureImpl.cpp:375-388 | a non-shared future accepts, before and after it is done, at most one continuation that is not shared and using the parent value, and only as its first |
| FutureDelivery.ListIsExact | libs/future/src/futureImpl.cpp:403-419 | unless its list is spoilt, the word of a future that is not done leads, link by link, through exactly what was added, newest first; afterwards handed over plus remaining is that same list |
| FutureDelivery.OnlyTheTailLeavesEarly | libs/future/src/futureImpl.cpp:778-785 | in a list that is not spoilt, a continuation that is no longer Pending is the tail and has a null link |
| FutureTheorems.WalkIsBounded | libs/future/src/futureImpl.cpp:1025-1034 | after settling the list never grows: handed over plus remaining stays its length at settling, so the walk ends |
| FutureTheorems.HandedAtMostOnce | libs/future/src/futureImpl.cpp:1025-1034 | no future is handed to TryPostInternal twice, and none that was is still in a list |
| FutureTheorems.ExactlyOnce | libs/future/src/futureImpl.cpp:364-438 | an accepted continuation is in exactly one of: its parent's list, the hands of the one late adder, or handed over once |
| FutureDelivery.AllDelivered | libs/future/src/futureImpl.cpp:719-743 | when all calls have returned, everything a settled future with an unspoilt list accepted was handed over exactly once, the list in reverse order of addition |
| FutureTheorems.PathInGraph | libs/future/src/futureImpl.h:28-106 | in every run every change of state is an edge of the code's graph, and of the commented one unless a future with nothing to invoke is posted |
| FutureTheorems.SettledOnce | libs/future/src/futureImpl.cpp:620-758 | exactly one TrySetSuccess or TrySetError has settled a done future, none one that is not done |
| FutureTheorems.NeverReturns | libs/future/src/futureImpl.h:46-68 | states are never taken again once left; Succeeded and Failed are final |
| FutureTheorems.EnteredOnce | libs/future/src/futureImpl.cpp:440-490 | TrySetInvoking succeeds at most once for a future |
| FutureDiscipline.IntruderCrashesSetFailed | libs/future/src/futureImpl.cpp:700-746 | whenever a call is between the halves of TrySetError, wherever its loop is, one TrySetSuccess by another caller leads to the crash of SetFailed |
| FutureDiscipline.OnlyIntrudersCrash | libs/future/src/futureImpl.cpp:700-746 | a run of callers held only to published futures hits an internal check only if a step in it went on from a claim that was not the caller's |
| FutureClaims.TheftIsTheReason | libs/future/src/futureImpl.cpp:700-863 | for callers held to nothing, SetFailed can still crash without another theft if and only if a future was settled under a half-done TrySetError |
| FutureLists.WholeUntilSpoilt | libs/future/src/futureImpl.cpp:364-1034 | at every moment of every run the list of a future is whole, with its front Pending and its walk on the way to its next entry, if and only if no step has spoilt it |
| FutureLists.SpoiltIsNeverDelivered | libs/future/src/futureImpl.cpp:909-1034 | once spoilt, a list is not handed over to its end in any later state |
| FutureLists.DeliveredIffNotSpoilt | libs/future/src/futureImpl.cpp:909-1034 | when the walk of a settled future's list is over, by its end or by a crash, the whole list was handed over, newest first, if and only if no step spoilt it |
| FutureLists.OnlySpoiltListsCrash | libs/future/src/futureImpl.cpp:920-923 | the only internal check that can fire for callers held to their own claims is that of a walk over a spoilt list |
| FutureDelivery.StrictNeverSpoils | libs/future/src/futureImpl.cpp:364-438 | callers that touch a continuation only after AddContinuation published it spoil no list |
| FutureDelivery.OnlyEarlyTouchesSpoil | libs/future/src/futureImpl.cpp:364-438 | in a run with a spoilt list some call began on an unpublished future |
| FutureDiscipline.TouchCrashesWalk | libs/future/src/futureImpl.cpp:909-999 | from every state in which a continuation is being linked in front of a non-empty list, an error set on it and a success of the parent lead to the crash of the walk |
| FutureDiscipline.TouchLosesList | libs/future/src/futureImpl.cpp:828-863 | from every such state there is also a run in which all three calls return, nothing crashes, and the whole earlier list is never handed over |
| FutureTree.FutureImpl.TrySetSuccess | libs/future/src/futureImpl.cpp:620-746 | returns true exactly when the decision allows it; then the future is settled and every continuation below it had what its traits, its callbacks and its parent's outcome give it, and the thread's current future is restored; otherwise nothing changed |
| FutureTree.FutureImpl.TrySetError | libs/future/src/futureImpl.cpp:748-863 | the same for an error, with a null link |
| FutureTree.FutureImpl.TrySetValue | libs/future/include/future/details/ifuture.h:97-110 | claim, write the value, succeed; then GetValue of every descendant reached through pass-through continuations ends at this value |
| FutureTree.FutureImpl.AddContinuation | libs/future/src/futureImpl.cpp:364-438 | a continuation is linked in front of the list of a future that is not done, which stays well formed unless it is no longer Pending and others are behind it, and gets its turn at once from one that is done; it crashes exactly when it is one too many for a future that is not shared |
| FutureTree.FutureImpl.PostContinuation | libs/future/src/futureImpl.cpp:1025-1034 | the loop gives every entry its turn up to and with the first MultiPost one, and leaves the rest as it was, in terminating mutual recursion with the settling operations |
| FutureTree.FutureImpl.TryPostInternal | libs/future/src/futureImpl.cpp:909-1022 | returns the next list entry, or null for a MultiPost future, and leaves the continuation and all below it as After says |
| FutureTree.FutureImpl.Invoke | libs/future/src/futureImpl.cpp:300-334 | runs the task, the error handler, or passes the outcome on, and none of its own checks fails |
| FutureTree.FutureImpl.GetValue | libs/future/src/futureImpl.cpp:341-355 | recursing through m_link it returns the value of the future at the end of the path |
| FutureTree.HasThrough | libs/future/src/futureImpl.cpp:909-999 | every future reached through pass-through continuations shows the outcome of the settled one |
| FutureTree.ReadsThrough | libs/future/src/futureImpl.cpp:341-355 | GetValue of every such future ends where GetValue of the settled one ends |
| FutureTree.TurnsUpToMultiPost | libs/future/src/futureImpl.cpp:1001-1034 | after the walk of a list, an entry had its turn if and only if no MultiPost continuation stands before it |
| FutureTree.WalkIsCompleteIff | libs/future/src/futureImpl.cpp:1001-1034 | every entry had its turn if and only if no MultiPost continuation stands before another one |
| FutureTree.MultiPostHidesTheRest | libs/future/src/futureImpl.cpp:1001-1034 | a shared parent with a pass-through continuation behind a MultiPost one succeeds and leaves the first Pending |
| FutureTree.OnlyItsHandlerCounts | libs/future/src/futureImpl.cpp:300-334 | below a parent that succeeded TaskCatch plays no part, below one that failed TaskInvoke plays none, unless the future is called on errors: then both cases are the same |
| FutureTree.OnlyItsCallbackCounts | libs/future/src/futureImpl.cpp:1001-1020 | the same of a MultiPost future in any state |
| FutureTree.HandlerSettles | libs/future/src/futureImpl.cpp:300-334 | the handler of the parent's outcome decides how an inline continuation ends: with its value, its success or its error; without a TaskCatch with the parent's error |
| FutureTree.WrongKindIsRefused | libs/future/src/futureImpl.cpp:620-698 | a void future takes no value and a future with a value no bare success |
| FutureTree.ExecutorDecides | libs/future/src/futureImpl.cpp:978-993 | an executor that keeps the task leaves the future Posted with the parent's outcome, one that cancels it fails it with the cancellation error; no handler matters |
| FutureTree.CallbackSettles | libs/future/src/futureImpl.cpp:1001-1020 | a Pending MultiPost future ends as its callback says, but an error is refused while it is in a list; a settled one stays |
| FutureTree.HandledIsPassedOn | libs/future/src/futureImpl.cpp:300-355 | wherever the walk gets, a handler that sets a value has set it and everything that passes values through below reads it; a handler that fails has put its error there and below |
| FutureTree.PromiseDelivers | libs/future/include/future/details/ifuture.h:97-110 | a new promise takes the value it is given, and a future that passes it on reads that value |
| FutureTree.CatchRecovers | libs/future/src/futureImpl.cpp:322-332 | below a failed parent a TaskCatch that sets a value recovers, whatever TaskInvoke would have done, and a future that passes it on reads that value |
| FutureCallback.EnteredOnce | libs/future/src/futureImpl.cpp:440-490 | the task of a posted future is entered at most once whatever its executor does |
| FutureCallback.OneCallIsSafe | libs/future/src/futureImpl.cpp:1100-1112 | an executor that makes at most one call of Invoke or OnCancel never trips the check against a second call |
| FutureCallback.NeverForgotten | libs/future/src/futureImpl.cpp:1086-1141 | once the callback was called or its last reference released, and the calls returned, the future is out of Pending, Posting and Posted |
| FutureCallback.InvokeRefusedIff | libs/future/src/futureImpl.cpp:1100-1112 | a synchronous Invoke that is over failed fast if and only if another step took the future past Posted |
| FutureCallback.OnlySyncInvokesFail | libs/future/src/futureImpl.cpp:300-303 | only a synchronous Invoke fails fast when it is refused |
| FutureCallback.CallDoesWhatItSays | libs/future/src/futureImpl.cpp:1100-1112 | where nobody else decides the future, an Invoke that was the first call and is over has entered the task, and an OnCancel has claimed the future for the error and the task is never entered |
| FutureCallback.EntersOnlyByInvoke | libs/future/src/futureImpl.cpp:1100-1112 | the task is entered only after an Invoke that was the first call |
| FutureCallback.UncalledIsNotEntered | libs/future/src/futureImpl.cpp:1091-1098 | a callback that was never called does not enter the task |
| FutureCallback.LeavesPosting | libs/future/src/futureImpl.cpp:978-993 | once TaskPost and every call returned the future has left Posting |
| FutureCallback.SecondCallNeverReturns | libs/future/src/futureImpl.cpp:1100-1112 | a second call never returns: with every call over the flag tells whether there was one call or none |
| FutureCallback.CallEnds | libs/future/src/futureImpl.cpp:1086-1141 | once the future is not Posting every call of the callback can come to its end by itself |
| FutureLayout.MaskIsRounding | libs/future/src/futureImpl.cpp:31-34 | on 64-bit words the mask expression of GetAlignedSize rounds up to a multiple of 8 |
| FutureLayout.MakeFuture | libs/future/src/futureImpl.cpp:75-96 | the running memorySize places each part at the next aligned offset after the one before |
| FutureLayout.AccessorsAgree | libs/future/src/futureImpl.cpp:254-298 | for all sizes and flags GetCallback, GetValueInternal and GetTask find what MakeFuture reserved, and find a part if and only if it is there |
| FutureLayout.RegionsAreSound | libs/future/src/futureImpl.cpp:78-129 | the five parts are 8-aligned, do not overlap and end inside the allocation |
| FutureLayout.CallbackFindsFuture | libs/future/src/futureImpl.cpp:1081-1084 | GetFutureImpl inverts GetCallback if and only if the size of FutureImpl is a multiple of 8 |
| FuturePacking.UnpackMade | libs/future/src/futureImpl.cpp:144-178 | unpacking a packed word gives the address back if and only if it is aligned, and then the state too |
| FuturePacking.MakeUnpacked | libs/future/src/futureImpl.cpp:144-178 | every word is the packing of its own state and continuation |
| FuturePacking.PackingIsInjective | libs/future/src/futureImpl.h:147-180 | packed words are equal if and only if state and continuation are, so a swap of words is a swap of pairs |
| FuturePacking.SentinelPacks | libs/future/src/futureImpl.cpp:137-142 | the sentinel address packs with every state, unpacks to itself and is not null |
| FuturePacking.RawOrCounted | libs/future/include/future/details/whenAllInl.h:14-64 | raw and counted pointers unpack to their address if and only if its lowest bit is free, and are never equal |
| WhenAllInvariant.NextPreserves | libs/future/src/whenAll.cpp:88-122 | every step of every parent, of every round of AddContinuation and of every callback keeps the invariant: one claim, one owner, one last success, and a link only from an earlier continuation |
| WhenAllTheorems.NeverCrashes | libs/future/include/future/details/whenAllInl.h:189-202 | the calls made with crashIfFailed true by the last success never fail, and no value it copies is missing |
| WhenAllTheorems.ResultIsRight | libs/future/include/future/details/whenAllInl.h:189-202 | Succeeded means all parents succeeded and the results are in parent order; Failed means the error of the parent whose claim won |
| WhenAllTheorems.HoldsWhatItStored | libs/future/src/whenAll.cpp:96-107 | an entry of ParentFutures is counted exactly from its own parent's callback on |
| WhenAllTheorems.CountIsExact | libs/future/src/whenAll.cpp:111-114 | CompleteCount is the number of successes that counted, and at most one of them is the last |
| WhenAllTheorems.FirstClaimDecides | libs/future/src/whenAll.cpp:117-122 | the first claim keeps result and error; later errors change nothing |
| WhenAllTheorems.AllOrError | libs/future/src/whenAll.cpp:10-42 | when no parent has an earlier continuation and all callbacks are over: Succeeded if and only if all parents succeeded, otherwise Failed |
| WhenAllTheorems.ErrorCanBeLost | libs/future/src/futureImpl.cpp:778-785 | in every configuration at risk some run ends with a failed parent and the combined future still Pending |
| WhenAllTheorems.SettlesExactlyWhenSafe | libs/future/src/futureImpl.cpp:371-438 | every ended run is settled if and only if no parent at or after the last failing one may have an earlier continuation |
| WhenAllProgress.CanEnd | libs/future/src/whenAll.cpp:10-122 | from every reachable state AddContinuation, the parents and the callbacks can all come to their end |
| WhenAllProgress.CanSettle | libs/future/src/whenAll.cpp:10-122 | unless the configuration is at risk, the combined future can from everywhere be settled as the parents demand |
| WhenAllTask.WhenAllFutureTask.constructor | libs/future/src/whenAll.cpp:25-36 | the entries point to the parents in order, repeated ones included, and hold no reference |
| WhenAllTask.WhenAllFutureTask.Invoke | libs/future/src/whenAll.cpp:88-115 | finds the parent if and only if it is an entry, takes one reference on it and no other, counts, and tells the last |
| WhenAllTask.WhenAllFutureTask.Destroy | libs/future/src/whenAll.cpp:75-84 | gives back exactly the references the callbacks took |
| TaskQueue.TaskReadBuffer.TryDequeue | libs/dispatchQueue/src/taskQueue.cpp:12-22 | takes the first unread task, or fails exactly when there is none |
| TaskQueue.TaskReadBuffer.SwapBuffer | libs/dispatchQueue/src/taskQueue.cpp:24-30 | trades what is unread for the other buffer |
| TaskQueue.TaskQueue.Enqueue | libs/dispatchQueue/src/taskQueue.cpp:53-61 | appends to the FIFO contents; the owner is taken on the empty queue, and with a live owner it is held whenever tasks are inside |
| TaskQueue.TaskQueue.TryDequeue | libs/dispatchQueue/src/taskQueue.cpp:63-77 | takes the first of the FIFO contents through swap and read, and drops the owner with the last task |
| TaskQueue.TaskQueue.DequeueAll | libs/dispatchQueue/src/taskQueue.cpp:79-105 | appends the whole contents in order, empties the queue and drops the owner |
| TaskQueue.TaskQueue.Size | libs/dispatchQueue/src/taskQueue.cpp:107-110 | the length of the FIFO contents |
| TaskService.StepConserves | libs/dispatchQueue/src/queueService.cpp:25-58 | every locked section keeps each posted task in exactly one place, in order |
| TaskService.Conservation | libs/dispatchQueue/src/queueService.cpp:25-58 | in every run each posted task is taken, flushed by Shutdown, queued or rejected, and the places follow the order of the posts |
| TaskService.NothingAfterShutdown | libs/dispatchQueue/src/queueService.cpp:211-230 | after a shutdown nothing is enqueued again: the queue only loses tasks from its front |
| TaskService.CancelEmptiesForever | libs/dispatchQueue/src/queueService.cpp:211-230 | after Shutdown(Cancel) the queue is empty in every later state |
| TaskService.OnlyCancelFlushes | libs/dispatchQueue/src/queueService.cpp:211-230 | without a Shutdown(Cancel) no task is ever taken out of the queue to be cancelled |
| TaskService.LastShutdownCounts | libs/dispatchQueue/src/queueService.cpp:211-230 | the service is shut down exactly from the first Shutdown on and keeps the action of the last |
| TaskService.CounterIsExact | libs/dispatchQueue/src/queueService.cpp:185-209 | the suspend counter is the number of Suspends less the number of Resumes |
| TaskService.SuspendedIsQuiet | libs/dispatchQueue/src/queueService.cpp:185-248 | while it is suspended the service gives out no task and does not call the scheduler |
| TaskService.EveryTaskIsSignalled | libs/dispatchQueue/src/queueService.cpp:25-58 | from the Resume that ended a suspension on, or from the start, the scheduler is called once for each task taken since or still queued |
| TaskService.DequeuesInOrder | libs/dispatchQueue/src/queueService.cpp:244-248 | unless it is suspended, that many calls of TryDequeTask take the first tasks of the queue in order |
| QueueService.QueueService.Post | libs/dispatchQueue/src/queueService.cpp:25-58 | refines the locked section; calls the scheduler once exactly when not shut down and not suspended; cancels the task exactly after a shutdown |
| QueueService.QueueService.Resume | libs/dispatchQueue/src/queueService.cpp:191-209 | refines the locked section; the last Resume calls the scheduler once for each queued task, any other never |
| QueueService.QueueService.Shutdown | libs/dispatchQueue/src/queueService.cpp:211-230 | refines the locked section; with Cancel every queued task is cancelled, in order, otherwise none; the scheduler is shut down once; the tasks that left the queue uncalled, or never entered it, are exactly those cancelled |
| QueueService.QueueService.HasTasks | libs/dispatchQueue/src/queueService.cpp:238-242 | true exactly when a task could be taken |
| QueueService.QueueService.TryDequeTask | libs/dispatchQueue/src/queueService.cpp:244-248 | refines the locked section: the oldest task unless suspended or empty |
| CondvarPool.NoStrandedWork | libs/dispatchQueue/src/threadPoolScheduler_linux.cpp:68-134 | a task that could run has an awake worker, or a caller who still owes the scheduler a Post |
| CondvarPool.BusyIsExact | libs/dispatchQueue/src/threadPoolScheduler_linux.cpp:81-91 | m_busyThreads counts the running workers, and busy, threads and maximum are ordered |
| CondvarPool.StuckMeansDrained | libs/dispatchQueue/src/threadPoolScheduler_linux.cpp:68-134 | when no worker and no Post can take a step, the queue is empty or suspended |
| CondvarPool.DrainsWithin | libs/dispatchQueue/src/threadPoolScheduler_linux.cpp:68-134 | left alone by its clients and by spurious wake-ups, the pool comes to rest within a number of steps computed from its state, and has nothing to run then |
| CondvarPool.SerialOrder | libs/dispatchQueue/src/threadPoolScheduler_linux.cpp:115-134 | with one thread the posts are the finished tasks, then the running one, then the queue |
| CondvarPool.EveryTaskOnce | libs/dispatchQueue/src/threadPoolScheduler_linux.cpp:68-134 | with any number of threads every task is finished, running or queued as often as it was posted |
| CondvarPool.PostStartsTask | libs/dispatchQueue/src/threadPoolScheduler_linux.cpp:115-134 | while a thread waits, or all are busy and one more is allowed, an owed Post can start a queued task beside those that run |
| CondvarPool.OnlyBusyPoolGrows | libs/dispatchQueue/src/threadPoolScheduler_linux.cpp:119-128 | a thread is created only while all existing ones are busy, and never beyond the maximum |
| AtomicPool.CounterIsExact | libs/dispatchQueue/src/threadPoolScheduler_win.cpp:130-144 | m_usedThreads counts the callbacks submitted or running and not yet released, and never exceeds the maximum |
| AtomicPool.NoStrandedWork | libs/dispatchQueue/src/threadPoolScheduler_win.cpp:83-113 | a task that could run has a thread in use, a callback about to ask the queue again, or a Post still under way |
| AtomicPool.StuckMeansDrained | libs/dispatchQueue/src/threadPoolScheduler_win.cpp:83-144 | when no callback and no Post can take a step, the queue is empty or suspended |
| AtomicPool.DrainsWithin | libs/dispatchQueue/src/threadPoolScheduler_win.cpp:83-144 | left alone, the pool comes to rest within a number of steps computed from its state, not counting swaps that fail for nothing, and has nothing to run then |
| AtomicPool.SerialOrder | libs/dispatchQueue/src/threadPoolScheduler_win.cpp:97-111 | with one thread at most one task runs, and the posts are finished, running, queued, in order |
| AtomicPool.EveryTaskOnce | libs/dispatchQueue/src/threadPoolScheduler_win.cpp:83-113 | with any number of threads every task is finished, running or queued as often as it was posted |
| AtomicPool.PostStartsTask | libs/dispatchQueue/src/threadPoolScheduler_win.cpp:130-144 | below the maximum a Post can start a queued task beside those that run |
| Looper.NoLostWakeUp | libs/dispatchQueue/src/looperScheduler.cpp:46-73 | a looper past its failed dequeue, over a task that could run, finds the event set or is owed the Post that sets it, although it resets after the wait |
| Looper.StuckMeansDrained | libs/dispatchQueue/src/looperScheduler.cpp:46-93 | the looper sleeps for good only over an empty or suspended queue |
| Looper.DrainsWithin | libs/dispatchQueue/src/looperScheduler.cpp:46-93 | left alone, the looper comes to rest within a number of steps computed from its state, and has nothing to run then |
| Looper.SerialOrder | libs/dispatchQueue/src/looperScheduler.cpp:54-58 | the posts are the finished tasks, then the running one, then the queue |
| EventWaitHandle.NobodySleepsThroughSet | libs/eventWaitHandle/src/eventWaitHandleImpl.h:32-98 | no waiter ever sleeps while the event is set, unless another is about to take an auto-reset event, if and only if the event is a manual-reset one or never waited for with WaitFor |
| EventWaitHandle.TimeOutTakesTheNotification | libs/eventWaitHandle/src/eventWaitHandleImpl.h:81-98 | a waiter that is notified and times out leaves another one asleep while the event is set |
| EventWaitHandle.OnePassesPerSet | libs/eventWaitHandle/src/eventWaitHandleImpl.h:81-98 | each time an auto-reset event became set, one waiter passed, or a Reset took it back, or it is still set |
| EventWaitHandle.OnlyResetClears | libs/eventWaitHandle/src/eventWaitHandleImpl.h:32-98 | a manual-reset event is set exactly when it became set and no Reset took that back; waiters do not use it up |
| EventWaitHandle.PassesOnlyWhenSet | libs/eventWaitHandle/src/eventWaitHandleImpl.h:81-98 | nobody gets through while the event is not set |
| EventWaitHandle.OnlyWaitForTimesOut | libs/eventWaitHandle/src/eventWaitHandleImpl.h:62-98 | only a WaitFor gives up |
| EventWaitHandle.SetLetsOneThrough | libs/eventWaitHandle/src/eventWaitHandleImpl.h:32-98 | whenever somebody waits at an auto-reset event, one Set is enough to let one more waiter through, and is used up by it |
| EventWaitHandle.SetLetsAllThrough | libs/eventWaitHandle/src/eventWaitHandleImpl.h:32-98 | a manual-reset event that is set can let everybody through and stays set |
| TaskContexts.TaskContext.TakeNextDeferredTask | libs/dispatchQueue/src/taskContext.cpp:26-29 | the next unread entry, in order; an empty one and the end are both None |
| TaskContexts.Thread.InvokeTask | libs/dispatchQueue/src/queueService.cpp:250-262 | terminates, restores the thread's context, and logs and posts exactly what the drain of this one task does, under nested calls on other queues |
| TaskContexts.Thread.RunAction | libs/dispatchQueue/src/queueService.cpp:83-113 | DeferElsePost and InvokeElsePost do what the specification of one action says, in the current context |
| InvokeOrder.DrainIsLevelOrder | libs/dispatchQueue/src/queueService.cpp:83-113 | what runs and what is posted, in order, is what the shape of the jobs says: breadth first by levels of deferred tasks, each with what it invokes in place where it stands, and each post to the queue that was asked |
| InvokeOrder.Accounts | libs/dispatchQueue/src/queueService.cpp:250-262 | every task reached, in the context or in nested ones, runs exactly once or is dropped exactly once, and every post reached is made once, to the queue that was asked, or dropped once |
| InvokeOrder.RunsAllIff | libs/dispatchQueue/src/taskContext.cpp:26-29 | every task the invoked one reaches runs exactly once if and only if no context, its own or a nested one, has a task behind an empty one; then every post is made exactly once, too |
| InvokeOrder.EmptyTaskDropsTheRest | libs/dispatchQueue/src/queueService.cpp:258-261 | a deferred task behind an empty one is never run |
| SwarmInvariant.NextPreserves | libs/object/include/object/swarm.h:160-301 | every step of handles, promotions, MakeMember and destruction keeps the invariant |
| SwarmTheorems.CountersAreExact | libs/object/include/object/objectWithWeakRef.h:102-172 | the strong counter is the number of strong references; the weak counter is weak references plus objects not yet destroyed |
| SwarmTheorems.ZeroIsFinal | libs/object/include/object/objectWithWeakRef.h:145-162 | once the strong counter is zero no run ever gives a strong handle again |
| SwarmTheorems.PromotionIsExact | libs/object/include/object/weakPtr.h:313-322 | a promotion took effect at one step during its call, where it gave a strong handle if and only if the counter was not zero: it failed if the counter was zero when it began, and succeeded if it is not zero after it |
| SwarmTheorems.ListIsExact | libs/object/include/object/swarm.h:284-301 | however the swaps of concurrent pushes fail and retry, the list holds every pushed member once and no other |
| SwarmTheorems.MakeMemberDelivers | libs/object/include/object/swarm.h:160-181 | every MakeMember that is over has its own member in the list |
| SwarmTheorems.DestroyedAtMostOnce | libs/object/include/object/swarm.h:246-254 | no member is destroyed twice, none while a strong handle exists, and all before the container is freed |
| SwarmTheorems.FreedLast | libs/object/include/object/objectWithWeakRef.h:120-130 | the container is freed at most once, when no handle and no call is left, in particular not under the walk that destroys the members |
| SwarmTheorems.NewestFirst | libs/object/include/object/swarm.h:246-254 | members are destroyed in reverse order of their pushes |
| SwarmTheorems.NothingLeaks | libs/object/include/object/objectWithWeakRef.h:218-235 | when every handle is given up and every call is over, every object was destroyed and the container freed, once |
| SwarmProgress.CanBeFreed | libs/object/include/object/objectWithWeakRef.h:102-235 | from every reachable state all calls can end and all handles be dropped, and then every object is destroyed and the container freed, once |

## Left out

- FutureDelivery.NoInternalCrash: holds for callers that go on from SettingResult only after their own claim, and touch a continuation only after AddContinuation published it; FutureLists, FutureDiscipline and FutureClaims say what happens otherwise. The checks of Invoke and its calls with crashIfFailed true are proved in FutureTree, in one thread.
- FutureTheorems.ExactlyOnce: continuations are not MultiPost and have a task or use the parent value, as every other continuation the library makes; MultiPost ones are in FutureTree and WhenAll.
- FutureTree.FutureImpl.TrySetSuccess: one thread, a tree of continuations fixed before the call, and callbacks that do one thing to their own future before they return, with arguments fixed beforehand; what a callback does to other futures FutureProtocol covers as calls made from it.
- FutureCallback.NeverForgotten: waiting for another thread to leave Posting is blocking; the ten-second give-up of TrySetInvoking is not modelled.
- FutureLayout.AccessorsAgree: sizes are unbounded; an overflow of size_t is not modelled.
- WhenAllTheorems.AllOrError: parents are distinct, shared where they have another continuation, and each posts once; the same shared future given twice makes the combined future a continuation of itself.
- WhenAllTask.WhenAllFutureTask.Invoke: the sequential part of the callback; the interleaving of callbacks is in WhenAll.
- CondvarPool.NoStrandedWork: before the scheduler's shutdown, with the queue alive and at most 64 threads, the size of the thread array.
- AtomicPool.NoStrandedWork: with the queue alive; the time slice of a callback may end after any task.
- EventWaitHandle.NobodySleepsThroughSet: that a wait reports a timeout although it was notified is a possibility the platforms leave open, taken as one that happens; the clock itself is not modelled.
- The crashIfFailed argument of the future operations, which turns a refused call of the user into a crash on request; the calls the library itself makes with it set are modelled in FutureProtocol (Post), WhenAll, FutureTree and FutureCallback.
- Weak memory orders: steps are sequentially consistent.
- Reference counts of futures: which place owns the counted reference to a continuation is modelled, the counter itself, the references that links hold on parents, and the destruction of a future are not.
- Overflow of reference, busy and completion counters.
- Draining on Shutdown(Complete), where workers test the flag without asking the queue again.
- Task batches, queue-local values and the RAII guards of the dispatch queue.
- Releasing the last reference to a queue under the scheduler's lock, and the queue's destruction.
- WhenAny, whose success calls race with errors inside SettingResult.
- The error that MultiPost's TaskCatch moves out of a failed shared parent, which a second continuation of that parent then no longer finds.
- Constructors of swarm members that throw, and swarms reached from a foreign object.
- The UI scheduler, the operating system's thread pool, COM casts, functors, promises, cancellation tokens and executors: wrappers around the modelled core.
