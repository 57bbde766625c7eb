# OpenCIDN: verification of the queues, the lease protocol, the transfer of blobs and the manifest store

OpenCIDN mirrors container registries. A gateway turns requests for manifests and blobs into
messages of a queue service; runners take messages under a lease, download what they name and put
it into caches. This project models the parts on which that rests and proves what they promise:

- the weighted work queue inside a process: duplicates are merged through an index, weighted
  batches move to a ready queue, workers park on a signal, and callers wait on a channel per item;
- the message table of the queue service: guarded updates, handlers that read and later write,
  a scheduler that resets and deletes, and runners that share a lease between goroutines;
- the transfer of blobs: completing several partial copies from one stream, a seekable reader made
  of one-way readers, and the progress counted while a manifest waits for its parts;
- the names that several processes print and parse: host names, registry routes, queue contents;
- the content-addressed manifest store with its links by tag and by digest.

Each part that works in place is a class or a method with loops, proved against a function on
values; the results over whole runs are lemmas about those functions. Concurrency is a transition
system: every critical section, SQL statement, atomic addition or store access is one operation, and
the lemmas quantify over all sequences of operations. A worker of the queue may finish an item before its
next Get, as in `pkg/manifests/manifest.go:124-136`, or hand the finish closure on and go on at once, as in
`pkg/blobs/blobs.go:224-250`.

## Files

| file | contents |
|---|---|
| `Collections.dfy`, `SortedKeys.dfy`, `Strings.dfy` | sums and bags over maps, the sorted key set, splitting and joining strings |
| `LinkedQueue.dfy` | the FIFO with its index, on values and as a class |
| `WeightQueue.dfy`, `WeightQueueObject.dfy` | the critical sections of the weighted queue as functions, and the class that carries them out |
| `WeightQueueSystem.dfy` | adders and workers interleaved at lock boundaries |
| `WeightQueueSafety.dfy`, `WeightQueueOnce.dfy`, `WeightQueueProgress.dfy`, `WeightQueueFairness.dfy` | wake-ups and channels, exactly-once dispatch, termination, atomicity of a step |
| `WeightQueueStarvation.dfy`, `WeightQueueService.dfy`, `WeightQueueWaiting.dfy` | bounded waiting in steps, in calls of Get until a caller has the item, and over interleaved runs |
| `MessageTable.dfy`, `MessageStore.dfy` | the guarded SQL updates as functions; table, handlers and scheduler as classes |
| `LeaseProtocol.dfy`, `LeaseReset.dfy`, `RunnerLease.dfy`, `RunnerHeartbeat.dfy` | handlers and scheduler interleaved, whom a reset hits, runners on top of them, the heartbeat loop |
| `ResumeBlob.dfy`, `Seeker.dfy`, `Progress.dfy` | resumable fan-out, the seekable reader, progress accounting |
| `DomainName.dfy`, `Routes.dfy`, `QueueContent.dfy` | the host name scanner, routes, queue contents |
| `ManifestStore.dfy`, `ManifestRaces.dfy` | the store as a class, and its calls interleaved at every access |

`dafny verify dfyconfig.toml` checks everything.

## Where the code does not do what one might expect

- A raise of a waiting item (`weight_queue.go:55-58`) does not store the new weight, so a second
  raise queues a second copy: `SecondRaiseDuplicates` says exactly when, `TwoRaisesQueueTwoCopies`
  is the shortest run.
- A negative weight empties its queue in one step, because the loop compares with `!=`.
- `ResetToPending` and `DeleteByID` do not recheck what the scheduler read. The second is safe
  nevertheless (`OnlyFinishedAreRemoved`). The first may reset a holder that is alive, in two ways: a
  heartbeat or consume may come after the query (`ResetOvertakesHeartbeat`), and `Consume` does not write
  `last_heartbeat`, at which the query looks, so that a message which waited for more than a minute can be
  reset right after it was consumed (`FreshConsumerIsReset`). `ResetExactly` says that there is no third.
- `Create` checks and then inserts, so two live messages can have one content (`RacingCreations`).
- A runner that consumes a message with an empty content never releases it (`EmptyContentLeaks`).
- Progress can be ahead of size, for an index because a child's progress is added before its size
  (`ChildOvertakes`), and for layers because the message that `Create` returns may have existed before
  with another size (`LayerOvertakes`). `WithinIffModest` says for which update streams it never is.
- Four segments `name//kind/reference` lose their empty segment in the gateway but not in the token
  service (`RouteRoundTrip`, `Agreement`).
- The path of a blob takes the first two characters of its hash (`cache_blob.go:68`), so a digest of fewer
  than two characters behind its prefix makes the program panic (`RelinkManifest`, `PutBlob`,
  `OpenBlobWriter` say exactly when). The upstream's `Docker-Content-Digest` header reaches `RelinkManifest`
  unchecked (`pkg/manifests/manifest.go:311-316`). Stored links are always long enough (`LinkedDigest`).
- A read that finds a tag pointing at something that is no manifest deletes the tag later without
  looking again, and may delete one that was just written (`TagStays`, `RelinkCanLoseAPut`).

## Model

| member | source | states |
|---|---|---|
| LinkedQueue.ItemsAdd | internal/queue/queue.go:26-30 | a push appends its item, keeps list and index consistent, and keeps an index without duplicates so if the item was absent |
| LinkedQueue.ItemsGet | internal/queue/queue.go:39-50 | a pop takes the front item and leaves the rest in order; the index never points outside the list |
| LinkedQueue.GetKeepsIndexed | internal/queue/queue.go:39-50 | without duplicates a popped item is really gone |
| LinkedQueue.RemoveKeepsValid | internal/queue/queue.go:52-61 | unlinking one element leaves every other indexed element in the list, and the last of its item |
| LinkedQueue.RemoveCutsLast | internal/queue/queue.go:52-61 | of several equal items Remove takes the one pushed last and keeps the order of all others |
| LinkedQueue.ItemsRemove | internal/queue/queue.go:52-61 | Remove takes exactly one copy if the item is indexed and none otherwise, even if older copies are in the list |
| LinkedQueue.RemoveKeepsIndexed | internal/queue/queue.go:52-61 | without duplicates Remove leaves no copy of the item |
| LinkedQueue.RemoveUndoesAdd | internal/queue/queue.go:26-61 | Remove undoes the Add before it on the list; an older copy stays, no longer removable |
| LinkedQueue.Queue.constructor | internal/queue/queue.go:18-24 | a new queue is empty and consistent |
| LinkedQueue.Queue.Add | internal/queue/queue.go:26-30 | in place, the contents grow by the item at the end |
| LinkedQueue.Queue.Get | internal/queue/queue.go:39-50 | in place, the front item is returned and removed, or nothing changes and None says that the queue was empty |
| LinkedQueue.Queue.Remove | internal/queue/queue.go:52-61 | in place, the indexed element alone is unlinked, and the result says whether there was one |
| LinkedQueue.Queue.Len | internal/queue/queue.go:99-103 | the length of the contents, duplicates included |
| Sorting.SortedKeys | internal/queue/weight_queue.go:75-82 | the rebuilt orders are the keys in strictly ascending order, each once |
| WeightQueue.RefreshExact | internal/queue/weight_queue.go:74-82 | comparing lengths only is an exact staleness test: afterwards orders is the sorted key set whether or not it was rebuilt |
| WeightQueue.AddWeightValid | internal/queue/weight_queue.go:34-60 | AddWeight keeps the representation: no weight key 0, every stored weight has a queue, so that a raise dereferences no nil, and orders lists keys in order |
| WeightQueue.AddWeightOutcome | internal/queue/weight_queue.go:41-60 | with 1 for weight 0: an item on its way or waiting under at least that weight leaves everything as it is; one waiting under less leaves its stored queue by one Remove and becomes the last of the heavier queue; a new one is indexed under that weight and becomes the last of its queue; no other queue changes |
| WeightQueue.QueuesExist | internal/queue/weight_queue.go:74-87 | a step finds a queue for every weight it looks up, whether or not it rebuilt the orders |
| WeightQueue.DrainMoves | internal/queue/weight_queue.go:85-104 | one queue hands out its first `weight` items in order, all of them if there are fewer or the weight is negative, and no other queue changes |
| WeightQueue.StepMoves | internal/queue/weight_queue.go:70-106 | a step appends to the ready queue the batches of all weights, heaviest first, marks exactly those items as soon, and touches nothing else outside the weight queues |
| WeightQueue.StepLeaves | internal/queue/weight_queue.go:85-104 | each weight queue keeps exactly what its batch did not take, and no key disappears |
| WeightQueue.StepConserves | internal/queue/weight_queue.go:70-106 | the multiset of queued copies, waiting plus ready, is the same before and after a step |
| WeightQueue.StepAdds | internal/queue/weight_queue.go:84-105 | a step reports progress if and only if some item was waiting, because no weight key is 0 |
| WeightQueueObject.WeightQueue.constructor | internal/queue/weight_queue.go:24-32 | a new queue is empty and well formed |
| WeightQueueObject.WeightQueue.Enqueue | internal/queue/weight_queue.go:34-39 | over a map of queue objects, adds to the queue of the weight, made on first use, and to no other |
| WeightQueueObject.WeightQueue.Insert | internal/queue/weight_queue.go:46-60 | the locked part of AddWeight refines its specification in place |
| WeightQueueObject.WeightQueue.AddWeight | internal/queue/weight_queue.go:41-68 | returns the channel under which the item is indexed, leaves the signal set, keeps the representation; changes nothing for an item on its way or waiting under at least that weight, and puts any other last in the queue of the weight |
| WeightQueueObject.WeightQueue.MoveOne | internal/queue/weight_queue.go:90-102 | moves the front item of one weight to the ready queue, or reports that the queue is empty |
| WeightQueueObject.WeightQueue.Drain | internal/queue/weight_queue.go:89-103 | the inner loop refines the batch of one weight and reports whether it moved anything |
| WeightQueueObject.WeightQueue.Sweep | internal/queue/weight_queue.go:84-105 | the outer loop refines the batches of all orders from the heaviest down |
| WeightQueueObject.WeightQueue.Step | internal/queue/weight_queue.go:70-106 | step as a whole refines its specification in place and reports whether the ready queue grew |
| WeightQueueObject.WeightQueue.Get | internal/queue/weight_queue.go:108-121 | returns the front of the ready queue, after one step if it was empty, and None exactly if that step moved nothing; with the item comes the weight it is indexed under, 0 if it is not |
| WeightQueueObject.WeightQueue.Finish | internal/queue/weight_queue.go:129-137 | closes the item's channel and unindexes it; a second call does nothing |
| WeightQueueObject.WeightQueue.Len | internal/queue/weight_queue.go:161-170 | the number of queued copies over the ready queue and all weights |
| WeightQueueSystem.StructureStep | internal/queue/weight_queue.go:41-159 | every operation of any adder or worker keeps the representation, one lock holder, and fresh orders during a step |
| WeightQueueSystem.IndexKeys | internal/queue/weight_queue.go:129-137 | apart from AddWeight, the indexed items change only by the one whose finish closure runs |
| WeightQueueSystem.TickNeverPanics | internal/queue/weight_queue.go:85-90 | in the middle of an interleaved step no index is out of range and no queue is missing |
| WeightQueueSystem.OpCopies | internal/queue/weight_queue.go:34-137 | copies of items appear only in AddWeight and disappear only in a finish closure, run by the worker or deferred, one at a time |
| WeightQueueSafety.ChannelsStep | internal/queue/weight_queue.go:48-58 | every operation keeps: an issued channel is open under exactly one item, or closed exactly once |
| WeightQueueSafety.AwakeStep | internal/queue/weight_queue.go:41-159 | the inductive wake-up invariant, split by empty and non-empty ready queue, is kept by every operation |
| WeightQueueSafety.NoLostWakeup | internal/queue/weight_queue.go:41-159 | in every run, while anything is queued the signal is set, or an adder is about to set it, or some worker is not parked |
| WeightQueueSafety.NoStrandedWaiter | internal/queue/weight_queue.go:48-137 | in every run, the open channels are exactly those in the index, each of their items has a copy waiting, ready, in a worker's hands or in a deferred closure, and no channel is closed twice |
| WeightQueueOnce.ExactlyOnce | internal/queue/weight_queue.go:48-137 | in every run without a second raise of a waiting item, an indexed item has exactly one copy and any other item none |
| WeightQueueOnce.NoTwoHolders | internal/queue/weight_queue.go:123-139 | in such runs two workers never hold the same item, and no held item waits in a deferred closure, nor any item in two |
| WeightQueueOnce.SecondRaiseDuplicates | internal/queue/weight_queue.go:55-58 | from any such state, an AddWeight keeps one copy per item if and only if it is not a second raise |
| WeightQueueOnce.TwoRaisesQueueTwoCopies | internal/queue/weight_queue.go:55-58 | adding at 1 and asking twice for 5 leaves two copies under weight 5 |
| WeightQueueProgress.InternalDecreases | internal/queue/weight_queue.go:70-159 | every operation that is not an addition, a join or a leave lowers one potential |
| WeightQueueProgress.InternalRunsEnd | internal/queue/weight_queue.go:70-159 | so the queue's own activity ends, within a number of operations known from the state |
| WeightQueueProgress.QuietMeansDone | internal/queue/weight_queue.go:41-159 | where it ends, if there is a worker at all, nothing is queued, every worker is parked and every channel ever issued is closed |
| WeightQueueFairness.StepIsAtomic | internal/queue/weight_queue.go:70-106 | however many ready Gets fall between the moves of a step, in the end it has done to queues and index, and handed out, exactly what the whole step does |
| WeightQueueStarvation.TakenWithin | internal/queue/weight_queue.go:85-104 | an item at position p of the queue of weight w is taken within any run with (p+1)/w steps, rounded up, whatever the run adds, if it is not itself raised |
| WeightQueueStarvation.StepBounded | internal/queue/weight_queue.go:85-104 | with positive weights a step hands out at most the sum of the weights in use |
| WeightQueueWaiting.LeavesWithin | internal/queue/weight_queue.go:70-159 | the bound of TakenWithin over every interleaving of adders and workers: from any reachable state, the item leaves its queue by the time (p+1)/w steps, rounded up, are completed, one more if a step is under way at the beginning, unless the run raises it |
| WeightQueueService.TakenWithinGets | internal/queue/weight_queue.go:108-121 | the same bound in calls of Get, one after another, until the item leaves its queue |
| WeightQueueService.ReadyReturned | internal/queue/weight_queue.go:108-112 | the item at position q of the ready queue is returned within q+1 calls of Get |
| WeightQueueService.ServedWithinGets | internal/queue/weight_queue.go:108-139 | some Get returns a waiting item within as many calls as there are ready items plus, for each of the (p+1)/w steps, the sum of the weights in use |
| MessageStore.Messages.Create | pkg/queue/dao/messgae.go:41-52 | the id was never used before, the new row is pending and free for any consumer and holds the content, priority and attributes given, and no other row changes |
| MessageStore.Messages.Consume | pkg/queue/dao/messgae.go:229-240 | one row changes if and only if it was live, pending and unleased; it is then processing under the lease, nothing else of it changed |
| MessageStore.Messages.Heartbeat | pkg/queue/dao/messgae.go:242-253 | one row changes if and only if it is held under this lease and time or attributes differ; exactly those two are then set |
| MessageStore.Messages.Complete | pkg/queue/dao/messgae.go:255-266 | takes effect if and only if the row is held under this lease; the row is then completed and unleased, nothing else of it changed |
| MessageStore.Messages.Failed | pkg/queue/dao/messgae.go:268-279 | takes effect if and only if the row is held under this lease; the row is then failed and unleased with the attributes given, nothing else of it changed |
| MessageStore.Messages.Cancel | pkg/queue/dao/messgae.go:281-292 | takes effect if and only if the row is held under this lease; the row is then pending and unleased, nothing else of it changed |
| MessageStore.Messages.ResetToPending | pkg/queue/dao/messgae.go:294-305 | one row is affected if and only if it was live and processing, whoever held it; it is then free and no longer held by its holder, and no other row changes |
| MessageStore.Messages.UpdatePriority | pkg/queue/dao/messgae.go:101-112 | never lowers a priority, leaves a live row with at least the one given, and changes no other field and no other row |
| MessageStore.Messages.Delete | pkg/queue/dao/messgae.go:114-125 | afterwards the row is not live, keeps its status, lease and all other fields, and a second deletion keeps the time of the first |
| MessageStore.Messages.CleanUp | pkg/queue/dao/messgae.go:155-166 | touches no live row, removes only rows deleted before the horizon and leaves none of them, and changes no row that stays |
| MessageStore.MessageController.Consume | pkg/queue/controller/message.go:487-509 | succeeds if and only if the lease is not empty and the row was free, and then replies with the row as it was but processing under that lease |
| MessageStore.MessageController.Heartbeat | pkg/queue/controller/message.go:526-554 | for the holder: progress becomes the one requested unless that is 0, size the one requested if that is positive, the time is set, every other attribute, column and row stays; for anyone else nothing changes; it replies success if and only if the row changed, and each refusal exactly in its case |
| MessageStore.MessageController.Complete | pkg/queue/controller/message.go:571-592 | succeeds exactly for the holder and leaves the row completed |
| MessageStore.MessageController.Failed | pkg/queue/controller/message.go:609-638 | succeeds exactly for the holder; the row is then failed and unleased and has the error given, every other attribute and row stays |
| MessageStore.MessageController.Cancel | pkg/queue/controller/message.go:655-676 | succeeds exactly for the holder and leaves the row free for the next consumer |
| MessageStore.MessageController.Create | pkg/queue/controller/message.go:304-351 | reuses the live message found, raising its priority to the one requested exactly if it is pending and that is higher, and otherwise inserts one as requested; alone it keeps one live message per content |
| MessageStore.MessageController.Schedule | pkg/queue/controller/message.go:247-292 | one tick leaves each row as its memberships in the two lists determine: reset, then deleted, then removed if past the horizon; no other row changes |
| LeaseProtocol.InvStep | pkg/queue/controller/message.go:240-677 | every statement of every handler keeps the protocol invariant, which covers the snapshots of all handlers in flight |
| LeaseProtocol.LeaseSafety | pkg/queue/dao/messgae.go:229-306 | in every run a row carries a lease exactly when it is processing, a deleted row is finished, and a pending row can be consumed under any lease |
| LeaseProtocol.Fencing | pkg/queue/controller/message.go:473-677 | every heartbeat, completion, failure or cancellation that took effect under a lease follows a consume under that lease with no release, reset or other consume in between |
| LeaseProtocol.ConsumesAlternate | pkg/queue/dao/messgae.go:229-306 | between two successful consumes of a message it was released or reset |
| LeaseProtocol.Accounting | pkg/queue/dao/messgae.go:229-306 | consumes equal completions, failures, cancellations and resets, plus one while processing; a message completes or fails at most once, and exactly once if it is over |
| LeaseProtocol.FinalForever | pkg/queue/controller/message.go:240-677 | a completed or failed row keeps all but its priority and deletion mark through every run |
| LeaseProtocol.GoneForever | pkg/queue/dao/messgae.go:155-166 | a message that was cleaned up never comes back |
| LeaseProtocol.OnlyFinishedAreRemoved | pkg/queue/controller/message.go:270-287 | the deletion that does not check the status only ever hits messages completed or failed before |
| LeaseProtocol.AttributesSurvive | pkg/queue/controller/message.go:531-622 | although heartbeat and failed write back attributes read earlier, kind, host, image and depth keep their first values, and an error shows only on failed messages |
| LeaseProtocol.HeartbeatWrites | pkg/queue/controller/message.go:526-554 | whatever happens between the read and the write of a heartbeat, the row, if then held under the lease, gets the requested progress unless that is 0 and the requested size if that is positive, the other attributes as read, and the time of the write; nothing else changes |
| LeaseProtocol.FailureWrites | pkg/queue/controller/message.go:609-638 | likewise a failure ends a row held when it writes, with the requested error and the other attributes as read, and changes nothing of any other |
| LeaseProtocol.CreationWrites | pkg/queue/controller/message.go:304-351 | likewise a creation inserts exactly the pending row requested, under the next id, or raises the priority of the message found if that is then still live and lower |
| LeaseProtocol.CreationEnds | pkg/queue/controller/message.go:304-327 | a creation that finds a message no longer pending or of no lower priority changes nothing |
| LeaseProtocol.UniqueStep | pkg/queue/controller/message.go:304-337 | exactly one kind of step breaks that a content has one live message: the insertion of a content that was inserted since the handler read |
| LeaseProtocol.RacingCreations | pkg/queue/controller/message.go:304-337 | two creations that read before either writes make two live messages of one content |
| LeaseProtocol.ResetOvertakesHeartbeat | pkg/queue/controller/message.go:248-255 | from any state with a held message whose heartbeat is old, a heartbeat that takes effect after the scheduler's query does not prevent the reset that follows |
| LeaseReset.ActedIffLogged | pkg/queue/dao/messgae.go:229-306 | whoever holds a message at the end of a run acted in it at or after a given time exactly if the log has such a heartbeat or consume with no ending after; who did not act at all holds it as at the beginning |
| LeaseReset.ResetExactly | pkg/queue/controller/message.go:248-255 | in every run, a queried message is reset exactly if it is processing at the write; its holder has then beat or consumed at or after the query's horizon if and only if, with no ending after, the log since the query has a heartbeat or consume of it or the log before has a consume of it at or after the horizon; otherwise lease and heartbeat are those that the query saw |
| LeaseReset.FreshConsumerIsReset | pkg/queue/dao/messgae.go:199-231 | from any state with a free message whose heartbeat is older than the horizon, it can be consumed, queried and reset with nothing in between, although its holder has just acted |
| LeaseReset.WaitingIsReachable | pkg/queue/dao/messgae.go:41-52 | such states are reached from the empty table for every horizon and every time since the creation |
| RunnerLease.LeaseFrom | pkg/queue/dao/messgae.go:229-306 | no statement but a successful consume gives a row a lease |
| RunnerLease.ReleaseDrops | pkg/queue/dao/messgae.go:255-292 | after a complete, failed or cancel request under a lease the row does not carry that lease, matched or not |
| RunnerLease.NoLeakedLease | pkg/runner/runner_blob.go:69-98 | in every run of any number of runners, a row with a content that carries a runner's lease has a goroutine of that runner between consume and release of it, through resets and re-consumption |
| RunnerLease.EmptyContentLeaks | pkg/runner/runner_manifest.go:91-100 | after a consume, some goroutine works on a message nobody worked on before if and only if its content is not empty |
| RunnerLease.IdleHoldsNothing | pkg/runner/runner_manifest.go:69-139 | a runner whose goroutines are all idle holds no message with a content |
| RunnerHeartbeat.Heartbeat | pkg/runner/runner.go:227-299 | the select loop sends exactly the requests that SentExactly describes and returns exactly when something other than a tick arrives |
| RunnerHeartbeat.SentExactly | pkg/runner/runner.go:233-297 | each tick whose progress differs from the one remembered sends a beat with its own progress and size, in order, and no other tick does; a result without error then sends a beat with its own progress and size and a completion, a failure its message, a cancelled or ended context a cancellation, and nothing follows |
| RunnerHeartbeat.ReleasesOnce | pkg/runner/runner.go:257-297 | the last request, and only it, is a release; it is a completion exactly if the work ended without error and a failure exactly if it failed |
| RunnerHeartbeat.KeepsAlive | pkg/runner/runner.go:235-243 | of two ticks in a row at least one sends a heartbeat, even if progress stands still |
| ResumeBlob.SkipWriter.Write | pkg/runner/runner_blob.go:357-371 | passes on what lies beyond the bytes still to skip, reports the whole chunk as written, and counts up to the offset; it succeeds if and only if no write to its file failed |
| ResumeBlob.SkipsExactly | pkg/runner/runner_blob.go:351-371 | however the stream is cut, what a skipWriter passes on of each chunk adds up to all of the stream but the first offset bytes |
| ResumeBlob.WriteChunks | pkg/runner/runner_blob.go:351-371 | a fresh skipWriter handed a stream in any chunks lets its file grow by exactly the stream without its first offset bytes, unless a write failed, which is the only way it fails |
| ResumeBlob.WriteAll | pkg/runner/runner_blob.go:223-223 | one chunk written to all targets keeps each of them the source up to where it or the download is, whichever is further, and this succeeds if and only if every write does |
| ResumeBlob.Copy | pkg/runner/runner_blob.go:218-226 | the same for a whole stream in any chunks: it succeeds if and only if the stream ends without error and every write is complete, and then the counting reader has counted all that was delivered |
| ResumeBlob.Open | pkg/runner/runner_blob.go:161-180 | the offset is the length of the shortest copy, and 0 as soon as one cache had to start afresh |
| ResumeBlob.MakeTargets | pkg/runner/runner_blob.go:188-201 | every copy gets a direct or a skipping writer in step with the stream; the branch that panics is never taken |
| ResumeBlob.Download | pkg/runner/runner_blob.go:187-231 | succeeds if and only if the stream is unbroken, every write complete and exactly the missing bytes were delivered; every copy is then the source up to the expected size, or as it was if longer |
| ResumeBlob.Commit | pkg/runner/runner_blob.go:233-257 | success exactly if every copy commits, can be looked at and has the expected size; deleted are exactly the copies found with another size that can be deleted |
| ResumeBlob.Resume | pkg/runner/runner_blob.go:160-258 | succeeds if and only if no cache is unavailable, the shortest copy is not longer than the size, the download, if one was needed, was unbroken with complete writes and delivered exactly the rest, and every copy commits, is found and has that size; then every copy equals the source up to the size and progress is the size; with a fresh copy the download starts at 0; only copies of another size than expected are ever deleted |
| Seeker.ReadSeekCloser.Read | internal/seeker/seeker.go:24-51 | returns the bytes of one fixed array at the offset and advances by their number; EOF exactly at the end, failure exactly if no reader can be had or the reader fails, so an early end of a reader is not passed on but has the reader closed and dropped |
| Seeker.ReadSeekCloser.Seek | internal/seeker/seeker.go:53-80 | refused exactly for a position before the start or an unknown origin, and then nothing changes; otherwise the offset is the one asked for, from the start, the offset or the end, or the size if that is less; the reader is closed and dropped exactly if the offset changes |
| Seeker.ReadSeekCloser.Close | internal/seeker/seeker.go:82-89 | the open reader is closed; the offset stays and reading can go on |
| Seeker.Client | internal/seeker/seeker.go:24-89 | for every sequence of calls, each read returns the array's bytes at the place where the calls before it left off |
| Seeker.ReadsAreContiguous | internal/seeker/seeker.go:37-50 | reads without a seek in between, however short, put together one slice of the array |
| Progress.FollowLayer | pkg/runner/runner_manifest.go:339-348 | after each update the watcher of a layer has added exactly that update's progress, and in the end exactly the layer's size, whatever the update stream says |
| Progress.FollowChild | pkg/runner/runner_manifest.go:287-300 | after each update the watcher of a child has added exactly that update's progress and size, and in the end as much progress as size, namely the last size it was told |
| Progress.BalancedRuns | pkg/runner/runner_manifest.go:260-381 | at every point of every interleaving, progress is the sum of what running watchers last saw and finished ones' sizes, and size the sum of the sizes seen |
| Progress.Conservation | pkg/runner/runner_manifest.go:260-381 | once all watchers have joined, the progress added equals the size added |
| Progress.RoomLeft | pkg/runner/runner_manifest.go:260-381 | at every point of every interleaving, size minus progress is what the running watchers have counted and not yet seen done, plus an announced layer |
| Progress.OvertakesStep | pkg/runner/runner_manifest.go:260-381 | an addition makes progress overtake size if and only if it advances further than that room |
| Progress.WithinIffModest | pkg/runner/runner_manifest.go:260-381 | for given layers or children and given update streams, progress stays within size in every interleaving if and only if no layer has a negative size and no update claims more than the size counted before it and after it |
| Progress.ModestStaysWithin | pkg/runner/runner_manifest.go:260-381 | such streams keep progress within size at every point of every interleaving |
| Progress.ImmodestOvertakes | pkg/runner/runner_manifest.go:260-381 | any others have an interleaving in which it overtakes |
| Progress.FirstUpdate | pkg/runner/runner_manifest.go:287-348 | with a single update, a layer is overtaken exactly by a claim beyond its size, a child by any positive claim or one beyond the size reported with it |
| Progress.NeverOvertakes | pkg/runner/runner_manifest.go:316-381 | progress stays within size as long as no running watcher has seen more than its size |
| Progress.ChildOvertakes | pkg/runner/runner_manifest.go:291-297 | for a child, every positive claim is ahead of the size until the size of the same update is added |
| Progress.LayerOvertakes | pkg/runner/runner_manifest.go:339-348 | for a layer, every claim beyond its size is ahead of it, for instance of a message that existed before with another size |
| Strings.JoinSplit | pkg/gateway/utils.go:62-67 | joining the parts of a string gives it back, and no part contains the separator |
| Strings.SplitJoin | pkg/gateway/utils.go:62-67 | splitting undoes joining on parts without the separator, so the parts of a string are determined by it |
| DomainName.IsDomainName | internal/format/domain.go:6-58 | the scanner accepts exactly the names of the grammar of sections 2.3.1 and 2.3.4 of RFC 1035 with underscores, leading digits and a final dot admitted and at least one character that is no digit |
| DomainName.AcceptsGrammar | internal/format/domain.go:15-18 | the length limits and label rules read off the parts of a name describe the same language as joining labels |
| DomainName.RefusedForGood | internal/format/domain.go:23-52 | each of the scanner's rejections is right whatever characters follow |
| DomainName.HostCharacters | internal/format/domain.go:25-50 | an accepted name consists of letters, digits, hyphens, underscores and dots |
| DomainName.UndottedName | internal/format/domain.go:15-57 | a name without dots is accepted exactly if it is 1 to 63 letters, digits, underscores and hyphens, not all digits, with no hyphen at either end |
| DomainName.JoinedNames | internal/format/domain.go:15-47 | two accepted names joined by a dot are accepted exactly if there are at most 253 characters, a final dot not counted |
| DomainName.FinalDot | internal/format/domain.go:15-57 | one final dot may follow exactly the names that do not end in one, and no other string |
| Routes.ParseIsSegments | pkg/gateway/utils.go:48-105 | the parser depends only on the segments of the path, by four shapes |
| Routes.BlobRoute | pkg/gateway/utils.go:57-105 | a blob path of any image, with or without host, is recognised exactly if the name has 71 characters, 64 behind sha256:, and gives host, image and name |
| Routes.ManifestRoute | pkg/gateway/utils.go:57-105 | a manifest path gives host, image and reference, and the digest flag exactly if the reference begins with sha256: |
| Routes.OtherRoutes | pkg/gateway/utils.go:57-105 | tags/list is recognised as such, and any other path with a name has no kind |
| Routes.OnlyRequests | pkg/gateway/utils.go:48-105 | whatever is recognised is such a path for the host and image returned, or has one slash too many behind an image of one segment |
| Routes.PrefixOptional | pkg/gateway/utils.go:48-49 | a path without /v2/ is parsed as the one with it |
| Routes.RouteRoundTrip | pkg/gateway/utils.go:35-105 | printing host and route of a parsed path gives the path back if and only if it is not of the form name//kind/reference |
| Routes.ParsedWellFormed | pkg/gateway/utils.go:57-104 | every recognised parse result has an image, at most one kind, a digest flag that agrees with its reference, and a host only if it is a dotted domain name |
| Routes.PrintRoundTrip | pkg/gateway/utils.go:35-105 | parsing undoes printing exactly on the records that the parser can produce |
| Routes.Agreement | pkg/auth/auth.go:200-211 | the token service splits a gateway path into the same host and image, or refuses it; without a host it uses its source, and then disagrees exactly on name//kind/reference |
| Routes.CutFirst | pkg/auth/auth.go:201-201 | cutting a joined image at its first slash separates its first segment |
| QueueContent.ContentRoundTrip | pkg/runner/runner_manifest.go:100-130 | the runner recovers host, image and reference from what the gateway printed if and only if they are recoverable, a condition on where '/', ':' and '@' occur |
| QueueContent.ContentInjective | pkg/manifests/manifest.go:139-145 | equal contents name equal manifests, so merging duplicates never merges different recoverable manifests |
| QueueContent.ContentCollision | pkg/manifests/manifest.go:139-145 | outside that set two different manifests can have one content, h.io/i@sha256:t for instance |
| QueueContent.RouteReachesRunner | pkg/manifests/manifest.go:139-145 | a manifest route with a host reaches the runner unchanged if and only if its image, and its tag if it has one, avoid the two marks |
| ManifestStore.Cache.PutWithHash | pkg/cache/cache.go:126-174 | for any chunking, the content is stored if and only if the reader ended well, the size fits and the hash fits; otherwise nothing changes |
| ManifestStore.Cache.PutBlob | pkg/cache/cache_blob.go:21-24 | panics exactly on names shorter than two characters, and otherwise stores exactly what the reader delivers in full and what hashes to the name, so the store stays consistent |
| ManifestStore.Cache.PutBlobContent | pkg/cache/cache_blob.go:26-29 | the same for a content in memory |
| ManifestStore.Cache.PutManifestContent | pkg/cache/cache_manifest.go:40-74 | rejected exactly if the content is no manifest or a digest reference is not its own, and then nothing changes; accepted, exactly the blob, the link by digest and for a tag its link are written, and it reads back by reference and by digest with the same bytes, digest and media type |
| ManifestStore.Cache.GetManifestContent | pkg/cache/cache_manifest.go:76-109 | returns the content whose hash is the digest returned; a stored content that is no manifest is deleted together with the link followed, and nothing else ever is |
| ManifestStore.Cache.RelinkManifest | pkg/cache/cache_manifest.go:17-38 | points tag and digest at the blob if and only if that is stored, manifest or not, and panics, with nothing changed, exactly if the digest has fewer than two characters behind its prefix |
| ManifestStore.LinkedDigest | pkg/cache/cache_blob.go:66-69 | every link followed holds a digest long enough for the path of its blob, and the digest of what is stored there |
| ManifestStore.LookupDigest | pkg/cache/cache_manifest.go:76-109 | in a consistent store a digest reads as the manifest that hashes to it exactly if its revision link and its blob are stored |
| ManifestStore.LookupTag | pkg/cache/cache_manifest.go:76-109 | in a consistent store a tag reads as a manifest exactly if its link holds that manifest's digest and the blob is stored |
| ManifestStore.DigestNames | pkg/cache/cache_blob.go:55-69 | with or without sha256: a hash names the same blob, and only the form with it is looked up as a revision |
| ManifestStore.OpenBlobWriter | pkg/cache/cache.go:108-124 | a fresh hash-checked writer for every name but those on which it panics |
| ManifestStore.BlobWriter.Write | pkg/cache/blob_writer.go:26-29 | data and hashed bytes stay equal exactly as long as writes are complete |
| ManifestStore.BlobWriter.Commit | pkg/cache/blob_writer.go:18-24 | stores if and only if the hashed bytes have the blob's hash; after complete writes the store stays consistent |
| ManifestRaces.InvApply | pkg/cache/cache_manifest.go:17-130 | every access of every call keeps links and blobs consistent and what each call knows true |
| ManifestRaces.StepKeeps | pkg/cache/cache_manifest.go:95-106 | no access of any call removes a manifest or a link to its digest |
| ManifestRaces.GetIsAuthentic | pkg/cache/cache_manifest.go:76-109 | in every interleaving a read that succeeds returns bytes that hash to the returned digest, which is the one asked for exactly if that was not prefixed twice |
| ManifestRaces.PutStaysReadable | pkg/cache/cache_manifest.go:40-74 | at every point of every interleaving at which a put has finished, it reads back by digest |
| ManifestRaces.OthersLeave | pkg/cache/cache_manifest.go:17-109 | a finished call stays finished, and no call moves another one on |
| ManifestRaces.ReadAfterPut | pkg/cache/cache_manifest.go:76-109 | a read by digest begun after a finished put succeeds, whatever happens between its two accesses |
| ManifestRaces.TagStays | pkg/cache/cache_manifest.go:95-106 | a readable tag stays readable through every run that does not link it if and only if no read of it is under way with a digest of something that is no manifest |
| ManifestRaces.PutReadsBackByTag | pkg/cache/cache_manifest.go:40-74 | a put by tag reads back by the tag when it finishes, if nobody else linked the tag since and no such read was under way |
| ManifestRaces.PutsOnlyNeverStale | pkg/cache/cache_manifest.go:40-109 | without relinks there is never such a read |
| ManifestRaces.RelinkCanLoseAPut | pkg/cache/cache_manifest.go:17-109 | with relinks a put can finish and its tag be deleted by a read that began before it |
| ManifestRaces.PutAlone | pkg/cache/cache_manifest.go:40-74 | a put that is not interrupted does what the sequential put does |
| ManifestRaces.RelinkAlone | pkg/cache/cache_manifest.go:17-38 | so does a relink |
| ManifestRaces.GetAlone | pkg/cache/cache_manifest.go:76-109 | so does a read, clean-up included |

## Left out

- HTTP servers and clients, TLS, flags, logging, JSON, the S3 driver and the database driver: inputs and outputs, or abstract functions.
- SHA-256 is an abstract hash without collisions, and the media type an uninterpreted function of a content.
- Integer widths: counters, sizes, weights and priorities are unbounded.
- Strings are sequences of characters; a byte of the original is one character.
- The weight that the queue's `get` returns is read outside the lock: nothing is claimed about it for interleaved runs.
- A version of the queue that stores the weight of a raise: the program does not have one.
- `GetOrWait`, `GetOrWaitWithDone` and the signal of the plain queue: only the weighted queue is used by several workers.
- WeightQueueService.ServedWithinGets: counts calls of Get one after another, because interleaved Gets share the steps; for interleaved runs the bound is in steps (`WeightQueueWaiting.LeavesWithin`).
- WeightQueueService.TakenWithinGets: bounds the Gets until the item leaves its queue; until a Get returns it, see ServedWithinGets.
- `UpdateByID` on messages: no handler calls it, and it would break the lease invariant.
- The one-minute, one-hour and eight-hour ages: the horizon of the stale query is any time in the past, and which of the rows older than it the query returns is left open; so is which finished rows are selected.
- The number of rows an update reports: one or zero as the driver counts changed rows; that two timestamps may be equal is covered by leaving the clock open.
- The service layer, which turns zero rows into an error: folded into the handlers.
- Watch streams and the runners' mirror of pending messages: lossy, and used only as a source of arbitrary views.
- Storage and database failures in the middle of a call: a call may stop between any two accesses, and what it then replies is not modelled.
- RunnerLease.NoLeakedLease: assumes that replies are not lost; a consume whose reply is lost leaves a lease until the scheduler resets it.
- The branch of the blob download that writes to several caches through pipes: it only logs errors of the puts, so its success says nothing about each cache.
- The append writer of blobs has no hash check and is kept out of the store's invariant.
- `StatOrRelinkManifest`: it relinks after checking only the old blob and promises nothing about the new one.
- Path strings of the store: structured keys stand for them.
- Listing and walking tags, redirects, signed links: easy members.
- Users, registries, tokens, rate limits, caches in memory: easy members, or thin layers over libraries that are not part of this model.
