# The asynchronous operation lifecycle of grpc-client-nginx-module

A Dafny model of how a worker of this nginx module runs a gRPC operation: a Lua coroutine starts
it, the C side registers it under the address of its context, arms a timer and a cleanup hook and
yields; a goroutine does the remote work and reports into a queue; one background waiter collects
the queue in batches of packed 24-byte records; the event loop moves each batch to a posted queue
and either resumes the right coroutine or throws the result away. A result, a timeout and an abort
race to finish every operation, ids are reusable addresses, and contexts, connections and buffers
are destroyed late.

## How the project is organised

- `Machine` is the whole worker as one transition system: 19 kinds of steps, one function for each
  C, Go or Lua function involved, and history (what was reported, handled and completed, which job
  belongs to which operation, every call made on every stream). Lua connection and stream handles
  are kept apart from what they point at; `Enabled` says what the environment guarantees and speaks
  of handles only. A use after free, a double free, a double post, a null buffer or a missed
  reference is recorded as a fault. A goroutine makes its calls on an open stream one step at a
  time, so that goroutines interleave on a stream; an opening is one step, because nobody else can
  reach its stream before it is stored.
- `Invariants` holds what every reachable state satisfies; `Placement`, `Registration`, `Flow`,
  `StreamObjects`, `KickOffs`, `Destruction`, `Completion`, `Draining` and `Engine` prove that each
  step keeps it, and `Reachability` carries it over every run.
- `Provenance`, `Effects`, `Chronicle`, `Signals` and `Reuse` tie the state to the steps of the run:
  each operation, result, completion, handle, reference, context, coroutine, signal and reused context
  is what the run's steps say, stated over the step list without naming the functions of `Machine`.
- `Undisturbed` (runs without timeouts and aborts), `Orderly*` (runs in which no id is reissued
  early), `Wakeups`, `Attribution`, `Serialisation`, `CallOrder`, `HalfClose`, `Openings` and
  `Teardown` prove the results that need more than the invariant. `Theorems` states the main
  results for runs from the initial state. `Examples` and `Interleaving` are concrete runs on which
  unconditional claims fail.
- `Worker` (with `OngoingTasks` and `PostedEvents`), `TaskQueue` (with `Records`) and `ConnStream`
  are the imperative side: classes whose methods and loops follow the C and Go code, each proved to
  do what the corresponding function of `Machine` or `FinishedQueue` says. `Worker` keeps its
  structs in one record of maps indexed by address, because addresses double as ids and because
  a freed struct must be seen to be gone.

## What is assumed of the environment

nginx sets `active` when the thread task is posted and clears it before the completion handler
runs, and clears `timer_set` before a timer handler runs. ngx_lua runs a cleanup hook at most once.
A coroutine that kicked off an operation yields at once. A Lua handle is not finalized while a live
frame holds it. malloc returns fresh, aligned, non-null addresses. Everything else is
nondeterministic: goroutine scheduling down to single calls, panics, stale timers, when completion
and posted events are handled relative to anything else, what resumed Lua code does.

## What the proofs found

- **Attribution is exact.** An operation can receive another job's result in some continuation if
  and only if an earlier job under its id was unreported or in transit at kick-off
  (`AttributionExact`). A timed-out unary call already gets there: its context goes back to the free
  queue at once (`ReissuedCallIsMisled`).
- **The repost rule loses wake-ups.** The test compares the ongoing count with the raw batch size,
  so results of operations that timed out or were aborted count too. An awaited operation is left
  without a waiter if and only if such stale records in the batch are at least as many as the
  awaited operations the batch does not cover (`RepostRule`, `WakeUpsExact`); one timeout is enough
  (`TimeoutLosesWakeUp`). Without timeouts and aborts it never happens (`NoLostWakeUp`).
- **Excluding timeouts is not enough to serialise a stream.** A coroutine aborted in `recv`,
  a finalized stream and a reused context bring two jobs onto one stream without any timeout
  (`OverlapWithoutTimeouts`). A call on a stream is alone on it in every continuation without
  timeouts if and only if its id was clean at kick-off (`SerialExact`).
- **Call order is exact.** Calls reach the wire in the order Lua started the jobs if and only if each
  job is started when the earlier ones have made their calls (`OrderExact`). A client stream reads
  after a half-close in every run (`ClientReadsLast`), but not right after one: a `recv_close` retried
  after a timeout interleaves with the first (`ReadsApart`).
- **The half-close discipline is exact.** A server stream sends its request and one half-close, and
  nothing else, as long as every call on it is one its own type offers, and a call that is not can
  break it (`ServerHalfClose`, `ServerExact`). Reissued ids do get there: a bidirectional handle can
  come to resolve to a server stream (`ServerSentTwice`). No message follows a client stream's
  half-close if and only if every send had made its call when `recv_close` was called (`ClientExact`).
- **References can be missed.** A success of an earlier job under the same id can hand out the handle
  of a stream that is not stored yet, and the next method panics in `mustFind` (`ReferenceMissed`).
  The handle an opening hands out resolves to its own stream in every continuation if and only if
  no earlier job under the id can still be the first to answer with a success (`OpeningExact`).
- **Nothing is altered on its way.** In every run the operations are the admitted requests in order, the
  reported results are what the goroutines ended with, once each, and the completions are the
  deliveries, timeouts and aborts in order with their own payloads (`OperationsTraced`, `ResultsTraced`,
  `CompletionsTraced`). Handles, references, coroutines and the waiter's condition are functions of what
  happened to them (`ConnectionsTraced`, `StreamsTraced`, `CoroutinesTraced`, `SignalsTraced`), and
  whether a method starts an operation is decided exactly (`AdmissionTraced`).
- **Free contexts are a queue.** The `k`-th context taken from a connection's free queue is the `k`-th
  oldest on it or released since (`FirstReleasedFirst`), so a timed-out call's context is reused
  only after everything that was free before it.
- **Memory is safe in every run**, timeouts and aborts included (`MemorySafety`, `LiveHandles`).

## Model

| member | source | states |
|---|---|---|
| Theorems.FifoConservation | grpc-engine/task/task.go:77-134 | after every run the reported results are exactly the handled ones, then the posted queue, the batch and the Go queue, in order, and no job reports twice or while running |
| Theorems.ExactlyOneCompletion | src/ngx_grpc_client.c:527-704 | every operation is either awaited, with tree entry, timer and hook in place and no completion, or completed by exactly one of result, timeout and abort with nobody waiting for it |
| Theorems.RegistryAgreement | src/ngx_grpc_client.c:256-328 | counter, tree and non-null node pointers agree; a registered context has a waiting coroutine of its own and is refused as busy |
| Theorems.PlacementPartition | src/ngx_grpc_client.c:1077-1116 | each live context is in exactly one of opening, free, in flight and abandoned; nothing on a free queue is registered; queues hold no foreign or repeated entry |
| Theorems.MemorySafety | src/ngx_grpc_client.c:881-938 | no run uses or frees a connection, context or buffer after it was freed, posts the thread task twice or reads a null buffer |
| Theorems.LiveHandles | lib/resty/grpc.lua:268-296 | the connection of a live Lua handle is allocated, and linked to the engine while the handle is open; the context of a live stream handle is on the opening queue of a live connection |
| Theorems.BufferOwnership | src/ngx_grpc_client.c:379-420 | the live buffers are exactly those of the unhandled records, one owner each, holding what was reported; a registered operation never has the timeout state |
| Theorems.WaiterNeverStrands | grpc-engine/task/task.go:72-134 | queued tasks imply done; a parked waiter has nothing to collect and its own timer pending; at most one waiter, active exactly while one is in progress |
| Theorems.ConnectionReferences | grpc-engine/main.go:110-172 | the engine pointer of a connection is set exactly when its key is in EngineCtxRef |
| Theorems.DeferredDestruction | src/ngx_grpc_client.c:898-938 | a connection outlives its handle only for stream handles still to be finalized or openings that failed; a context outlives its connection only if an abort abandoned it |
| Theorems.OperationsTraced | grpc-engine/main.go:187-301 | in every run operation j has the coroutine, method, message and, for streams, the type of the j-th admitted request, and there are no others |
| Theorems.ResultsTraced | grpc-engine/main.go:205-301 | every reported result is the payload and error its goroutine ended with; every end is reported or about to be; no goroutine ends twice |
| Theorems.CompletionsTraced | src/ngx_grpc_client.c:584-704 | the completions are, in order, the delivered records with their payload (an error wins, nil stays nil), the timeouts and the aborts of each coroutine's own operation; a completion closes the stream exactly if it is a decoded success of recv_close |
| Theorems.ConnectionsTraced | grpc-engine/main.go:119-172 | a connection handle is open and its key registered exactly from its connect to the first close or finalizer |
| Theorems.StreamsTraced | lib/resty/grpc.lua:505-610 | a stream handle is handed out by a successful opening, emptied exactly by a close or a decoded recv_close, and gone with its finalizer; a stream is stored by the goroutine that opened it and forgotten with the handle |
| Theorems.CoroutinesTraced | src/ngx_grpc_client.c:527-704 | a coroutine waits exactly from the start of an operation to its answer or timeout; aborted, it never runs again |
| Theorems.SignalsTraced | grpc-engine/task/task.go:72-91 | the waiter's condition holds exactly if a report or a timer's callback came since the last look at it; only the timer of a wait in progress is armed |
| Theorems.AdmissionTraced | src/ngx_grpc_client.c:1232-1320 | a method the handle's type has starts an operation if and only if the request is the one the stream was opened for, the last call on it was answered or timed out, and the engine has the stream; otherwise nothing changes, except the panic on a missing stream |
| Theorems.ClientReadsLast | grpc-engine/conn/grpc.go:182-196 | in every run every read of a client stream comes after a half-close by the same job |
| Theorems.PacedCalls | src/ngx_grpc_client.c:1232-1320 | if every call on a stream finds the earlier ones' calls made, the log is, in Lua call order, a prefix of each job's script, whole where the job succeeded; written out for server and bidirectional streams: the request, a server stream's half-close, then the message, half-close or read of each method; a client stream reads right after half-closing |
| Theorems.ServerHalfClose | grpc-engine/conn/grpc.go:156-180 | in every run a server stream on which each call was one its own type offers sent exactly its request and one half-close |
| Theorems.ClientHalfClose | grpc-engine/conn/grpc.go:182-204 | a paced client stream ended by its first recv_close, successful, carried the request, each send's own message in Lua call order (none only where the send failed), one half-close and one read |
| Theorems.ResultAttribution | src/ngx_grpc_client.c:584-640 | if no id is reissued early, every coroutine resumed with a result got exactly what the call of its own goroutine returned: the error, else the payload, nil if there was none |
| Theorems.ReferencesNeverMiss | grpc-engine/main.go:214-301 | if no id is reissued early, a stream handle is open exactly when it is in StreamRef, refers to a stream of its own type and id, and mustFind never panics |
| Theorems.StreamSerialisation | src/ngx_grpc_client.c:1232-1355 | if no id is reissued early, every stream is paced and fitting, at most one job is unfinished on it, and its calls are grouped by job in Lua call order |
| Theorems.RecvCloseFinal | lib/resty/grpc.lua:601-610 | if no id is reissued early, a recv_close answered with a success that decodes is the last job of its stream, succeeded in the engine, and no handle leads to the stream any more |
| Theorems.CalmNeverReissues | src/ngx_grpc_client.c:957-1051 | without timeouts and aborts no id is reissued early |
| Theorems.OneToOne | grpc-engine/main.go:103-108 | without timeouts and aborts the registered ids are one for one the ids of running jobs, panicking ones included, and in-transit records |
| Theorems.NoLostWakeUp | src/ngx_grpc_client.c:331-376 | without timeouts and aborts the waiter is active while an awaited operation's own result has not reached the posted queue |
| Theorems.WakeUpsExact | src/ngx_grpc_client.c:360-376 | over any run, no wake-up is lost if and only if no completion event is handled under the stranding condition |
| Hypotheses.ReissueFlags | src/ngx_grpc_client.c:1077-1098 | the history flag of every kick-off records whether its id was clean, so a run satisfies the id hypothesis exactly when all its flags are set |
| Hypotheses.Orderliness | src/ngx_grpc_client.c:957-1051 | every run that reissues no id early satisfies the order invariant as well |
| Provenance.StartStep | src/ngx_grpc_client.c:1054-1355 | a step starts at most the operation it asks for, with its coroutine, method, message and type |
| Provenance.EndStep | grpc-engine/main.go:205-301 | only the end of a goroutine brings a result, unaltered, and none is lost or brought twice by any other step |
| Provenance.EndsOnce | grpc-engine/main.go:205-301 | no goroutine ends twice in a run |
| Provenance.CompleteStep | src/ngx_grpc_client.c:584-704 | a step completes at most the operation it answers, times out or aborts, with the matching cause |
| Chronicle.LinkStep | src/ngx_grpc_client.c:898-938 | connect, close and finalizer, and nothing else, change a connection handle and its engine reference |
| Chronicle.SlotStep | grpc-engine/main.go:230-260 | only an opening's end, an answer, a close and a finalizer change a stream's handle and reference, each as stated |
| Chronicle.DrainSlot | lib/resty/grpc.lua:601-610 | an answer hands out a handle exactly for a successful opening and closes the stream exactly for a decoded success of recv_close on a client stream |
| Chronicle.OwnerStep | src/ngx_grpc_client.c:1085-1088 | a context's request, type, connection and waiting coroutine change only when it is taken, used, answered, timed out or finalized; an abort leaves it busy |
| Signals.CoStep | src/ngx_grpc_client.c:527-704 | each step moves a coroutine between running, waiting and dead as stated |
| Signals.SignalStep | grpc-engine/task/task.go:72-134 | reports and timer callbacks set the condition, collecting clears it and stops the timer |
| Reuse.OldestTaken | src/ngx_grpc_client.c:1077-1083 | call and new_stream start under the context at the tail of the free queue, leaving the others in order, or under a new one if the queue is empty |
| Reuse.QueueRun | src/ngx_grpc_client.c:413-419 | over any run, the contexts released in front of those that were free are those free now in front of those taken |
| Reuse.FirstReleasedFirst | src/ngx_grpc_client.c:1077-1101 | the k-th context a run reuses is the k-th oldest of those on the free queue and released since |
| Attribution.AttributionExact | src/ngx_grpc_client.c:602-616 | an operation gets only its own job's result in every continuation if and only if no earlier job under its id was outstanding at kick-off |
| Attribution.UncleanMisleads | src/ngx_grpc_client.c:602-616 | from any kick-off under an id with an outstanding job there is a run that resumes it with that job's result |
| Attribution.CleanIsSafe | src/ngx_grpc_client.c:602-616 | an operation kicked off under a clean id never gets a foreign result |
| Attribution.OpsStep | src/ngx_grpc_client.c:957-1051 | no step forgets or rewrites an operation |
| Wakeups.RepostRule | src/ngx_grpc_client.c:356-376 | handling the completion event strands an operation if and only if stale records in the batch are at least the awaited operations it does not cover |
| Wakeups.StrandStep | src/ngx_grpc_client.c:331-376 | no other step strands an operation |
| Serialisation.SerialExact | src/ngx_grpc_client.c:1232-1284 | a stream call is alone on its stream in every continuation without timeouts if and only if its id was clean |
| Serialisation.CleanIsAlone | src/ngx_grpc_client.c:1232-1252 | the sufficient half: awaited or aborted, the context stays busy and the stream unreachable while the job runs |
| Serialisation.UncleanOverlaps | src/ngx_grpc_client.c:584-640 | the necessary half: a run in which the foreign result frees the context and a second job joins the first |
| CallOrder.OrderExact | grpc-engine/main.go:263-301 | while nothing more is started on a stream, its calls stay in Lua call order in every continuation if and only if no earlier job had calls left at the last kick-off |
| CallOrder.OrderedIsGrouped | grpc-engine/main.go:263-301 | a log in call order is the concatenation of its jobs' calls |
| CallOrder.LogStep | grpc-engine/conn/grpc.go:182-212 | a step that starts nothing on a stream at most adds the next call of a job at work on it |
| CallOrder.PacedRuns | src/ngx_grpc_client.c:1255-1355 | a stream whose calls each found the earlier ones made stays in call order over any run |
| HalfClose.ServerExact | grpc-engine/conn/grpc.go:161-172 | a call admitted on a server stream keeps its outbound log at request and half-close in every continuation of fitting calls if and only if a server stream offers it |
| HalfClose.ServerSends | grpc-engine/conn/grpc.go:161-172 | a sound server log with only offered jobs is outbound exactly the request and one half-close |
| HalfClose.SameTypeFits | lib/resty/grpc.lua:613-623 | a handle of the stream's own type makes only calls the stream offers |
| HalfClose.ClientReads | grpc-engine/conn/grpc.go:182-196 | every read of a sound client log comes after a half-close by the same job |
| HalfClose.ClientReadsNext | grpc-engine/conn/grpc.go:182-196 | in call order it comes right after |
| HalfClose.ClientExact | grpc-engine/conn/grpc.go:182-204 | when recv_close is called on a client stream only sent on so far, no message follows the half-close in any continuation without further calls if and only if no send had calls left |
| HalfClose.ClientLog | grpc-engine/conn/grpc.go:182-204 | the whole log: the request, each send's own message in order, one half-close, one read |
| HalfClose.DialogueLog | grpc-engine/conn/grpc.go:156-212 | the whole log of a server or bidirectional stream in call order: the request, a server stream's half-close, each method's own message, half-close or read, nothing for one that failed |
| Openings.OpeningExact | grpc-engine/main.go:230-243 | the handle an opening hands out resolves to its own stream in every continuation if and only if no earlier job under its id can be the first to answer with a success |
| Openings.TameStep | src/ngx_grpc_client.c:602-638 | every step keeps an unthreatened opening safe: the next answer is its own or a failure, and its own success stays stored |
| Openings.Unresolve | src/ngx_grpc_client.c:602-638 | a threatened opening can be handed a handle whose own stream does not exist |
| Examples.ReissuedCallIsMisled | src/ngx_grpc_client.c:413-419 | a concrete run: after a timed-out call the next call reuses its id and gets its result |
| Examples.TimeoutLosesWakeUp | src/ngx_grpc_client.c:360-362 | a concrete nine-step run that strands an awaited call |
| Interleaving.OverlapWithoutTimeouts | src/ngx_grpc_client.c:671-686 | a concrete run without timeouts that brings two jobs onto one stream |
| Interleaving.ReferenceMissed | grpc-engine/main.go:110-116 | a concrete run that ends in the panic of mustFind |
| Interleaving.ServerSentTwice | grpc-engine/main.go:240-240 | a concrete run after which a server stream has sent its request, a half-close and a second message |
| Interleaving.ReadsApart | grpc-engine/conn/grpc.go:182-196 | a concrete run in which a retried recv_close interleaves with the first: request, half-close, half-close, read, read |
| Teardown.OrderIndependent | src/ngx_grpc_client.c:881-938 | any order of the connection finalizer and of all its stream finalizers, with closes in between, ends in one and the same state: everything of the connection freed, nothing else changed |
| Teardown.StepLeft | src/ngx_grpc_client.c:1191-1229 | each finalizer or close leaves exactly the unfinalized streams on opening, and the last one frees the connection |
| Reachability.RunInv | src/ngx_grpc_client.c:331-1355 | the invariant holds after every run |
| Reachability.StepInv | src/ngx_grpc_client.c:331-1355 | every step keeps the invariant |
| Reachability.InitInv | src/ngx_grpc_client.c:707-751 | the worker starts in the invariant |
| KickOffs.NewStreamInv | src/ngx_grpc_client.c:1054-1122 | new_stream, with a reused or new context, keeps the invariant |
| KickOffs.NewStreamRefusedInv | src/ngx_grpc_client.c:1098-1102 | so does a refused kick-off, which shelves the context |
| KickOffs.StreamOpInv | src/ngx_grpc_client.c:1255-1355 | so do recv, send and close_send, refused or admitted |
| Destruction.CloseConnInv | src/ngx_grpc_client.c:918-926 | so does closing a connection |
| Destruction.FinalizeConnInv | src/ngx_grpc_client.c:928-938 | so does finalizing it, freed now or later |
| Destruction.CloseStreamInv | lib/resty/grpc.lua:505-514 | so does closing a stream |
| Destruction.FinalizeStreamInv | src/ngx_grpc_client.c:1210-1229 | so does finalizing a stream, including the delayed free of its connection |
| Destruction.FreeConnShape | src/ngx_grpc_client.c:881-895 | what free_conn releases is live, distinct and idle, so nothing is freed twice |
| Completion.ResumedInv | src/ngx_grpc_client.c:527-581 | ending an operation by a resume keeps the invariant and logs one completion |
| Completion.OpTimeoutInv | src/ngx_grpc_client.c:643-668 | so does a timeout |
| Completion.AbortInv | src/ngx_grpc_client.c:671-704 | so does an abort |
| Completion.Kept | src/ngx_grpc_client.c:957-1051 | a registered context is not timed out and its coroutine waits with timer and hook set |
| Draining.DrainOneInv | src/ngx_grpc_client.c:593-639 | handling one posted record, delivered or discarded, keeps the invariant |
| Draining.DeliveryAttributed | src/ngx_grpc_client.c:615-638 | a delivered record carries its id's result, the operation's own if the id was clean |
| Engine.MakeCallInv | grpc-engine/conn/grpc.go:182-212 | one call of a goroutine on its stream keeps the invariant, its calls staying a prefix of its script |
| Engine.RunJobInv | grpc-engine/main.go:205-243 | the end of a goroutine's work, failed or not, keeps the invariant; a success has made all its calls, and a successful opening is stored before its report |
| Engine.ReportInv | grpc-engine/task/task.go:123-134 | reporting keeps the invariant |
| Engine.WaitCheckInv | grpc-engine/task/task.go:86-118 | collecting the queue keeps the invariant |
| Engine.ThreadEventInv | src/ngx_grpc_client.c:331-376 | moving a batch to the posted queue keeps the invariant |
| Flow.LiveDone | grpc-engine/task/task.go:123-134 | appending and signalling in one critical section keeps the queue live: work is announced, a parked waiter has its timer |
| Flow.LiveTimer | grpc-engine/task/task.go:78-82 | so do expiring and late timers |
| Undisturbed.Correspondence | src/ngx_grpc_client.c:289-328 | when every outstanding job is awaited, registered ids and outstanding jobs correspond one to one and in number |
| Undisturbed.ThreadEventCalm | src/ngx_grpc_client.c:360-362 | without timeouts and aborts the early return is taken only when nothing is left to wait for |
| Undisturbed.DrainOneCalm | src/ngx_grpc_client.c:602-610 | without timeouts and aborts no record is ever discarded |
| Undisturbed.IdleIsClean | src/ngx_grpc_client.c:1077-1083 | when every outstanding job is awaited, an unregistered id has nothing outstanding |
| OrderlyCompletion.OrderStep | grpc-engine/main.go:230-301 | every step that kicks off under a clean id or not at all keeps references and handles in step and a successful recv_close final |
| Buffers.PackOwned | grpc-engine/task/task.go:95-115 | packing a batch behind records in flight keeps one owner per live buffer |
| Buffers.FreeOwned | src/ngx_grpc_client.c:601-610 | releasing the head record's buffer keeps one owner per live buffer |
| Buffers.FaithfulUnpack | src/ngx_grpc_client.c:391-411 | reading a faithful record gives back what its job reported, and only a bodiless one has a null base |
| Records.OrAligned | grpc-engine/task/task.go:102-102 | setting the tag of an aligned pointer adds it |
| Records.AndSeven | src/ngx_grpc_client.c:394-394 | masking with 7 gives the tag |
| Records.UnshiftedBase | src/ngx_grpc_client.c:395-395 | the signed shifts clear the tag of every 64-bit word, high addresses included |
| Records.WordRoundTrip | grpc-engine/task/task.go:31-45 | a 64-bit word survives being written and read in either byte order |
| Records.RecordsRoundTrip | grpc-engine/task/task.go:111-120 | the packed output read as an array of structs gives back every record, and the count is the number of records |
| Records.RecordLayout | grpc-engine/task/task.go:110-113 | byte by byte: id at offset 0, size at 8, tagged pointer at 16 of each 24-byte record, in the byte order of the host |
| TaskQueue.PackedRoundTrip | grpc-engine/task/task.go:93-120 | from the bytes C recovers each id, size, aligned pointer and tag (0 payload, 1 error, 2 no result); the tagged word is never zero; the count is the list length |
| TaskQueue.PerformTasks | grpc-engine/task/task.go:123-134 | tasks are appended in the order they finish, whatever the timers do |
| TaskQueue.PerformParked | grpc-engine/task/task.go:72-88 | a parked waiter is woken exactly when done is set |
| TaskQueue.PerformLive | grpc-engine/task/task.go:72-91 | stale and late timers keep the queue live |
| TaskQueue.WaitLive | grpc-engine/task/task.go:77-91 | Wait returns, or stays parked with nothing queued and its own timer pending |
| TaskQueue.CollectedTasks | grpc-engine/task/task.go:77-121 | Wait hands out everything finished before it looked, in order, and nothing else |
| TaskQueue.Queue.Marshal | grpc-engine/task/task.go:95-113 | one record through the reused buffer, its body copied to C memory |
| TaskQueue.Queue.Pack | grpc-engine/task/task.go:93-115 | the packing loop encodes every task and stores every body |
| TaskQueue.Queue.Wait | grpc-engine/task/task.go:77-121 | the condition loop and packing loop over any interference: still parked if nothing signalled, else bytes, count, C memory and the emptied queue |
| OngoingTasks.TaskRegistry.Lookup | src/ngx_grpc_client.c:256-279 | the iterative lookup finds a key exactly when it is in the set |
| OngoingTasks.TaskRegistry.Keep | src/ngx_grpc_client.c:289-309 | one node more under any key, counted; a key not yet there keeps the keys distinct |
| OngoingTasks.TaskRegistry.Unkeep | src/ngx_grpc_client.c:312-328 | one node less, counted; with distinct keys exactly the id is gone |
| PostedEvents.Posted.Insert | src/ngx_grpc_client.c:227-253 | appends a record through a reused or new node without overwriting a queued one |
| PostedEvents.Posted.Take | src/ngx_grpc_client.c:593-599 | takes the oldest record and returns its node to the free queue |
| Worker.Worker.NewStream | src/ngx_grpc_client.c:1054-1122 | refines the new_stream step, whose context is the oldest free one (OldestTaken), and keeps the invariant |
| Worker.Worker.NewStreamRefused | src/ngx_grpc_client.c:1098-1102 | refines the refused new_stream step |
| Worker.Worker.StreamOp | src/ngx_grpc_client.c:1232-1355 | refines the recv, send and close_send steps, refusals included |
| Worker.Worker.FreeConn | src/ngx_grpc_client.c:881-895 | the loop frees every context of the free queue once, then the connection |
| Worker.Worker.Close | src/ngx_grpc_client.c:898-938 | refines closing and finalizing a connection, freed now or by the last stream |
| Worker.Worker.CloseStream | src/ngx_grpc_client.c:1191-1229 | refines closing and finalizing a stream |
| Worker.Worker.ToResume | src/ngx_grpc_client.c:527-581 | refines the resume common to results and timeouts |
| Worker.Worker.TimeoutHandler | src/ngx_grpc_client.c:643-668 | refines the timeout step |
| Worker.Worker.Cleanup | src/ngx_grpc_client.c:671-704 | refines the abort step |
| Worker.Worker.HandleRecord | src/ngx_grpc_client.c:593-639 | refines one iteration of the posted-event loop, delivery or discard |
| Worker.Worker.ThreadEventHandler | src/ngx_grpc_client.c:331-376 | refines the completion event, loop and repost rule included |
| Worker.Worker.PostBatch | src/ngx_grpc_client.c:344-348 | the loop appends the batch to the posted queue in order |
| Worker.Worker.RunJob | grpc-engine/main.go:205-301 | refines the end of a goroutine's remote work |
| Worker.Worker.Report | grpc-engine/task/task.go:144-146 | refines a goroutine's report |
| Worker.Worker.PostEventHandler | src/ngx_grpc_client.c:584-640 | the posted-event loop ends with the queue empty, every record handled once and in order; its run is, record by record, the delivery under the decoder's verdict and then the turn Lua asked for |
| Worker.Worker.LuaTurn | src/ngx_grpc_client.c:550-557 | a Lua turn takes the steps asked for in order, all of them if they form a run, and handles no record |
| Worker.WovenWhole | src/ngx_grpc_client.c:584-640 | if the turns Lua asks for can be taken as they are, the handler's run is exactly the deliveries with those turns in between |
| ConnStream.NewStream | grpc-engine/conn/grpc.go:136-180 | a panic for a type code outside 1 to 3; code 1 and 3 send the request, code 2 the request and a half-close, cut where a call fails, and a stream of that type exactly when none does |
| ConnStream.Stream.Recv | grpc-engine/conn/grpc.go:182-196 | a client stream half-closes and reads, any other only reads; an error exactly when a call failed |
| ConnStream.Stream.Send | grpc-engine/conn/grpc.go:198-204 | exactly the given message, or an error and nothing |
| ConnStream.Stream.CloseSend | grpc-engine/conn/grpc.go:206-212 | exactly one half-close, or an error and nothing |

## Left out

- StreamSerialisation: assumes that no id is reissued early, not just that nothing times out, because the latter does not suffice (OverlapWithoutTimeouts); the exact conditions for one call are SerialExact and OrderExact.
- ReferencesNeverMiss: assumes that no id is reissued early, because references are missed otherwise (ReferenceMissed); the exact condition for one opening is OpeningExact.
- ServerHalfClose: assumes that every call on the stream is one its own type offers, because reissued ids break this (ServerSentTwice); the exact condition for one call is ServerExact, and runs that reissue no id early satisfy it (StreamSerialisation).
- ClientHalfClose: assumes that every call on the stream found the earlier ones' calls made, because timed-out sends and retries interleave otherwise (ReadsApart); the exact condition for recv_close is ClientExact, and runs that reissue no id early satisfy it (StreamSerialisation, RecvCloseFinal).
- Keep: red-black balancing is abstracted to a plain search tree.
- The stepwise interleaving of the waiter with the event loop is modelled in the transition system; the Worker class covers the event loop and goroutines, the Queue class the waiter.
- Pointer identity of C structs: contexts and connections live in maps indexed by address rather than as linked objects; only posted-event nodes are objects with identity.
- Worker shutdown, failed allocations and failed thread posts, for which conservation is not meant to hold.
- The blocking call of the init_worker phase, which takes the first record of a batch without matching ids.
- Connecting, TLS, dial options, loading the engine library, metadata conversion, error-string truncation and logging.
- Protobuf encoding and decoding: whether a response decodes is an arbitrary verdict; its state swapping is not modelled.
- The http and stream subsystems are one abstract request and coroutine; `prev_data` and the resume handler of ngx_lua are not modelled.
- An empty unary reply: the engine's byte buffer yields nil for it, so the coroutine sees no result; the model takes the engine's answer as it is, nil or bytes.
- Internals of grpc-go: every call succeeds or fails arbitrarily; the deadline of a stream and the cancellation in `Close` only show as failures.
