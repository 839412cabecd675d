/** What every reachable state satisfies, split by the parts of the state each fact is about. */
module Invariants {
  import opened Base
  import opened Buffers
  import opened Machine
  import Q = FinishedQueue

  /** Queues and placement agree: a context on a queue knows its parent and its place, no
      queue lists a context twice, and a placed context is on the queue its place names. */
  ghost predicate Placed(conns: map<ConnId, Conn>, sctxs: map<Id, StreamCtx>) {
    && (forall c, id :: c in conns && id in conns[c].opening ==>
          id in sctxs && sctxs[id].parent == c && sctxs[id].place.OnOpening())
    && (forall c, id :: c in conns && id in conns[c].free ==>
          id in sctxs && sctxs[id].parent == c && sctxs[id].place.Free?)
    && (forall c :: c in conns ==> NoDup(conns[c].opening) && NoDup(conns[c].free))
    && (forall id :: id in sctxs ==> PlacedCtx(conns, id, sctxs[id]))
  }

  ghost predicate PlacedCtx(conns: map<ConnId, Conn>, id: Id, ctx: StreamCtx) {
    && (ctx.place.OnOpening() ==> !ctx.typ.Unary? && ctx.parent in conns && id in conns[ctx.parent].opening)
    && (ctx.place.Free? ==> ctx.parent in conns && id in conns[ctx.parent].free)
    && (ctx.place.InFlight? ==> ctx.typ.Unary? && ctx.parent in conns)
    && (ctx.place.Abandoned? ==> ctx.typ.Unary?)
  }

  /** The counter, the tree and the `node` pointers agree; nothing free is registered. */
  ghost predicate Registry(ongoing: set<Id>, num: int, sctxs: map<Id, StreamCtx>) {
    && num == |ongoing|
    && (forall id :: id in ongoing ==> id in sctxs)
    && (forall id :: id in sctxs ==> (id in ongoing <==> sctxs[id].node) && KeptPlace(sctxs[id]))
  }

  predicate KeptPlace(ctx: StreamCtx) {
    && (ctx.node ==> ctx.place.Pending? || ctx.place.InFlight? || ctx.place.Held?)
    && (ctx.place.Pending? || ctx.place.InFlight? ==> ctx.node)
  }

  /** Registered contexts and waiting coroutines are in one-to-one correspondence, and only a
      waiting coroutine has its timer set or its cleanup hook installed. */
  ghost predicate Waiters(ongoing: set<Id>, sctxs: map<Id, StreamCtx>, cos: map<Co, CoCtx>, ops: seq<OpInfo>) {
    && (forall id :: id in ongoing ==>
          && id in sctxs && sctxs[id].waitCo.Some? && sctxs[id].waitCo.value in cos
          && cos[sctxs[id].waitCo.value].run.Waiting? && cos[sctxs[id].waitCo.value].data == id
          && !sctxs[id].timedOut)
    && (forall co :: co in cos ==> CoSound(ongoing, sctxs, co, cos[co], ops))
  }

  predicate CoSound(ongoing: set<Id>, sctxs: map<Id, StreamCtx>, co: Co, k: CoCtx, ops: seq<OpInfo>) {
    if k.run.Waiting? then
      && k.timer && k.cleanup && k.data in ongoing
      && k.data in sctxs && sctxs[k.data].waitCo == Some(co)
      && k.run.op < |ops| && ops[k.run.op].id == k.data && ops[k.run.op].co == co
      && OpFits(ops[k.run.op].op, sctxs[k.data].place)
    else !k.timer && !k.cleanup
  }

  predicate OpFits(op: Op, place: Place) {
    && (op.CallOp? <==> place.InFlight?)
    && (op.OpenOp? <==> place.Pending?)
  }

  /** A Lua stream handle exists exactly for the contexts placed as held. */
  ghost predicate Handled(handles: map<Id, bool>, sctxs: map<Id, StreamCtx>) {
    && (forall id :: id in handles ==> id in sctxs && sctxs[id].place.Held?)
    && (forall id :: id in sctxs && sctxs[id].place.Held? ==> id in handles)
  }

  /** A connection whose destruction was delayed is closed, still has opening streams, and no
      `call` or `new_stream` waits on it. */
  ghost predicate Delayed(conns: map<ConnId, Conn>, sctxs: map<Id, StreamCtx>) {
    && (forall c :: c in conns && conns[c].freeDelayed ==> conns[c].opening != [] && conns[c].engine.None?)
    && (forall id :: id in sctxs && (sctxs[id].place.InFlight? || sctxs[id].place.Pending?) ==>
          sctxs[id].parent in conns && !conns[sctxs[id].parent].freeDelayed)
  }

  /** The connection of a live Lua handle is allocated, and linked to the engine while the handle
      holds its pointer; one without a handle waits for its delayed destruction. */
  ghost predicate ConnHandled(connHandles: map<ConnId, bool>, conns: map<ConnId, Conn>) {
    && (forall c :: c in connHandles ==>
          c in conns && !conns[c].freeDelayed && (connHandles[c] ==> conns[c].engine.Some?))
    && (forall c :: c in conns && !conns[c].freeDelayed ==> c in connHandles)
  }

  /** `engine_ctx` is set exactly for the keys of `EngineCtxRef`. */
  ghost predicate ConnRefsAgree(conns: map<ConnId, Conn>, connRefs: map<Ref, ConnId>) {
    && (forall c :: c in conns && conns[c].engine.Some? ==>
          conns[c].engine.value in connRefs && connRefs[conns[c].engine.value] == c)
    && (forall e :: e in connRefs ==> connRefs[e] in conns && conns[connRefs[e]].engine == Some(e))
  }

  /** Every job reports at most once, under its own id, and is never both running and reported. */
  ghost predicate Books(jobs: map<JobId, Job>, ops: seq<OpInfo>, reported: seq<TaskResult>) {
    && (forall j :: j in jobs ==> JobSound(j, jobs[j], ops))
    && (forall i :: 0 <= i < |reported| ==>
          reported[i].job < |ops| && reported[i].id == ops[reported[i].job].id && reported[i].job !in jobs)
    && (forall i, k :: 0 <= i < k < |reported| ==> reported[i].job != reported[k].job)
    && (forall j :: 0 <= j < |ops| ==> Unsettled(jobs, reported, j))
  }

  predicate JobSound(j: JobId, job: Job, ops: seq<OpInfo>) {
    && j < |ops| && job.id == ops[j].id && job.op == ops[j].op
    && (job.op.OpenOp? ==> !job.typ.Unary?)
    && (job.ran.Some? ==> job.ran.value.id == job.id && job.ran.value.job == j)
  }

  /** First in, first out, nothing lost, nothing invented. */
  predicate Conserved(s: State) {
    s.reported == s.processed + Transit(s)
  }

  /** A waiting operation's own job is outstanding; if its id was clean at kick-off it is the
      only one outstanding under that id. */
  ghost predicate OwnJobs(cos: map<Co, CoCtx>, ops: seq<OpInfo>, jobs: map<JobId, Job>, transit: seq<TaskResult>) {
    forall co :: co in cos && cos[co].run.Waiting? ==> OwnJob(cos[co].run.op, ops, jobs, transit)
  }

  predicate OwnJob(j: JobId, ops: seq<OpInfo>, jobs: map<JobId, Job>, transit: seq<TaskResult>) {
    && j < |ops|
    && Unsettled(jobs, transit, j)
    && (ops[j].clean ==>
          forall k :: 0 <= k < |ops| && ops[k].id == ops[j].id && k != j ==> !Unsettled(jobs, transit, k))
  }

  /** Every operation is either awaited by its coroutine or has completed exactly once. */
  ghost predicate Completions(events: seq<Event>, cos: map<Co, CoCtx>, ops: seq<OpInfo>) {
    && (forall i :: 0 <= i < |events| ==> events[i].op < |ops| && !Awaited(cos, ops, events[i].op))
    && (forall i, k :: 0 <= i < k < |events| ==> events[i].op != events[k].op)
    && (forall j :: 0 <= j < |ops| && !Awaited(cos, ops, j) ==> exists i :: 0 <= i < |events| && events[i].op == j)
  }

  predicate Awaited(cos: map<Co, CoCtx>, ops: seq<OpInfo>, j: JobId)
    requires j < |ops|
  {
    ops[j].co in cos && cos[ops[j].co].run == Waiting(j)
  }

  /** Each result event carries the meaning of a reported result with the operation's id; if
      the id was clean at kick-off, of the operation's own. */
  ghost predicate Attributed(events: seq<Event>, ops: seq<OpInfo>, reported: seq<TaskResult>) {
    forall i :: 0 <= i < |events| && events[i].cause.Result? ==> AttributedTo(events[i].op, events[i].cause, ops, reported)
  }

  predicate AttributedTo(j: JobId, cause: Cause, ops: seq<OpInfo>, reported: seq<TaskResult>)
    requires cause.Result?
  {
    && j < |ops|
    && cause.origin in reported
    && cause.origin.id == ops[j].id
    && cause.val == Meaning(cause.origin)
    && (ops[j].clean ==> cause.origin.job == j)
  }

  /** One waiter at most; a batch exists only between `Wait` and its completion event. */
  predicate WaiterSound(q: Q.Queue, active: bool, batch: seq<CRes>) {
    && Q.Live(q)
    && (active <==> q.phase != Q.Off)
    && (batch != [] ==> q.phase == Q.Finished)
  }

  /** A context is lost only to an opening that failed, timed out or was aborted. */
  ghost predicate LostReason(sctxs: map<Id, StreamCtx>, events: seq<Event>, ops: seq<OpInfo>) {
    forall id :: id in sctxs && sctxs[id].place.Lost? ==> exists i: nat :: FailedOpen(events, ops, i) && ops[events[i].op].id == id
  }

  predicate FailedOpen(events: seq<Event>, ops: seq<OpInfo>, i: nat) {
    && i < |events| && events[i].op < |ops| && ops[events[i].op].op.OpenOp?
    && !(events[i].cause.Result? && events[i].cause.val.LuaValue? && events[i].cause.val.ok)
  }

  /** A goroutine on a stream holds an existing stream object of its own type and id, which lists
      it; a job listed by a stream works on no other. */
  ghost predicate JobStreams(jobs: map<JobId, Job>, streams: map<JobId, Stream>, streamRefs: map<Id, JobId>, ops: seq<OpInfo>) {
    && (forall j :: j in jobs && StreamJob(jobs[j].op) ==>
          && jobs[j].uid in streams && streams[jobs[j].uid].typ == jobs[j].typ && streams[jobs[j].uid].id == jobs[j].id
          && j in streams[jobs[j].uid].kicks)
    && (forall id :: id in streamRefs ==> streamRefs[id] in streams && streams[streamRefs[id]].id == id)
    && (forall u :: u in streams ==> StreamSound(u, streams[u], ops))
    && (forall j :: j in jobs && jobs[j].ran.None? && !StreamJob(jobs[j].op) ==> j !in streams)
    && (forall u, k :: u in streams && k in streams[u].kicks && k in jobs && StreamJob(jobs[k].op) ==> jobs[k].uid == u)
  }

  /** A stream began with a complete opening; every later call belongs to a listed job, and each
      job's calls are a prefix of its script. */
  predicate StreamSound(u: JobId, st: Stream, ops: seq<OpInfo>) {
    && u < |ops| && ops[u].op.OpenOp? && ops[u].id == st.id && !st.typ.Unary?
    && st.kicks != [] && st.kicks[0] == u
    && (forall i :: 0 <= i < |st.kicks| ==> st.kicks[i] < |ops| && ops[st.kicks[i]].id == st.id)
    && (forall i :: 1 <= i < |st.kicks| ==> StreamJob(ops[st.kicks[i]].op))
    && (forall i, k :: 0 <= i < k < |st.kicks| ==> st.kicks[i] < st.kicks[k])
    && (forall i :: 0 <= i < |st.log| ==> st.log[i].job in st.kicks)
    && (forall i :: 0 <= i < |st.kicks| ==> CallsOf(st.log, st.kicks[i]) <= FullWire(st.typ, ops[st.kicks[i]].op))
    && Tagged(u, FullWire(st.typ, ops[u].op)) <= st.log
  }

  /** The job has run, and ended without an error. */
  ghost predicate Succeeds(jobs: map<JobId, Job>, reported: seq<TaskResult>, k: JobId) {
    || (k in jobs && jobs[k].ran.Some? && jobs[k].ran.value.err.None?)
    || (exists i :: 0 <= i < |reported| && reported[i].job == k && reported[i].err.None?)
  }

  /** A stream job that ended without an error made all its calls. */
  ghost predicate Wholes(streams: map<JobId, Stream>, jobs: map<JobId, Job>, reported: seq<TaskResult>, ops: seq<OpInfo>) {
    forall u, k :: u in streams && k in streams[u].kicks && k < |ops| && Succeeds(jobs, reported, k) ==>
      CallsOf(streams[u].log, k) == FullWire(streams[u].typ, ops[k].op)
  }

  ghost predicate Inv(s: State) {
    && Core(s)
    && ConnHandled(s.connHandles, s.conns)
  }

  /** Everything but the connection handles. */
  ghost predicate Core(s: State) {
    && Placed(s.conns, s.sctxs)
    && Registry(s.ongoing, s.ongoingNum, s.sctxs)
    && Waiters(s.ongoing, s.sctxs, s.cos, s.ops)
    && Handled(s.handles, s.sctxs)
    && Delayed(s.conns, s.sctxs)
    && ConnRefsAgree(s.conns, s.connRefs)
    && Books(s.jobs, s.ops, s.reported)
    && Conserved(s)
    && OwnJobs(s.cos, s.ops, s.jobs, Transit(s))
    && Completions(s.events, s.cos, s.ops)
    && Attributed(s.events, s.ops, s.reported)
    && WaiterSound(s.q, s.active, s.batch)
    && Owned(s.heap, s.posted + s.batch)
    && LostReason(s.sctxs, s.events, s.ops)
    && JobStreams(s.jobs, s.streams, s.streamRefs, s.ops)
    && Wholes(s.streams, s.jobs, s.reported, s.ops)
    && s.faults <= {MissingRef}
  }
}
