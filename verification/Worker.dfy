/** The event loop's side of the worker, imperatively: handlers that update the registry, the
    posted queue and the worker's memory in place, in the order of the C code. Every handler is
    proved to do exactly what the transition system says. */
module Worker {
  import opened Base
  import opened Buffers
  import opened Machine
  import opened Invariants
  import opened Placement
  import opened Flow
  import opened KickOffs
  import opened Destruction
  import opened Completion
  import opened Draining
  import opened Engine
  import opened Frames
  import opened Reachability
  import opened Attribution
  import opened OngoingTasks
  import opened PostedEvents
  import TaskQueue
  import Q = FinishedQueue

  /** Everything the handlers touch besides the registry and the two queues. Addresses index
      `conns`, `sctxs` and `heap`, so what was freed is no longer there. The last four are history. */
  datatype Memory = Memory(
    conns: map<ConnId, Conn>, sctxs: map<Id, StreamCtx>, connHandles: map<ConnId, bool>, handles: map<Id, bool>, cos: map<Co, CoCtx>,
    jobs: map<JobId, Job>, connRefs: map<Ref, ConnId>, streamRefs: map<Id, JobId>, streams: map<JobId, Stream>,
    active: bool, batch: seq<CRes>, heap: Heap, faults: set<Fault>,
    reported: seq<TaskResult>, processed: seq<TaskResult>, events: seq<Event>, ops: seq<OpInfo>)

  const BLANK := Memory(map[], map[], map[], map[], map[], map[], map[], map[], map[], false, [], map[], {}, [], [], [], [])

  function Assemble(m: Memory, ongoing: set<Id>, num: int, q: Q.Queue, posted: seq<CRes>): State {
    State(m.conns, m.sctxs, m.connHandles, m.handles, ongoing, num, m.cos, m.jobs, m.connRefs, m.streamRefs, m.streams,
          q, m.active, m.batch, posted, m.heap, m.reported, m.processed, m.events, m.ops, m.faults)
  }

  class Worker {
    const tasks: TaskRegistry
    const posted: Posted
    const queue: TaskQueue.Queue
    var m: Memory

    function Value(): State
      reads this, tasks, posted, posted.occupied, queue
    {
      Assemble(m, tasks.Ids(), tasks.num, queue.Value(), posted.Records())
    }

    ghost predicate Shape()
      reads this, tasks, posted, queue
    {
      tasks.Valid() && Distinct(tasks.root) && posted.Valid() && queue.Valid()
    }

    ghost predicate Valid()
      reads this, tasks, posted, posted.occupied, queue
    {
      Shape() && Inv(Value())
    }

    constructor ()
      ensures Valid() && Value() == INIT
    {
      tasks := new TaskRegistry();
      posted := new Posted();
      queue := new TaskQueue.Queue();
      m := BLANK;
      new;
      InitInv();
    }

    // -------------------------------------------------------------- registry and thread task

    method KeepTask(id: Id)
      requires tasks.Valid() && Distinct(tasks.root) && id in m.sctxs && id !in tasks.Ids()
      modifies this, tasks
      ensures tasks.Valid() && Distinct(tasks.root) && tasks.Ids() == old(tasks.Ids()) + {id} && tasks.num == old(tasks.num) + 1
      ensures m == old(m).(sctxs := old(m).sctxs[id := old(m).sctxs[id].(node := true)])
    {
      tasks.Keep(id);
      m := m.(sctxs := m.sctxs[id := m.sctxs[id].(node := true)]);
    }

    method UnkeepTask(id: Id)
      requires tasks.Valid() && Distinct(tasks.root) && id in m.sctxs && (m.sctxs[id].node <==> id in tasks.Ids())
      modifies this, tasks
      ensures tasks.Valid() && Distinct(tasks.root) && tasks.Ids() == old(tasks.Ids()) - {id}
      ensures tasks.num == old(tasks.num) - (if old(m).sctxs[id].node then 1 else 0)
      ensures m == old(m).(sctxs := old(m).sctxs[id := old(m).sctxs[id].(node := false)])
    {
      if !m.sctxs[id].node {
        assert m.sctxs == m.sctxs[id := m.sctxs[id].(node := false)];
        return;
      }
      tasks.Unkeep(id);
      m := m.(sctxs := m.sctxs[id := m.sctxs[id].(node := false)]);
    }

    /** `kick_off_task`: the thread task is posted unless active, the task is kept, and the coroutine
        gets its timer and hook; then the goroutine starts. */
    method KickOffTask(co: Co, id: Id, info: OpInfo, job: Job)
      requires Shape() && WaiterSound(queue.Value(), m.active, m.batch) && id in m.sctxs && id !in tasks.Ids()
      modifies this, tasks, queue`phase
      ensures Shape() && Value() == KickOff(old(Value()), co, id, old(m).sctxs[id], info, job)
    {
      hide WaiterSound, KickOff, Assemble;
      var ctx := m.sctxs[id];
      KickAssembled(m, tasks.Ids(), tasks.num, queue.Value(), posted.Records(), co, id, info, job);
      Overwrite(m.sctxs, id, ctx.(node := true), ctx.(node := true, timedOut := false, waitCo := Some(co)));
      if !m.active {
        queue.phase := Q.Queued;
      }
      KeepTask(id);
      m := m.(active := true, sctxs := m.sctxs[id := m.sctxs[id].(timedOut := false, waitCo := Some(co))],
              cos := m.cos[co := CoCtx(Waiting(|m.ops|), true, true, id)], jobs := m.jobs[|m.ops| := job], ops := m.ops + [info]);
    }

    // -------------------------------------------------------------- opening and using streams

    method NewStream(co: Co, r: Req, c: ConnId, typ: StreamType, req: Bytes, alloc: Id)
      requires Valid() && c in m.connHandles && m.connHandles[c] && alloc !in m.sctxs && CoOf(Value(), co).run.Running?
      modifies this, tasks, queue`phase
      ensures Valid() && Value() == Machine.NewStream(old(Value()), co, r, c, typ, req, alloc)
    {
      hide Inv, CleanId, WaiterSound, Machine.NewStream, CoOf;
      ghost var s := Value();
      NewStreamInv(s, co, r, c, typ, req, alloc);
      HandleConn(s, c);
      if m.conns[c].engine.None? {
        StreamOnClosed(s, co, r, c, typ, req, alloc);
        return;
      }
      if m.conns[c].engine.value !in m.connRefs {
        StreamOnMissing(s, co, r, c, typ, req, alloc);
        m := m.(faults := m.faults + {MissingRef});
        return;
      }
      Picks(s, c, alloc);
      OpenStream(co, r, c, typ, req, alloc);
    }

    /** A context from the free queue, or a new one, goes in flight or to the head of `opening`. */
    method OpenStream(co: Co, r: Req, c: ConnId, typ: StreamType, req: Bytes, alloc: Id)
      requires Shape() && WaiterSound(queue.Value(), m.active, m.batch)
      requires c in m.conns && m.conns[c].engine.Some? && m.conns[c].engine.value in m.connRefs
      requires PickCtx(m.conns[c], alloc).0 !in tasks.Ids() && (m.conns[c].free != [] ==> PickCtx(m.conns[c], alloc).0 in m.sctxs)
      modifies this, tasks, queue`phase
      ensures Shape() && Value() == Machine.NewStream(old(Value()), co, r, c, typ, req, alloc)
    {
      hide CleanId, WaiterSound, Machine.NewStream, KickOff;
      ghost var s := Value();
      var conn := m.conns[c];
      var (id, rest) := PickCtx(conn, alloc);
      var op := if typ.Unary? then CallOp(req) else OpenOp(req);
      var info := OpInfo(id, co, op, CleanId(Value(), id));
      var job := Job(id, op, typ, |m.ops|, None);
      var ctx := StreamCtx(Some(r), None, false, false, c, typ, if typ.Unary? then InFlight else Pending);
      m := m.(sctxs := m.sctxs[id := ctx]);
      m := m.(conns := m.conns[c := conn.(free := rest, opening := if typ.Unary? then conn.opening else [id] + conn.opening)]);
      KickOffTask(co, id, info, job);
      StreamStarted(s, co, r, c, typ, req, alloc, ctx);
    }

    /** `new_stream` in a phase that cannot yield: the context is parked on the free queue. */
    method NewStreamRefused(r: Req, c: ConnId, typ: StreamType, alloc: Id)
      requires Valid() && c in m.connHandles && m.connHandles[c] && alloc !in m.sctxs
      modifies this
      ensures Valid() && Value() == Machine.NewStreamRefused(old(Value()), r, c, typ, alloc)
    {
      hide Inv, WaiterSound, Machine.NewStreamRefused;
      ghost var s := Value();
      NewStreamRefusedInv(s, r, c, typ, alloc);
      Picks(s, c, alloc);
      var conn := m.conns[c];
      var (id, rest) := PickCtx(conn, alloc);
      m := m.(sctxs := m.sctxs[id := StreamCtx(Some(r), None, false, false, c, typ, Free)]);
      m := m.(conns := m.conns[c := conn.(free := [id] + rest)]);
      NewStreamRefusedShape(s, r, c, typ, alloc, id, rest);
    }

    /** `stream_recv`, `stream_send` and `stream_close_send`: status check, kick-off, goroutine. */
    method StreamOp(co: Co, r: Req, id: Id, op: Op)
      requires Valid() && id in m.handles && StreamJob(op) && CoOf(Value(), co).run.Running?
      modifies this, tasks, queue`phase
      ensures Valid() && Value() == Machine.StreamOp(old(Value()), co, r, id, op)
    {
      hide Inv, CleanId, WaiterSound, Machine.StreamOp, KickOff, CoOf, StreamReady;
      ghost var s := Value();
      StreamOpInv(s, co, r, id, op);
      HandleIdle(s, r, id);
      if !StreamReady(m.sctxs[id], r) {
        StreamNotReady(s, co, r, id, op);
        return;
      }
      if id !in m.streamRefs || m.streamRefs[id] !in m.streams {
        StreamMissing(s, co, r, id, op);
        m := m.(faults := m.faults + {MissingRef});
        return;
      }
      StartOp(co, r, id, op);
    }

    /** An admitted method: the goroutine gets the stream object its id refers to. */
    method StartOp(co: Co, r: Req, id: Id, op: Op)
      requires Shape() && id in m.sctxs && id !in tasks.Ids() && WaiterSound(queue.Value(), m.active, m.batch)
      requires StreamReady(m.sctxs[id], r) && id in m.streamRefs && m.streamRefs[id] in m.streams
      modifies this, tasks, queue`phase
      ensures Shape() && Value() == Machine.StreamOp(old(Value()), co, r, id, op)
    {
      hide CleanId, WaiterSound, Machine.StreamOp, KickOff, StreamReady;
      ghost var s := Value();
      var u := m.streamRefs[id];
      var st := m.streams[u];
      var info := OpInfo(id, co, op, CleanId(Value(), id));
      m := m.(streams := m.streams[u := st.(kicks := st.kicks + [|m.ops|])]);
      KickOffTask(co, id, info, Job(id, op, st.typ, u, None));
      StreamUsed(s, co, r, id, op);
    }

    // -------------------------------------------------------------- closing and destruction

    method Connect(c: ConnId, e: Ref)
      requires Valid() && c !in m.conns && e !in m.connRefs
      modifies this
      ensures Valid() && Value() == Machine.Connect(old(Value()), c, e)
    {
      hide Inv;
      ConnectInv(Value(), c, e);
      m := m.(connRefs := m.connRefs[e := c]);
      m := m.(conns := m.conns[c := Conn(Some(e), [], [], false)]);
      m := m.(connHandles := m.connHandles[c := true]);
    }

    /** `free_conn`: the loop pops the last context and frees it; none is freed twice. */
    method FreeConn(c: ConnId)
      requires Shape() && c in m.conns && Releasable(m.sctxs, m.conns[c].free)
      modifies this
      ensures Shape() && Value() == Machine.FreeConn(old(Value()), c)
    {
      var free, live := m.conns[c].free, m.sctxs;
      ghost var all, n := free, |free|;
      assert all[..n] == all;
      while free != []
        invariant 0 <= n <= |all| && free == all[..n]
        invariant live == m.sctxs - Elements(all[n..])
        invariant m == old(m) && Shape()
        decreases |free|
      {
        var id := free[|free| - 1];
        assert id == all[n - 1] && id in live;
        free := free[..|free| - 1];
        live := live - {id};
        assert all[n - 1..] == [id] + all[n..];
        n := n - 1;
      }
      assert all[0..] == all;
      m := m.(sctxs := live, conns := m.conns - {c});
    }

    /** `ngx_grpc_cli_close`, called by `Conn:close` and, with `gc`, by the handle's finalizer: the
        engine connection is closed once, and a collected handle frees the connection now or
        marks it for the last of its streams. */
    method Close(c: ConnId, gc: bool)
      requires Valid() && c in m.connHandles && (gc ==> !FrameHolds(Value(), c))
      modifies this
      ensures Valid() && Value() == if gc then FinalizeConn(old(Value()), c) else CloseConn(old(Value()), c)
    {
      hide Inv, FrameHolds, Releasable, Machine.FreeConn, FinalizeConn, CloseConn, Unlink;
      ghost var s := Value();
      CloseInv(s, c, gc);
      CloseShape(s, c);
      m := m.(connHandles := if gc then m.connHandles - {c} else m.connHandles[c := false]);
      CloseEngine(c);
      if !gc {
        return;
      }
      if m.conns[c].opening != [] {
        m := m.(conns := m.conns[c := m.conns[c].(freeDelayed := true)]);
        return;
      }
      FreeConn(c);
    }

    method CloseEngine(c: ConnId)
      requires Shape() && c in m.conns
      modifies this
      ensures Shape() && Value() == Unlink(old(Value()), c)
    {
      hide Unlink;
      UnlinkCases(Value(), c);
      var conn := m.conns[c];
      if conn.engine.Some? {
        m := m.(connRefs := m.connRefs - {conn.engine.value}, conns := m.conns[c := conn.(engine := None)]);
      }
    }

    /** `ngx_grpc_cli_close_stream`, called by `stream_close` and, with `gc`, by the finalizer: a
        collected stream's context moves from `opening` to the head of `free`, and the last one
        frees a connection that waits for it. */
    method CloseStream(id: Id, gc: bool)
      requires Valid() && id in m.handles && (gc ==> id !in tasks.Ids())
      modifies this
      ensures Valid() && Value() == if gc then FinalizeStream(old(Value()), id) else Machine.CloseStream(old(Value()), id)
    {
      hide Inv, Releasable, Machine.FreeConn, FinalizeStream, Remove;
      ghost var s := Value();
      CloseStreamKeeps(s, id, gc);
      m := m.(handles := if gc then m.handles - {id} else m.handles[id := false]);
      m := m.(streamRefs := m.streamRefs - {id});
      if !gc {
        return;
      }
      var c := m.sctxs[id].parent;
      var conn := m.conns[c];
      conn := conn.(opening := Remove(conn.opening, id));
      conn := conn.(free := [id] + conn.free);
      m := m.(conns := m.conns[c := conn]);
      m := m.(sctxs := m.sctxs[id := m.sctxs[id].(r := None, place := Free)]);
      FinalizeStreamShape(s, id);
      assert Value() == Shelve(s, id, conn.freeDelayed);
      if m.conns[c].freeDelayed && m.conns[c].opening == [] {
        FreeQueueShelved(s, id);
        FreeConn(c);
      }
    }

    // -------------------------------------------------------------- resuming

    /** `to_resume` and what follows it: the context is unregistered, the coroutine runs again, a
        unary context returns to the head of the free queue, and the Lua frame goes on. */
    method ToResume(id: Id, cause: Cause)
      requires Shape() && id in m.sctxs && m.sctxs[id].node && id in tasks.Ids() && m.sctxs[id].waitCo.Some?
      requires m.sctxs[id].waitCo.value in m.cos && m.cos[m.sctxs[id].waitCo.value].run.Waiting?
      requires m.cos[m.sctxs[id].waitCo.value].run.op < |m.ops|
      requires m.sctxs[id].typ.Unary? ==> m.sctxs[id].parent in m.conns
      modifies this, tasks
      ensures Shape() && Value() == Resume(old(Value()), id, cause)
    {
      hide PlaceAfter, Succeeded, Resume, Left, Assemble;
      ghost var was := m;
      var j := m.cos[m.sctxs[id].waitCo.value].run.op;
      // Lua goes on right after its yield: a stream handle, or the close that ends `recv_close`.
      var handed := !m.sctxs[id].typ.Unary? && m.ops[j].op.OpenOp? && Succeeded(cause);
      var closes := cause.Result? && cause.closed && id in m.handles && m.handles[id];
      var handles := if handed then m.handles[id := true] else if closes then m.handles[id := false] else m.handles;
      var refs := if closes then m.streamRefs - {id} else m.streamRefs;
      LeavingResumes(was, tasks.Ids(), tasks.num, queue.Value(), posted.Records(), id, cause, handles, refs);
      Release(id, j, cause, handles, refs);
    }

    method Release(id: Id, j: JobId, cause: Cause, handles: map<Id, bool>, refs: map<Id, JobId>)
      requires tasks.Valid() && Distinct(tasks.root) && Leaving(m, id, j) && id in tasks.Ids()
      modifies this, tasks
      ensures tasks.Valid() && Distinct(tasks.root) && tasks.Ids() == old(tasks.Ids()) - {id} && tasks.num == old(tasks.num) - 1
      ensures m == Left(old(m), id, j, cause, handles, refs)
    {
      hide PlaceAfter, Succeeded, ConnsAfter;
      var ctx := m.sctxs[id];
      var co := ctx.waitCo.value;
      var place := PlaceAfter(ctx, m.ops[j].op, Succeeded(cause));
      Overwrite(m.sctxs, id, ctx.(node := false), ctx.(node := false, waitCo := None, place := place));
      UnkeepTask(id);
      m := m.(sctxs := m.sctxs[id := m.sctxs[id].(waitCo := None, place := place)]);
      m := m.(cos := m.cos[co := m.cos[co].(run := Running)], events := m.events + [Event(j, cause)]);
      m := m.(conns := ConnsAfter(m.conns, id, ctx));
      m := m.(handles := handles, streamRefs := refs);
    }

    // -------------------------------------------------------------- the three ways to finish

    /** `timeout_handler`; nginx has cleared `timer_set`. */
    method TimeoutHandler(co: Co)
      requires Valid() && CoOf(Value(), co).timer
      modifies this, tasks
      ensures Valid() && Value() == OpTimeout(old(Value()), co)
    {
      hide Inv, CoOf, OpTimeout, Resume;
      ghost var s := Value();
      OpTimeoutInv(s, co);
      Waits(s, co);
      var id := m.cos[co].data;
      m := m.(cos := m.cos[co := m.cos[co].(timer := false)]);
      m := m.(sctxs := m.sctxs[id := m.sctxs[id].(timedOut := true)]);
      m := m.(cos := m.cos[co := m.cos[co].(cleanup := false)]);
      Overwrite(s.cos, co, s.cos[co].(timer := false), s.cos[co].(timer := false, cleanup := false));
      TimeoutResumes(s, co);
      ToResume(id, Timeout);
    }

    /** The cleanup hook of an aborted coroutine. */
    method Cleanup(co: Co)
      requires Valid() && CoOf(Value(), co).cleanup
      modifies this, tasks
      ensures Valid() && Value() == Abort(old(Value()), co)
    {
      hide Inv, CoOf, Abort, PlaceAborted;
      ghost var s := Value();
      AbortInv(s, co);
      Waits(s, co);
      var id, j := m.cos[co].data, m.cos[co].run.op;
      Unhook(co, id, j);
      AbortFields(s, Value(), co);
    }

    method Unhook(co: Co, id: Id, j: JobId)
      requires tasks.Valid() && Distinct(tasks.root) && co in m.cos && m.cos[co].data == id && id in m.sctxs && m.sctxs[id].node && id in tasks.Ids()
      modifies this, tasks
      ensures tasks.Valid() && Distinct(tasks.root) && tasks.Ids() == old(tasks.Ids()) - {id} && tasks.num == old(tasks.num) - 1
      ensures var ctx := old(m).sctxs[id];
              m == old(m).(
                sctxs := old(m).sctxs[id := ctx.(node := false, place := PlaceAborted(ctx.place))],
                cos := old(m).cos[co := CoCtx(Dead, false, false, id)],
                events := old(m).events + [Event(j, Aborted)])
    {
      hide PlaceAborted;
      var ctx := m.sctxs[id];
      Overwrite(m.sctxs, id, ctx.(node := false), ctx.(node := false, place := PlaceAborted(ctx.place)));
      UnkeepTask(id);
      m := m.(sctxs := m.sctxs[id := m.sctxs[id].(place := PlaceAborted(ctx.place))], events := m.events + [Event(j, Aborted)]);
      m := m.(cos := m.cos[co := CoCtx(Dead, false, false, id)]);
    }

    method FreeBuffer(word: nat)
      requires Shape() && 0 !in m.heap && (Base8(word) == 0 || Base8(word) in m.heap)
      modifies this
      ensures Shape() && Value() == old(Value()).(heap := old(m).heap - {Base8(word)})
    {
      var b := Base8(word);
      if b != 0 {
        m := m.(heap := m.heap - {b});
      } else {
        assert m.heap - {b} == m.heap;
      }
    }

    /** One iteration of the posted-event loop: the record is matched against the registry, and
        its buffer is freed whether it is delivered or discarded. */
    method HandleRecord(decodes: bool)
      requires Valid() && posted.occupied != []
      modifies this, tasks, posted
      ensures Valid() && Value() == DrainOne(old(Value()), decodes)
      ensures |posted.occupied| == |old(posted.occupied)| - 1
    {
      hide Inv, DrainOne, Base8, Resume, Faithful, ClosesOn, TypeOf, Unpack, Meaning, Delivered;
      ghost var s := Value();
      DrainOneInv(s, decodes);
      HeadRecord(s);
      var x := TakeRecord();
      var found := tasks.Lookup(x.id);
      if !found {
        FreeBuffer(x.word);
        DiscardShape(s, decodes);
      } else {
        HeadDelivers(s, decodes);
        DeliverRecord(x, decodes);
      }
    }

    method TakeRecord() returns (x: CRes)
      requires Shape() && posted.occupied != []
      modifies this, posted
      ensures Shape() && |posted.occupied| == |old(posted.occupied)| - 1
      ensures x == old(Value()).posted[0]
      ensures Value() == old(Value()).(posted := old(Value()).posted[1..], processed := old(m).processed + [x.origin])
    {
      ghost var s := Value();
      x := posted.Take();
      assert s.posted[0] == x && s.posted[1..] == posted.Records();
      m := m.(processed := m.processed + [x.origin]);
    }

    /** The timer and the hook go first, then the result is read, its buffer freed, and the
        coroutine resumed. */
    method DeliverRecord(x: CRes, decodes: bool)
      requires Shape() && Awaiting(Value(), x.id)
      requires TypeOf(x.word) == TYPE_OK_NOT_RES || (Base8(x.word) in m.heap && x.size <= |m.heap[Base8(x.word)]|)
      requires 0 !in m.heap && (Base8(x.word) == 0 || Base8(x.word) in m.heap)
      modifies this, tasks
      ensures Shape() && Value() == Delivered(old(Value()), x, decodes)
    {
      hide Resume, ClosesOn, TypeOf, Base8, Unpack;
      var val := Unpack(m.heap, x);
      var closed := ClosesOn(Value(), x.id, val, decodes);
      var co := m.sctxs[x.id].waitCo.value;
      m := m.(cos := m.cos[co := m.cos[co].(timer := false, cleanup := false)]);
      FreeBuffer(x.word);
      ToResume(x.id, Result(x.origin, val, closed));
    }

    // -------------------------------------------------------------- thread events

    /** `thread_event_handler`: the batch moves to the posted queue in order, then the thread task
        is posted again unless the registry holds no more than the batch. */
    method ThreadEventHandler()
      requires Valid() && queue.phase == Q.Finished
      modifies this, posted, posted.free, queue`phase
      ensures Valid() && Value() == ThreadEvent(old(Value()))
    {
      hide Inv, ThreadEvent;
      ghost var s := Value();
      ThreadEventInv(s);
      InvWaiter(s);
      PostBatch();
      // nginx has cleared `active`; the task is posted again only if more is awaited.
      var more := tasks.num > |m.batch|;
      m := m.(batch := [], active := more);
      queue.phase := if more then Q.Queued else Q.Off;
      ThreadEventShape(s);
    }

    method PostBatch()
      requires posted.Valid()
      modifies posted, posted.free
      ensures posted.Valid() && posted.Records() == old(posted.Records()) + m.batch
    {
      hide Posted.Valid, Posted.Nodes;
      ghost var reusable, k, was := posted.free, 0, posted.Records();
      var i := 0;
      while i < |m.batch|
        invariant 0 <= i <= |m.batch| && posted.Valid()
        invariant posted.Records() == was + m.batch[..i]
        invariant k <= |reusable| && posted.free == reusable[k..]
      {
        assert was + m.batch[..i] + [m.batch[i]] == was + m.batch[..i + 1];
        posted.Insert(m.batch[i]);
        k := if k < |reusable| then k + 1 else k;
        i := i + 1;
      }
      assert m.batch[..i] == m.batch;
    }

    // -------------------------------------------------------------- goroutines

    /** One call of a goroutine on its stream. */
    method MakeCall(j: JobId)
      requires Valid() && j in m.jobs && m.jobs[j].ran.None? && CallsLeft(Value(), j) != []
      modifies this
      ensures Valid() && Value() == Machine.MakeCall(old(Value()), j)
    {
      hide Inv, CallsLeft;
      MakeCallInv(Value(), j);
      CallsMean(Value(), j);
      var u := m.jobs[j].uid;
      var st := m.streams[u];
      m := m.(streams := m.streams[u := st.(log := st.log + [Call(j, CallsLeft(Value(), j)[0])])]);
    }

    /** The end of a goroutine's work: a stream that was opened is stored before it is reported. */
    method RunJob(j: JobId, result: Option<Bytes>, err: Option<Bytes>)
      requires Valid() && j in m.jobs && m.jobs[j].ran.None? && ResultShape(m.jobs[j].op, result, err)
      requires err.None? ==> CallsLeft(Value(), j) == []
      modifies this
      ensures Valid() && Value() == Machine.RunJob(old(Value()), j, result, err)
    {
      hide Inv, FullWire, Machine.RunJob, ResultShape, CallsLeft, Born, Assemble;
      AssembledJobs(m, tasks.Ids(), tasks.num, queue.Value(), posted.Records());
      RunJobInv(Value(), j, result, err);
      var job := m.jobs[j];
      var ended := m.jobs[j := job.(ran := Some(TaskResult(job.id, result, err, j)))];
      if job.op.OpenOp? && err.None? {
        EndsOpening(m, tasks.Ids(), tasks.num, queue.Value(), posted.Records(), j, result);
        m := m.(streams := m.streams[j := Born(j, job)], streamRefs := m.streamRefs[job.id := j], jobs := ended);
      } else {
        EndsQuietly(m, tasks.Ids(), tasks.num, queue.Value(), posted.Records(), j, result, err);
        m := m.(jobs := ended);
      }
    }

    method Report(j: JobId)
      requires Valid() && j in m.jobs && m.jobs[j].ran.Some?
      modifies this, queue
      ensures Valid() && Value() == Machine.Report(old(Value()), j)
    {
      hide Inv;
      ReportInv(Value(), j);
      var t := m.jobs[j].ran.value;
      m := m.(jobs := m.jobs - {j});
      queue.Done(t);
      m := m.(reported := m.reported + [t]);
    }

    // -------------------------------------------------------------- the posted-event loop

    /** Arbitrary Lua between two yields. */
    method Lua(a: Step)
      requires Valid() && Enabled(Value(), a) && LuaStep(a)
      modifies this, tasks, queue`phase
      ensures Valid() && Value() == Apply(old(Value()), a)
    {
      hide Inv, Machine.NewStream, Machine.NewStreamRefused, Machine.StreamOp, CloseConn, FinalizeConn, Machine.Connect,
        Machine.CloseStream, FinalizeStream, Machine.RunJob, Machine.MakeCall, CallsLeft, Machine.Report, WaitCheck, ThreadEvent, DrainOne, OpTimeout, Abort,
        FrameHolds, FullWire, FreshPtrs, ResultShape, Offers;
      match a {
        case DoConnect(c, e) => Connect(c, e);
        case DoNewStream(co, r, c, typ, req, alloc) => NewStream(co, r, c, typ, req, alloc);
        case DoNewStreamRefused(_, r, c, typ, alloc) => NewStreamRefused(r, c, typ, alloc);
        case DoStreamOp(co, r, id, op) =>
          HandleOffers(Value(), id, op);
          StreamOp(co, r, id, op);
        case DoCloseConn(c) => Close(c, false);
        case DoFinalizeConn(c) => Close(c, true);
        case DoCloseStream(id) => CloseStream(id, false);
        case DoFinalizeStream(id) => CloseStream(id, true);
        case DoAbort(co) => Cleanup(co);
      }
    }

    /** A resumed coroutine runs until it yields: the steps it asks for are taken in order, those it is
        not in a position to take are left out. It cannot reach the posted queue. */
    method LuaTurn(steps: seq<Step>) returns (ghost run: seq<Step>)
      requires Valid()
      modifies this, tasks, queue`phase
      ensures Valid() && Runs(old(Value()), run) && After(old(Value()), run) == Value()
      ensures run == Turn(old(Value()), steps)
      ensures AllLua(steps) && Runs(old(Value()), steps) ==> run == steps
      ensures m.processed == old(m).processed
    {
      hide Inv, Enabled, Apply;
      run := [];
      ghost var s := Value();
      var i := 0;
      while i < |steps|
        invariant 0 <= i <= |steps| && Valid()
        invariant Runs(s, run) && After(s, run) == Value()
        invariant run + Turn(Value(), steps[i..]) == Turn(s, steps)
        invariant m.processed == old(m).processed
      {
        assert steps[i..][1..] == steps[i + 1..];
        if LuaStep(steps[i]) && Enabled(Value(), steps[i]) {
          LuaProcesses(Value(), steps[i]);
          Extend(s, run, steps[i]);
          ghost var rest := Turn(Apply(Value(), steps[i]), steps[i + 1..]);
          assert run + ([steps[i]] + rest) == run + [steps[i]] + rest;
          Lua(steps[i]);
          run := run + [steps[i]];
        }
        i := i + 1;
      }
      assert steps[i..] == [] && run + [] == run;
      if AllLua(steps) && Runs(s, steps) {
        WholeTurn(s, steps);
      }
    }

    /** `thread_post_event_handler`: the loop ends with `occupied` empty, having handled every record
        once and in order. `lua` is what each resumed coroutine asks for and `decodes` the protobuf
        decoder's verdicts: record by record, the run is the record's delivery followed by the turn
        of the coroutine it resumed. */
    method PostEventHandler(lua: seq<seq<Step>>, decodes: seq<bool>) returns (ghost run: seq<Step>, ghost turns: seq<seq<Step>>)
      requires Valid()
      modifies this, tasks, posted, queue`phase
      ensures Valid() && Runs(old(Value()), run) && After(old(Value()), run) == Value()
      ensures run == Woven(decodes, turns) && TurnsOf(old(Value()), lua, decodes, turns)
      ensures m.faults == {} ==>
                && posted.occupied == [] && |turns| == |old(Value()).posted|
                && m.processed == old(m).processed + Origins(old(Value()).posted)
    {
      hide Inv, Enabled, Apply, DrainOne, Turn, LuaStep;
      run, turns := [], [];
      var i := 0;
      ghost var s := Value();
      while posted.occupied != [] && m.faults == {}
        invariant Valid() && Runs(s, run) && After(s, run) == Value()
        invariant run == Woven(decodes, turns) && TurnsOf(s, lua, decodes, turns) && i == |turns|
        invariant m.processed + Origins(Value().posted) == s.processed + Origins(s.posted)
        invariant |turns| + |posted.occupied| == |s.posted|
        decreases |posted.occupied|
      {
        var verdict := i < |decodes| && decodes[i];
        DrainProcesses(Value(), verdict);
        DrainStep(Value(), verdict);
        Extend(s, run, DoDrainOne(verdict));
        HandleRecord(verdict);
        ghost var drained := run + [DoDrainOne(verdict)];
        ghost var turn := LuaTurn(if i < |lua| then lua[i] else []);
        Concatenate(s, drained, turn);
        WeaveOne(s, lua, decodes, turns, turn);
        run := drained + turn;
        turns := turns + [turn];
        i := i + 1;
      }
      assert posted.occupied == [] ==> Origins(Value().posted) == [];
    }
  }

  predicate AllLua(steps: seq<Step>) {
    forall i :: 0 <= i < |steps| ==> LuaStep(steps[i])
  }

  /** The steps of a Lua turn that can be taken when their time comes. */
  function Turn(s: State, steps: seq<Step>): seq<Step>
    decreases |steps|
  {
    if steps == [] then []
    else if LuaStep(steps[0]) && Enabled(s, steps[0]) then [steps[0]] + Turn(Apply(s, steps[0]), steps[1..])
    else Turn(s, steps[1..])
  }

  /** A turn that can be taken as it is, is. */
  lemma {:induction false} WholeTurn(s: State, steps: seq<Step>)
    requires AllLua(steps) && Runs(s, steps)
    ensures Turn(s, steps) == steps
    decreases |steps|
  {
    hide Enabled, Apply, LuaStep;
    if steps != [] {
      WholeTurn(Apply(s, steps[0]), steps[1..]);
    }
  }

  /** The decoder's verdict on record `i`. */
  function Verdict(decodes: seq<bool>, i: nat): bool {
    i < |decodes| && decodes[i]
  }

  /** Record by record: the delivery, then the turn of the resumed coroutine. */
  function Woven(decodes: seq<bool>, turns: seq<seq<Step>>): seq<Step> {
    if turns == [] then []
    else
      var n := |turns| - 1;
      Woven(decodes, turns[..n]) + [DoDrainOne(Verdict(decodes, n))] + turns[n]
  }

  /** Each turn is what Lua asked for after its record, as far as it could be taken. */
  predicate TurnsOf(s: State, lua: seq<seq<Step>>, decodes: seq<bool>, turns: seq<seq<Step>>) {
    turns == [] ||
    (var n := |turns| - 1;
     var before := Woven(decodes, turns[..n]) + [DoDrainOne(Verdict(decodes, n))];
     && TurnsOf(s, lua, decodes, turns[..n])
     && Runs(s, before) && turns[n] == Turn(After(s, before), if n < |lua| then lua[n] else []))
  }

  lemma WeaveOne(s: State, lua: seq<seq<Step>>, decodes: seq<bool>, turns: seq<seq<Step>>, turn: seq<Step>)
    requires TurnsOf(s, lua, decodes, turns)
    requires var before := Woven(decodes, turns) + [DoDrainOne(Verdict(decodes, |turns|))];
             Runs(s, before) && turn == Turn(After(s, before), if |turns| < |lua| then lua[|turns|] else [])
    ensures TurnsOf(s, lua, decodes, turns + [turn])
    ensures Woven(decodes, turns + [turn]) == Woven(decodes, turns) + [DoDrainOne(Verdict(decodes, |turns|))] + turn
  {
    hide Runs, After, Turn, Enabled, Apply;
    assert (turns + [turn])[..|turns|] == turns;
  }

  /** If Lua's turns can all be taken as they are, the handler does exactly that. */
  lemma {:induction false} WovenWhole(s: State, lua: seq<seq<Step>>, decodes: seq<bool>, turns: seq<seq<Step>>)
    requires TurnsOf(s, lua, decodes, turns) && |turns| <= |lua| && (forall i :: 0 <= i < |lua| ==> AllLua(lua[i]))
    requires Runs(s, Woven(decodes, lua[..|turns|]))
    ensures turns == lua[..|turns|]
  {
    hide Enabled, Apply, AllLua, Turn;
    if turns != [] {
      var n := |turns| - 1;
      var before := Woven(decodes, lua[..n]) + [DoDrainOne(Verdict(decodes, n))];
      assert lua[..n + 1][..n] == lua[..n];
      assert Woven(decodes, lua[..n + 1]) == before + lua[n];
      Splits(s, before, lua[n]);
      Splits(s, Woven(decodes, lua[..n]), [DoDrainOne(Verdict(decodes, n))]);
      WovenWhole(s, lua, decodes, turns[..n]);
      WholeTurn(After(s, before), lua[n]);
    }
  }

  /** A run is a run of its first part and then of the rest. */
  lemma {:induction false} Splits(s: State, run: seq<Step>, more: seq<Step>)
    requires Runs(s, run + more)
    ensures Runs(s, run) && Runs(After(s, run), more)
    decreases |run|
  {
    hide Enabled, Apply;
    if run == [] {
      assert run + more == more;
    } else {
      assert (run + more)[1..] == run[1..] + more;
      Splits(Apply(s, run[0]), run[1..], more);
    }
  }

  /** Lua never handles a record. */
  lemma LuaProcesses(s: State, a: Step)
    requires Inv(s) && Enabled(s, a) && LuaStep(a)
    ensures Apply(s, a).processed == s.processed
  {
    hide Inv, NewStream, NewStreamRefused, StreamOp, CloseConn, FinalizeConn, CloseStream, FinalizeStream,
      RunJob, MakeCall, CallsLeft, Report, WaitCheck, ThreadEvent, DrainOne, OpTimeout, Abort, CleanId,
      FrameHolds, FullWire, FreshPtrs, ResultShape, Offers, Transit;
    if Aside(a) {
      AsideFrame(s, a);
    } else {
      match a {
        case DoNewStream(co, r, c, typ, req, alloc) =>
          var conns, id, ctx, info, job := NewStreamLaunch(s, co, r, c, typ, req, alloc);
        case DoStreamOp(co, r, id, op) =>
          if Admitted(s, r, id) {
            var streams, ctx, info, job := StreamOpLaunch(s, co, r, id, op);
          } else {
            StreamOpRefused(s, co, r, id, op);
          }
        case DoAbort(co) => AbortProcesses(s, co);
      }
    }
  }

  lemma AbortProcesses(s: State, co: Co)
    requires Inv(s) && CoOf(s, co).cleanup
    ensures Abort(s, co).processed == s.processed
  {
    hide Inv, CoOf, Abort, PlaceAborted;
    Waits(s, co);
    var id := s.cos[co].data;
    var ctx := s.sctxs[id];
    AbortFields(s, s.(ongoing := s.ongoing - {id}, ongoingNum := s.ongoingNum - 1,
                      sctxs := s.sctxs[id := ctx.(node := false, place := PlaceAborted(ctx.place))],
                      cos := s.cos[co := CoCtx(Dead, false, false, id)],
                      events := s.events + [Event(s.cos[co].run.op, Aborted)]), co);
  }

  lemma DrainProcesses(s: State, decodes: bool)
    requires Inv(s) && s.posted != []
    ensures DrainOne(s, decodes).posted == s.posted[1..] && DrainOne(s, decodes).processed == s.processed + [s.posted[0].origin]
    ensures s.processed + Origins(s.posted) == DrainOne(s, decodes).processed + Origins(s.posted[1..])
  {
    hide Placed, Registry, Handled, Delayed, ConnRefsAgree, Books, Conserved, OwnJobs, Completions, Waiters,
      Attributed, WaiterSound, Owned, LostReason, Wholes, ConnHandled, JobStreams, Transit, DrainOne, Unsettled, Resume, Prepared, Resumed, Take, Origins;
    Head(s);
    if s.posted[0].id in s.ongoing {
      DeliveryAttributed(s, decodes);
      var cause := Delivery(s, decodes);
      DeliverShape(s, decodes);
      PreparedResume(s, cause);
      ResumedKeeps(s, cause);
      TakeKeeps(Resumed(s, s.posted[0].id, false, cause));
    } else {
      DiscardShape(s, decodes);
      TakeKeeps(s);
    }
    OriginsHead(s.posted);
  }

  lemma OriginsHead(xs: seq<CRes>)
    requires xs != []
    ensures Origins(xs) == [xs[0].origin] + Origins(xs[1..])
  {
  }

  lemma TakeKeeps(s: State)
    requires s.posted != []
    ensures Take(s).posted == s.posted[1..] && Take(s).processed == s.processed + [s.posted[0].origin]
  {
  }

  lemma ResumedKeeps(s: State, cause: Cause)
    requires Deliverable(s)
    ensures var s1 := Resumed(s, s.posted[0].id, false, cause); s1.posted == s.posted && s1.processed == s.processed
  {
    hide PlaceAfter, ConnsAfter, Succeeded;
  }

  /** What Lua code can make the library do before it yields: open, use, close and drop handles,
      and kill other coroutines. */
  predicate LuaStep(a: Step) {
    a.DoConnect? || a.DoNewStream? || a.DoNewStreamRefused? || a.DoStreamOp? || a.DoCloseConn? || a.DoFinalizeConn?
    || a.DoCloseStream? || a.DoFinalizeStream? || a.DoAbort?
  }

  /** A registered context with its coroutine waiting. */
  predicate Awaiting(s: State, id: Id) {
    && id in s.ongoing && id in s.sctxs && s.sctxs[id].node && s.sctxs[id].waitCo.Some?
    && s.sctxs[id].waitCo.value in s.cos && s.cos[s.sctxs[id].waitCo.value].run.Waiting?
    && s.cos[s.sctxs[id].waitCo.value].run.op < |s.ops|
    && (s.sctxs[id].typ.Unary? ==> s.sctxs[id].parent in s.conns)
  }

  function Delivered(s: State, x: CRes, decodes: bool): State
    requires Awaiting(s, x.id)
    requires TypeOf(x.word) == TYPE_OK_NOT_RES || (Base8(x.word) in s.heap && x.size <= |s.heap[Base8(x.word)]|)
  {
    var co := s.sctxs[x.id].waitCo.value;
    var val := Unpack(s.heap, x);
    Resume(s.(cos := s.cos[co := s.cos[co].(timer := false, cleanup := false)], heap := s.heap - {Base8(x.word)}),
           x.id, Result(x.origin, val, ClosesOn(s, x.id, val, decodes)))
  }

  /** A coroutine with a timer or a hook waits for a registered context. */
  lemma Waits(s: State, co: Co)
    requires Inv(s) && (CoOf(s, co).timer || CoOf(s, co).cleanup)
    ensures co in s.cos && s.cos[co].run.Waiting? && s.cos[co].run.op < |s.ops|
    ensures var id := s.cos[co].data;
            && id in s.ongoing && id in s.sctxs && s.sctxs[id].node && s.sctxs[id].waitCo == Some(co)
            && (s.sctxs[id].typ.Unary? ==> s.sctxs[id].parent in s.conns)
  {
    hide Placed, Registry, Waiters, Handled, Delayed, ConnRefsAgree, Books, Conserved, OwnJobs, Completions,
      Attributed, Owned, LostReason, Wholes, ConnHandled, JobStreams, WaiterSound, CoOf;
    WaitingKept(s, co);
    Kept(s, s.cos[co].data);
  }

  lemma TimeoutResumes(s: State, co: Co)
    requires co in s.cos && s.cos[co].data in s.sctxs && s.sctxs[s.cos[co].data].waitCo == Some(co)
    ensures var id := s.cos[co].data;
            OpTimeout(s, co) == Resume(s.(
              cos := s.cos[co := s.cos[co].(timer := false, cleanup := false)],
              sctxs := s.sctxs[id := s.sctxs[id].(timedOut := true)]), id, Timeout)
  {
    hide Resume;
    Overwrite(s.cos, co, s.cos[co].(timer := false), s.cos[co].(timer := false, cleanup := false));
  }

  /** Where an aborted operation leaves its context. */
  function PlaceAborted(place: Place): Place {
    if place.InFlight? then Abandoned else if place.Pending? then Lost else place
  }

  lemma AbortFields(s: State, s': State, co: Co)
    requires co in s.cos && s.cos[co].run.Waiting? && s.cos[co].data in s.sctxs && s.sctxs[s.cos[co].data].node
    requires var id := s.cos[co].data;
             var ctx := s.sctxs[id];
             s' == s.(ongoing := s.ongoing - {id}, ongoingNum := s.ongoingNum - 1,
                      sctxs := s.sctxs[id := ctx.(node := false, place := PlaceAborted(ctx.place))],
                      cos := s.cos[co := CoCtx(Dead, false, false, id)],
                      events := s.events + [Event(s.cos[co].run.op, Aborted)])
    ensures s' == Abort(s, co)
  {
  }

  lemma HeadRecord(s: State)
    requires Inv(s) && s.posted != []
    ensures Faithful(s.heap, s.posted[0]) && 0 !in s.heap
    ensures Base8(s.posted[0].word) == 0 || Base8(s.posted[0].word) in s.heap
  {
    hide Placed, Registry, Waiters, Handled, Delayed, ConnRefsAgree, OwnJobs, Completions,
      Attributed, LostReason, Wholes, ConnHandled, JobStreams, WaiterSound, Transit, Books, Conserved, Owned;
    Head(s);
    BufferThere(s.heap, s.posted[0]);
  }

  /** A registered record can be read, and reading it is its delivery. */
  lemma HeadDelivers(s: State, decodes: bool)
    requires Inv(s) && s.posted != [] && s.posted[0].id in s.ongoing
    ensures var x := s.posted[0];
            var s1 := s.(posted := s.posted[1..], processed := s.processed + [x.origin]);
            && (TypeOf(x.word) == TYPE_OK_NOT_RES || (Base8(x.word) in s.heap && x.size <= |s.heap[Base8(x.word)]|))
            && Awaiting(s1, x.id) && DrainOne(s, decodes) == Delivered(s1, x, decodes)
  {
    hide DrainOne, Resume, Inv, Meaning, Faithful, TypeOf, Base8, ClosesOn, Unpack;
    HeadRecord(s);
    FaithfulUnpack(s.heap, s.posted[0]);
    DeliveryAttributed(s, decodes);
    DeliverShape(s, decodes);
    var x := s.posted[0];
    ClosesOnTaken(s, x, decodes);
  }

  lemma ClosesOnTaken(s: State, x: CRes, decodes: bool)
    requires s.posted != [] && x.id in s.sctxs
    ensures ClosesOn(s.(posted := s.posted[1..], processed := s.processed + [x.origin]), x.id, Meaning(x.origin), decodes)
         == ClosesOn(s, x.id, Meaning(x.origin), decodes)
  {
  }

  /** The context awaits operation `j`, and its parent is there if it must return to it. */
  predicate Leaving(m: Memory, id: Id, j: JobId) {
    && id in m.sctxs && m.sctxs[id].node && m.sctxs[id].waitCo.Some? && m.sctxs[id].waitCo.value in m.cos && j < |m.ops|
    && m.cos[m.sctxs[id].waitCo.value].run == Waiting(j)
    && (m.sctxs[id].typ.Unary? ==> m.sctxs[id].parent in m.conns)
  }

  /** Memory after a resume, given what Lua then does to handles and references. */
  function Left(m: Memory, id: Id, j: JobId, cause: Cause, handles: map<Id, bool>, refs: map<Id, JobId>): Memory
    requires Leaving(m, id, j)
  {
    var ctx := m.sctxs[id];
    var co := ctx.waitCo.value;
    m.(sctxs := m.sctxs[id := ctx.(node := false, waitCo := None, place := PlaceAfter(ctx, m.ops[j].op, Succeeded(cause)))],
       conns := ConnsAfter(m.conns, id, ctx), cos := m.cos[co := m.cos[co].(run := Running)],
       events := m.events + [Event(j, cause)], handles := handles, streamRefs := refs)
  }

  lemma LeavingResumes(m: Memory, ongoing: set<Id>, num: int, q: Q.Queue, posted: seq<CRes>, id: Id, cause: Cause,
                       handles: map<Id, bool>, refs: map<Id, JobId>)
    requires id in m.sctxs && m.sctxs[id].waitCo.Some? && m.sctxs[id].waitCo.value in m.cos
    requires m.cos[m.sctxs[id].waitCo.value].run.Waiting? && Leaving(m, id, m.cos[m.sctxs[id].waitCo.value].run.op)
    requires var j := m.cos[m.sctxs[id].waitCo.value].run.op;
             var handed := !m.sctxs[id].typ.Unary? && m.ops[j].op.OpenOp? && Succeeded(cause);
             var closes := cause.Result? && cause.closed && id in m.handles && m.handles[id];
             && handles == (if handed then m.handles[id := true] else if closes then m.handles[id := false] else m.handles)
             && refs == (if closes then m.streamRefs - {id} else m.streamRefs)
    ensures id in Assemble(m, ongoing, num, q, posted).sctxs
    ensures var j := m.cos[m.sctxs[id].waitCo.value].run.op;
            Assemble(Left(m, id, j, cause, handles, refs), ongoing - {id}, num - 1, q, posted) ==
            Resume(Assemble(m, ongoing, num, q, posted), id, cause)
  {
    hide PlaceAfter, ConnsAfter, Succeeded;
  }

  lemma KickAssembled(m: Memory, ongoing: set<Id>, num: int, q: Q.Queue, posted: seq<CRes>, co: Co, id: Id, info: OpInfo, job: Job)
    requires id in m.sctxs && WaiterSound(q, m.active, m.batch)
    ensures var ctx := m.sctxs[id].(node := true, timedOut := false, waitCo := Some(co));
            Assemble(m.(active := true, sctxs := m.sctxs[id := ctx], cos := m.cos[co := CoCtx(Waiting(|m.ops|), true, true, id)],
                        jobs := m.jobs[|m.ops| := job], ops := m.ops + [info]),
                     ongoing + {id}, num + 1, if m.active then q else q.(phase := Q.Queued), posted) ==
            KickOff(Assemble(m, ongoing, num, q, posted), co, id, m.sctxs[id], info, job)
  {
    hide WaiterSound, Schedule;
    var s := Assemble(m, ongoing, num, q, posted);
    ScheduleShape(s.(
      ongoingNum := s.ongoingNum + 1, ongoing := s.ongoing + {id},
      sctxs := s.sctxs[id := m.sctxs[id].(node := true, timedOut := false, waitCo := Some(co))],
      cos := s.cos[co := CoCtx(Waiting(|s.ops|), true, true, id)],
      ops := s.ops + [info], jobs := s.jobs[|s.ops| := job]));
  }

  lemma AssembledJobs(m: Memory, ongoing: set<Id>, num: int, q: Q.Queue, posted: seq<CRes>)
    ensures Assemble(m, ongoing, num, q, posted).jobs == m.jobs
  {
  }

  lemma EndsOpening(m: Memory, ongoing: set<Id>, num: int, q: Q.Queue, posted: seq<CRes>, j: JobId, result: Option<Bytes>)
    requires j in m.jobs && m.jobs[j].op.OpenOp?
    ensures var job := m.jobs[j];
            var m' := m.(streams := m.streams[j := Born(j, job)], streamRefs := m.streamRefs[job.id := j],
                         jobs := m.jobs[j := job.(ran := Some(TaskResult(job.id, result, None, j)))]);
            && j in Assemble(m, ongoing, num, q, posted).jobs
            && Assemble(m', ongoing, num, q, posted) == Machine.RunJob(Assemble(m, ongoing, num, q, posted), j, result, None)
  {
    hide FullWire, Machine.RunJob, Born;
    RunOpenShape(Assemble(m, ongoing, num, q, posted), j, result);
  }

  lemma EndsQuietly(m: Memory, ongoing: set<Id>, num: int, q: Q.Queue, posted: seq<CRes>, j: JobId, result: Option<Bytes>, err: Option<Bytes>)
    requires j in m.jobs && !(m.jobs[j].op.OpenOp? && err.None?)
    ensures var job := m.jobs[j];
            var m' := m.(jobs := m.jobs[j := job.(ran := Some(TaskResult(job.id, result, err, j)))]);
            && j in Assemble(m, ongoing, num, q, posted).jobs
            && Assemble(m', ongoing, num, q, posted) == Machine.RunJob(Assemble(m, ongoing, num, q, posted), j, result, err)
  {
    hide FullWire, Machine.RunJob, Born;
    RunQuietShape(Assemble(m, ongoing, num, q, posted), j, result, err);
  }

  lemma CallsMean(s: State, j: JobId)
    requires j in s.jobs && CallsLeft(s, j) != []
    ensures s.jobs[j].uid in s.streams
  {
  }

  lemma HandleIdle(s: State, r: Req, id: Id)
    requires Inv(s) && id in s.handles
    ensures id in s.sctxs && (StreamReady(s.sctxs[id], r) ==> id !in s.ongoing) && WaiterSound(s.q, s.active, s.batch)
  {
    hide Placed, Registry, Waiters, Handled, Delayed, ConnRefsAgree, Books, Conserved, OwnJobs, Completions,
      Attributed, Owned, LostReason, Wholes, ConnHandled, JobStreams, WaiterSound;
    ReadyIdle(s, id);
  }

  lemma HandleConn(s: State, c: ConnId)
    requires Inv(s) && c in s.connHandles
    ensures c in s.conns
  {
    hide Core;
  }

  lemma StreamNotReady(s: State, co: Co, r: Req, id: Id, op: Op)
    requires id in s.sctxs && !StreamReady(s.sctxs[id], r)
    ensures Machine.StreamOp(s, co, r, id, op) == s
  {
  }

  lemma StreamMissing(s: State, co: Co, r: Req, id: Id, op: Op)
    requires id in s.sctxs && StreamReady(s.sctxs[id], r) && (id !in s.streamRefs || s.streamRefs[id] !in s.streams)
    ensures Machine.StreamOp(s, co, r, id, op) == s.(faults := s.faults + {MissingRef})
  {
  }

  lemma StreamUsed(s: State, co: Co, r: Req, id: Id, op: Op)
    requires id in s.sctxs && StreamReady(s.sctxs[id], r) && id in s.streamRefs && s.streamRefs[id] in s.streams
    ensures var u := s.streamRefs[id];
            var st := s.streams[u];
            Machine.StreamOp(s, co, r, id, op) ==
            KickOff(s.(streams := s.streams[u := st.(kicks := st.kicks + [|s.ops|])]), co, id, s.sctxs[id],
                    OpInfo(id, co, op, CleanId(s, id)), Job(id, op, st.typ, u, None))
  {
    hide CleanId, KickOff;
  }

  lemma StreamOnClosed(s: State, co: Co, r: Req, c: ConnId, typ: StreamType, req: Bytes, alloc: Id)
    requires c in s.conns && s.conns[c].engine.None?
    ensures Machine.NewStream(s, co, r, c, typ, req, alloc) == s
  {
  }

  lemma StreamOnMissing(s: State, co: Co, r: Req, c: ConnId, typ: StreamType, req: Bytes, alloc: Id)
    requires c in s.conns && s.conns[c].engine.Some? && s.conns[c].engine.value !in s.connRefs
    ensures Machine.NewStream(s, co, r, c, typ, req, alloc) == s.(faults := s.faults + {MissingRef})
  {
  }

  lemma Picks(s: State, c: ConnId, alloc: Id)
    requires Inv(s) && c in s.connHandles && s.connHandles[c] && alloc !in s.sctxs
    ensures c in s.conns && s.conns[c].engine.Some? && s.conns[c].engine.value in s.connRefs
    ensures PickCtx(s.conns[c], alloc).0 !in s.ongoing
    ensures s.conns[c].free != [] ==> PickCtx(s.conns[c], alloc).0 in s.sctxs
    ensures WaiterSound(s.q, s.active, s.batch)
  {
    hide Placed, Registry, Waiters, Handled, Delayed, ConnRefsAgree, Books, Conserved, OwnJobs, Completions,
      Attributed, Owned, LostReason, Wholes, ConnHandled, JobStreams, WaiterSound;
    PickedIdle(s, c, alloc);
  }

  /** Writing the zeroed context before the kick-off makes no difference. */
  lemma StreamStarted(s: State, co: Co, r: Req, c: ConnId, typ: StreamType, req: Bytes, alloc: Id, ctx: StreamCtx)
    requires c in s.conns && s.conns[c].engine.Some? && s.conns[c].engine.value in s.connRefs
    requires s.conns[c].free != [] ==> PickCtx(s.conns[c], alloc).0 in s.sctxs
    requires ctx == StreamCtx(Some(r), None, false, false, c, typ, if typ.Unary? then InFlight else Pending)
    ensures var (id, rest) := PickCtx(s.conns[c], alloc);
            var conn := s.conns[c].(free := rest, opening := if typ.Unary? then s.conns[c].opening else [id] + s.conns[c].opening);
            var op := if typ.Unary? then CallOp(req) else OpenOp(req);
            Machine.NewStream(s, co, r, c, typ, req, alloc) ==
            KickOff(s.(conns := s.conns[c := conn], sctxs := s.sctxs[id := ctx]), co, id, ctx,
                    OpInfo(id, co, op, CleanId(s, id)), Job(id, op, typ, |s.ops|, None))
  {
    hide CleanId, Schedule;
    var (id, rest) := PickCtx(s.conns[c], alloc);
    Overwrite(s.sctxs, id, ctx, ctx.(node := true, timedOut := false, waitCo := Some(co)));
  }

  /** Closing keeps the invariant, and what the free queue holds can be freed. */
  lemma CloseInv(s: State, c: ConnId, gc: bool)
    requires Inv(s) && c in s.connHandles && (gc ==> !FrameHolds(s, c))
    ensures c in s.conns && Inv(if gc then FinalizeConn(s, c) else CloseConn(s, c)) && Releasable(s.sctxs, s.conns[c].free)
  {
    hide Core, FrameHolds, FinalizeConn, CloseConn, Releasable;
    CoreParts(s);
    FreeQueueSound(s, c);
    if gc {
      FinalizeConnInv(s, c);
    } else {
      CloseConnInv(s, c);
    }
  }

  lemma UnlinkCases(s: State, c: ConnId)
    requires c in s.conns
    ensures s.conns[c].engine.None? ==> Unlink(s, c) == s
    ensures s.conns[c].engine.Some? ==>
              Unlink(s, c) == s.(connRefs := s.connRefs - {s.conns[c].engine.value}, conns := s.conns[c := s.conns[c].(engine := None)])
  {
    if s.conns[c].engine.None? {
      assert s.conns[c := s.conns[c].(engine := None)] == s.conns;
    }
  }

  lemma CloseShape(s: State, c: ConnId)
    requires c in s.conns
    ensures CloseConn(s, c) == Unlink(s.(connHandles := s.connHandles[c := false]), c)
    ensures var s1 := Unlink(s.(connHandles := s.connHandles - {c}), c);
            && c in s1.conns && s1.conns[c].opening == s.conns[c].opening && s1.conns[c].free == s.conns[c].free && s1.sctxs == s.sctxs
            && FinalizeConn(s, c) == if s1.conns[c].opening != [] then s1.(conns := s1.conns[c := s1.conns[c].(freeDelayed := true)])
                                     else Machine.FreeConn(s1, c)
  {
    hide Machine.FreeConn;
  }

  /** What sits on a free queue is live and listed once. */
  lemma FreeQueueSound(s: State, c: ConnId)
    requires Placed(s.conns, s.sctxs) && c in s.conns
    ensures Releasable(s.sctxs, s.conns[c].free)
  {
    FreeConnShape(s, c);
    assert NoDup(s.conns[c].free);
    hide Placed;
    forall i | 0 <= i < |s.conns[c].free| ensures s.conns[c].free[i] in s.sctxs {
      assert s.conns[c].free[i] in s.conns[c].free;
    }
  }

  lemma CloseStreamKeeps(s: State, id: Id, gc: bool)
    requires Inv(s) && id in s.handles && (gc ==> id !in s.ongoing)
    ensures Inv(if gc then FinalizeStream(s, id) else Machine.CloseStream(s, id))
    ensures id in s.sctxs && s.sctxs[id].place.Held? && s.sctxs[id].parent in s.conns && Placed(s.conns, s.sctxs)
  {
    hide Placed, Registry, Waiters, Handled, Delayed, ConnRefsAgree, Books, Conserved, OwnJobs, Completions,
      Attributed, Owned, LostReason, Wholes, ConnHandled, JobStreams, WaiterSound, FinalizeStream;
    HandleParent(s, id);
    if gc {
      FinalizeStreamInv(s, id);
    } else {
      CloseStreamInv(s, id);
    }
  }

  lemma FreeQueueShelved(s: State, id: Id)
    requires Placed(s.conns, s.sctxs) && id in s.sctxs && s.sctxs[id].parent in s.conns && s.sctxs[id].place.Held?
    ensures var s1 := Shelve(s, id, s.conns[s.sctxs[id].parent].freeDelayed);
            Releasable(s1.sctxs, s1.conns[s.sctxs[id].parent].free)
  {
    hide Placed, Remove, Releasable;
    var c := s.sctxs[id].parent;
    ShelvePlaced(s, id, s.conns[c].freeDelayed);
    FreeQueueSound(Shelve(s, id, s.conns[c].freeDelayed), c);
  }
}
