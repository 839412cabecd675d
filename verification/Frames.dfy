/** Which parts of the state each step leaves alone. */
module Frames {
  import opened Base
  import opened Buffers
  import opened Machine
  import opened Invariants
  import opened Flow
  import opened KickOffs
  import opened Destruction
  import opened Completion
  import opened Draining
  import opened Engine
  import Q = FinishedQueue

  /** Steps of the library and of Lua that start and finish nothing. */
  predicate Aside(a: Step) {
    a.DoConnect? || a.DoNewStreamRefused? || a.DoCloseConn? || a.DoFinalizeConn? || a.DoCloseStream? || a.DoFinalizeStream?
  }

  /** Steps of the queue, its timers and the waiter. */
  predicate Moving(a: Step) {
    a.DoTimerExpire? || a.DoTimerFire? || a.DoWaitStart? || a.DoWaitCheck? || a.DoThreadEvent?
  }

  /** Only connections, contexts, handles and references differ. */
  predicate SamePath(s: State, s': State) {
    s' == s.(conns := s'.conns, sctxs := s'.sctxs, connHandles := s'.connHandles, handles := s'.handles,
             connRefs := s'.connRefs, streamRefs := s'.streamRefs, faults := s'.faults)
  }

  lemma FreeConnFrame(s: State, c: ConnId)
    requires c in s.conns
    ensures FreeConn(s, c) == s.(conns := FreeConn(s, c).conns, sctxs := FreeConn(s, c).sctxs, faults := FreeConn(s, c).faults)
  {
    hide Releasable, Elements;
    if Releasable(s.sctxs, s.conns[c].free) {
      assert FreeConn(s, c) == s.(sctxs := s.sctxs - Elements(s.conns[c].free), conns := s.conns - {c});
    } else {
      assert FreeConn(s, c) == Crash(s, DoubleFree);
    }
  }

  lemma FinalizeConnFrame(s: State, c: ConnId)
    ensures SamePath(s, FinalizeConn(s, c))
  {
    hide FreeConn, Unlink;
    if c in s.conns {
      var s0 := s.(connHandles := s.connHandles - {c});
      UnlinkFrame(s0, c);
      FreeConnFrame(Unlink(s0, c), c);
    } else {
      assert FinalizeConn(s, c) == Crash(s, UseAfterFree);
    }
  }

  lemma UnlinkFrame(s: State, c: ConnId)
    requires c in s.conns
    ensures Unlink(s, c) == s.(conns := Unlink(s, c).conns, connRefs := Unlink(s, c).connRefs) && c in Unlink(s, c).conns
  {
  }

  lemma CloseConnFrame(s: State, c: ConnId)
    ensures SamePath(s, CloseConn(s, c))
  {
    hide Unlink;
    if c in s.conns {
      UnlinkFrame(s.(connHandles := s.connHandles[c := false]), c);
    } else {
      assert CloseConn(s, c) == Crash(s, UseAfterFree);
    }
  }

  lemma FinalizeStreamShape(s: State, id: Id)
    requires id in s.sctxs && s.sctxs[id].parent in s.conns
    ensures var s1 := Shelve(s, id, s.conns[s.sctxs[id].parent].freeDelayed);
            var c := s.sctxs[id].parent;
            FinalizeStream(s, id) == if s1.conns[c].freeDelayed && s1.conns[c].opening == [] then FreeConn(s1, c) else s1
  {
    hide FreeConn, Remove;
  }

  lemma FinalizeStreamFrame(s: State, id: Id)
    ensures SamePath(s, FinalizeStream(s, id))
  {
    if id in s.sctxs && s.sctxs[id].parent in s.conns {
      FinalizeStreamShape(s, id);
      hide FreeConn, Remove, FinalizeStream;
      var c := s.sctxs[id].parent;
      var s1 := Shelve(s, id, s.conns[c].freeDelayed);
      FreeConnFrame(s1, c);
    } else {
      assert FinalizeStream(s, id) == Crash(s, UseAfterFree);
    }
  }

  lemma NewStreamRefusedFrame(s: State, r: Req, c: ConnId, typ: StreamType, alloc: Id)
    requires Inv(s) && c in s.connHandles && s.connHandles[c] && alloc !in s.sctxs
    ensures SamePath(s, NewStreamRefused(s, r, c, typ, alloc))
  {
    hide Placed, Registry, Waiters, Handled, Delayed, ConnRefsAgree, Books, Conserved, OwnJobs, Completions,
      Attributed, WaiterSound, Owned, LostReason, Wholes, ConnHandled, JobStreams, NewStreamRefused;
    PickedIdle(s, c, alloc);
    var (id, rest) := PickCtx(s.conns[c], alloc);
    NewStreamRefusedShape(s, r, c, typ, alloc, id, rest);
  }

  lemma AsideFrame(s: State, a: Step)
    requires Inv(s) && Enabled(s, a) && Aside(a)
    ensures SamePath(s, Apply(s, a)) && Transit(Apply(s, a)) == Transit(s)
  {
    hide NewStream, NewStreamRefused, StreamOp, CloseConn, FinalizeConn, FinalizeStream, RunJob, MakeCall, Report, WaitCheck, ThreadEvent,
      DrainOne, OpTimeout, Abort, FrameHolds, FullWire, FreshPtrs, ResultShape, Transit, Inv, CallsLeft;
    match a {
      case DoNewStreamRefused(_, r, c, typ, alloc) => NewStreamRefusedFrame(s, r, c, typ, alloc);
      case DoCloseConn(c) => CloseConnFrame(s, c);
      case DoFinalizeConn(c) => FinalizeConnFrame(s, c);
      case DoFinalizeStream(id) => FinalizeStreamFrame(s, id);
      case _ =>
    }
    TransitSame(s, Apply(s, a));
  }

  lemma TransitSame(s: State, s': State)
    requires s'.posted == s.posted && s'.batch == s.batch && s'.q.tasks == s.q.tasks
    ensures Transit(s') == Transit(s)
  {
  }

  /** Only the queue, the waiter, the batch, the posted queue and the heap differ. */
  predicate SameBooks(s: State, s': State) {
    s' == s.(q := s'.q, active := s'.active, batch := s'.batch, posted := s'.posted, heap := s'.heap)
  }

  lemma MovingFrame(s: State, a: Step)
    requires Enabled(s, a) && Moving(a) && WaiterSound(s.q, s.active, s.batch)
    ensures Transit(Apply(s, a)) == Transit(s)
    ensures SameBooks(s, Apply(s, a))
  {
    hide NewStream, NewStreamRefused, StreamOp, CloseConn, FinalizeConn, CloseStream, FinalizeStream,
      RunJob, MakeCall, CallsLeft, Report, WaitCheck, ThreadEvent, DrainOne, OpTimeout, Abort, FrameHolds, FullWire, FreshPtrs,
      ResultShape, StoreAll, Transit, Q.Live;
    match a {
      case DoThreadEvent =>
        ThreadEventShape(s);
        ThreadEventTransit(s);
      case DoWaitCheck(ptrs) =>
        WaitCheckShape(s, ptrs);
      case DoTimerExpire(t) =>
        TransitSame(s, s.(q := Q.TimerExpire(s.q, t)));
      case DoTimerFire(t) =>
        TransitSame(s, s.(q := Q.TimerFire(s.q, t)));
      case DoWaitStart =>
        TransitSame(s, s.(q := Q.WaitStart(s.q)));
    }
  }

  lemma ThreadEventShape(s: State)
    requires WaiterSound(s.q, s.active, s.batch) && s.q.phase == Q.Finished
    ensures ThreadEvent(s) == s.(
              posted := s.posted + s.batch, batch := [], active := s.ongoingNum > |s.batch|,
              q := s.q.(phase := if s.ongoingNum > |s.batch| then Q.Queued else Q.Off))
  {
    if s.ongoingNum <= |s.batch| {
      assert ThreadEvent(s) == s.(active := false, q := s.q.(phase := Q.Off), posted := s.posted + s.batch, batch := []);
    } else {
      assert ThreadEvent(s) == Post(s.(active := false, q := s.q.(phase := Q.Off), posted := s.posted + s.batch, batch := []));
    }
  }

  lemma WaitCheckShape(s: State, ptrs: seq<Ptr>)
    requires |ptrs| == |s.q.tasks| && WaiterSound(s.q, s.active, s.batch)
    requires s.q.phase == Q.Entering || s.q.phase == Q.Woken
    ensures !s.q.done ==> WaitCheck(s, ptrs) == s.(q := s.q.(phase := Q.Parked))
    ensures s.q.done ==> WaitCheck(s, ptrs) == s.(
              q := s.q.(done := false, tasks := [], phase := Q.Finished, armed := s.q.armed - {s.q.own}),
              batch := PackAll(s.q.tasks, ptrs), heap := StoreAll(s.heap, s.q.tasks, ptrs))
    ensures Transit(WaitCheck(s, ptrs)) == Transit(s)
  {
    if s.q.done {
      CollectTransit(s, ptrs);
    } else {
      TransitSame(s, s.(q := s.q.(phase := Q.Parked)));
    }
  }

  // ---------------------------------------------------------------- kick-offs

  /** The state after a kick-off, field by field. */
  function Launched(s: State, conns: map<ConnId, Conn>, streams: map<JobId, Stream>,
                    co: Co, id: Id, ctx: StreamCtx, info: OpInfo, job: Job): State
  {
    s.(conns := conns, streams := streams,
       active := true, q := if s.active then s.q else s.q.(phase := Q.Queued),
       ongoingNum := s.ongoingNum + 1, ongoing := s.ongoing + {id}, sctxs := s.sctxs[id := ctx],
       cos := s.cos[co := CoCtx(Waiting(|s.ops|), true, true, id)],
       ops := s.ops + [info], jobs := s.jobs[|s.ops| := job])
  }

  /** What both kinds of kick-off have in common. */
  predicate Launch(s: State, s': State, conns: map<ConnId, Conn>, streams: map<JobId, Stream>,
                   co: Co, id: Id, ctx: StreamCtx, info: OpInfo, job: Job)
  {
    && s' == Launched(s, conns, streams, co, id, ctx, info, job)
    && id !in s.ongoing && CoOf(s, co).run.Running?
    && info == OpInfo(id, co, job.op, CleanId(s, id)) && job.id == id && job.ran.None?
    && ctx.node && ctx.waitCo == Some(co) && !ctx.timedOut
  }

  lemma LaunchTransit(s: State, s': State, conns: map<ConnId, Conn>, streams: map<JobId, Stream>,
                      co: Co, id: Id, ctx: StreamCtx, info: OpInfo, job: Job)
    requires Launch(s, s', conns, streams, co, id, ctx, info, job)
    ensures Transit(s') == Transit(s)
  {
    hide CleanId, Transit;
    TransitSame(s, s');
  }

  /** `new_stream` takes the context at the tail of the free queue, or a new one. */
  predicate Draws(was: map<ConnId, Conn>, conns: map<ConnId, Conn>, c: ConnId, id: Id, alloc: Id) {
    && c in was && c in conns && conns == was[c := conns[c]]
    && conns[c] == was[c].(free := conns[c].free, opening := conns[c].opening)
    && (if was[c].free == [] then id == alloc && conns[c].free == [] else was[c].free == conns[c].free + [id])
  }

  lemma PickDraws(conns: map<ConnId, Conn>, c: ConnId, id: Id, rest: seq<Id>, alloc: Id, conn: Conn)
    requires c in conns && (id, rest) == PickCtx(conns[c], alloc) && conn == conns[c].(free := rest, opening := conn.opening)
    ensures Draws(conns, conns[c := conn], c, id, alloc)
  {
  }

  lemma NewStreamLaunch(s: State, co: Co, r: Req, c: ConnId, typ: StreamType, req: Bytes, alloc: Id)
    returns (conns: map<ConnId, Conn>, id: Id, ctx: StreamCtx, info: OpInfo, job: Job)
    requires Inv(s) && CoOf(s, co).run.Running? && c in s.connHandles && s.connHandles[c] && alloc !in s.sctxs
    ensures Launch(s, NewStream(s, co, r, c, typ, req, alloc), conns, s.streams, co, id, ctx, info, job)
    ensures job == Job(id, if typ.Unary? then CallOp(req) else OpenOp(req), typ, |s.ops|, None)
    ensures ctx == StreamCtx(Some(r), Some(co), false, true, c, typ, if typ.Unary? then InFlight else Pending)
    ensures id in s.sctxs ==> s.sctxs[id].place.Free?
    ensures c in s.conns && Draws(s.conns, conns, c, id, alloc)
  {
    hide Placed, Registry, Waiters, Handled, Delayed, ConnRefsAgree, Books, Conserved, OwnJobs, Completions,
      Attributed, Owned, LostReason, Wholes, ConnHandled, JobStreams, CleanId, NewStream, Schedule, WaiterSound, Transit, PickCtx, Draws;
    PickedIdle(s, c, alloc);
    var (i, rest) := PickCtx(s.conns[c], alloc);
    id := i;
    var conn := s.conns[c].(free := rest, opening := if typ.Unary? then s.conns[c].opening else [id] + s.conns[c].opening);
    conns := s.conns[c := conn];
    ctx := StreamCtx(Some(r), Some(co), false, true, c, typ, if typ.Unary? then InFlight else Pending);
    info := OpInfo(id, co, if typ.Unary? then CallOp(req) else OpenOp(req), CleanId(s, id));
    job := Job(id, info.op, typ, |s.ops|, None);
    PickDraws(s.conns, c, id, rest, alloc, conn);
    NewStreamShape(s, co, r, c, typ, req, alloc, id, rest, conn, ctx, info, job);
    ScheduleLaunched(s, conns, co, id, ctx, info, job);
  }

  lemma ScheduleLaunched(s: State, conns: map<ConnId, Conn>, co: Co, id: Id, ctx: StreamCtx, info: OpInfo, job: Job)
    requires WaiterSound(s.q, s.active, s.batch)
    ensures Schedule(s.(
              conns := conns, ongoingNum := s.ongoingNum + 1, ongoing := s.ongoing + {id},
              sctxs := s.sctxs[id := ctx], cos := s.cos[co := CoCtx(Waiting(|s.ops|), true, true, id)],
              ops := s.ops + [info], jobs := s.jobs[|s.ops| := job]))
         == Launched(s, conns, s.streams, co, id, ctx, info, job)
  {
    hide Schedule, WaiterSound, Transit;
    ScheduleShape(s.(
      conns := conns, ongoingNum := s.ongoingNum + 1, ongoing := s.ongoing + {id},
      sctxs := s.sctxs[id := ctx], cos := s.cos[co := CoCtx(Waiting(|s.ops|), true, true, id)],
      ops := s.ops + [info], jobs := s.jobs[|s.ops| := job]));
  }

  /** A stream method that is neither refused nor fatal. */
  predicate Admitted(s: State, r: Req, id: Id) {
    id in s.sctxs && StreamReady(s.sctxs[id], r) && id in s.streamRefs && s.streamRefs[id] in s.streams
  }

  /** A new job on the stream object registered for `id`. */
  predicate KickedOn(s: State, id: Id, op: Op, streams: map<JobId, Stream>, job: Job) {
    && id in s.streamRefs && s.streamRefs[id] in s.streams
    && var u := s.streamRefs[id];
       && streams == s.streams[u := s.streams[u].(kicks := s.streams[u].kicks + [|s.ops|])]
       && job == Job(id, op, s.streams[u].typ, u, None)
  }

  lemma StreamOpLaunch(s: State, co: Co, r: Req, id: Id, op: Op)
    returns (streams: map<JobId, Stream>, ctx: StreamCtx, info: OpInfo, job: Job)
    requires Inv(s) && CoOf(s, co).run.Running? && id in s.handles && Admitted(s, r, id)
    ensures Launch(s, StreamOp(s, co, r, id, op), s.conns, streams, co, id, ctx, info, job)
    ensures KickedOn(s, id, op, streams, job) && id in s.sctxs && job.op == op
    ensures ctx == s.sctxs[id].(node := true, timedOut := false, waitCo := Some(co)) && ctx.place.Held?
  {
    hide Placed, Registry, Waiters, Handled, Delayed, ConnRefsAgree, Books, Conserved, OwnJobs, Completions,
      Attributed, Owned, LostReason, Wholes, ConnHandled, JobStreams, CleanId, Schedule, WaiterSound, Transit;
    ReadyIdle(s, id);
    var u := s.streamRefs[id];
    var st := s.streams[u];
    streams := s.streams[u := st.(kicks := st.kicks + [|s.ops|])];
    ctx := s.sctxs[id].(node := true, timedOut := false, waitCo := Some(co));
    info := OpInfo(id, co, op, CleanId(s, id));
    job := Job(id, op, st.typ, u, None);
    var s1 := s.(
      streams := streams, ongoingNum := s.ongoingNum + 1, ongoing := s.ongoing + {id},
      sctxs := s.sctxs[id := ctx], cos := s.cos[co := CoCtx(Waiting(|s.ops|), true, true, id)],
      ops := s.ops + [info], jobs := s.jobs[|s.ops| := job]);
    assert StreamOp(s, co, r, id, op) == Schedule(s1);
    ScheduleShape(s1);
  }

  /** Refused and fatal stream methods change nothing but the fault set. */
  lemma StreamOpRefused(s: State, co: Co, r: Req, id: Id, op: Op)
    requires !Admitted(s, r, id)
    ensures StreamOp(s, co, r, id, op) == s.(faults := StreamOp(s, co, r, id, op).faults)
    ensures id in s.sctxs && (StreamReady(s.sctxs[id], r) ==> id in s.streamRefs && s.streamRefs[id] in s.streams)
            ==> StreamOp(s, co, r, id, op) == s
  {
    if id !in s.sctxs {
      assert StreamOp(s, co, r, id, op) == Crash(s, UseAfterFree);
    } else if !StreamReady(s.sctxs[id], r) {
      assert StreamOp(s, co, r, id, op) == s;
    } else {
      assert StreamOp(s, co, r, id, op) == Crash(s, MissingRef);
    }
  }
}
