/** Starting an operation keeps the invariant. */
module KickOffs {
  import opened Base
  import opened Buffers
  import opened Machine
  import opened Invariants
  import opened Placement
  import opened Registration
  import opened Flow
  import opened StreamObjects
  import Q = FinishedQueue

  // ---------------------------------------------------------------- kick-offs

  /** The registry side of any kick-off on a context nobody is registered for. */
  lemma KickRegistry(s: State, co: Co, id: Id, ctx: StreamCtx, info: OpInfo)
    requires Registry(s.ongoing, s.ongoingNum, s.sctxs) && Waiters(s.ongoing, s.sctxs, s.cos, s.ops)
    requires Completions(s.events, s.cos, s.ops)
    requires id !in s.ongoing && CoOf(s, co).run.Running?
    requires ctx.node && ctx.waitCo == Some(co) && !ctx.timedOut
    requires (ctx.place.Pending? || ctx.place.InFlight? || ctx.place.Held?)
    requires info.id == id && info.co == co && OpFits(info.op, ctx.place)
    ensures Registry(s.ongoing + {id}, s.ongoingNum + 1, s.sctxs[id := ctx])
    ensures var cos' := s.cos[co := CoCtx(Waiting(|s.ops|), true, true, id)];
            && Waiters(s.ongoing + {id}, s.sctxs[id := ctx], cos', s.ops + [info])
            && Completions(s.events, cos', s.ops + [info])
  {
    RegistryKeep(s.ongoing, s.ongoingNum, s.sctxs, id, ctx);
    WaitersArm(s.ongoing, s.sctxs, s.cos, s.ops, id, co, ctx, info);
    CompletionsArm(s.events, s.cos, s.ops, co, CoCtx(Waiting(|s.ops|), true, true, id), info);
  }

  /** The engine side of any kick-off. */
  lemma KickBooks(s: State, co: Co, id: Id, info: OpInfo, job: Job)
    requires Waiters(s.ongoing, s.sctxs, s.cos, s.ops) && Books(s.jobs, s.ops, s.reported) && Conserved(s)
    requires OwnJobs(s.cos, s.ops, s.jobs, Transit(s)) && Attributed(s.events, s.ops, s.reported)
    requires id !in s.ongoing && info.id == id && (info.clean ==> CleanId(s, id))
    requires job.id == id && job.op == info.op && job.ran.None? && (job.op.OpenOp? ==> !job.typ.Unary?)
    ensures Books(s.jobs[|s.ops| := job], s.ops + [info], s.reported)
    ensures var cos' := s.cos[co := CoCtx(Waiting(|s.ops|), true, true, id)];
            OwnJobs(cos', s.ops + [info], s.jobs[|s.ops| := job], Transit(s))
    ensures Attributed(s.events, s.ops + [info], s.reported)
  {
    BooksKick(s.jobs, s.ops, s.reported, info, job);
    AttributedGrow(s.events, s.ops, s.reported, s.ops + [info], s.reported);
    var transit := Transit(s);
    forall i | 0 <= i < |transit| ensures transit[i].job < |s.ops| {
      assert s.reported[|s.processed| + i] == transit[i];
    }
    forall x | x in s.cos && x != co && s.cos[x].run.Waiting?
      ensures s.cos[x].run.op < |s.ops| && s.ops[s.cos[x].run.op].id != id
    {
      assert CoSound(s.ongoing, s.sctxs, x, s.cos[x], s.ops);
    }
    OwnArm(s.cos, s.ops, s.jobs, transit, co, CoCtx(Waiting(|s.ops|), true, true, id), info, job);
  }

  /** What `new_stream` can rely on when its Lua handle is open. */
  lemma PickedIdle(s: State, c: ConnId, alloc: Id)
    requires Placed(s.conns, s.sctxs) && Registry(s.ongoing, s.ongoingNum, s.sctxs)
    requires ConnHandled(s.connHandles, s.conns) && ConnRefsAgree(s.conns, s.connRefs)
    requires c in s.connHandles && s.connHandles[c] && alloc !in s.sctxs
    ensures c in s.conns
    ensures var (id, rest) := PickCtx(s.conns[c], alloc);
            && Picked(s.conns, s.sctxs, c, id, rest, alloc)
            && id !in s.ongoing && (s.conns[c].free != [] ==> id in s.sctxs)
            && (id in s.sctxs ==> s.sctxs[id].place.Free?)
    ensures s.conns[c].engine.Some? && s.conns[c].engine.value in s.connRefs && !s.conns[c].freeDelayed
  {
    var (id, rest) := PickCtx(s.conns[c], alloc);
    PickedFacts(s.conns, s.sctxs, c, id, rest, alloc);
  }

  /** The library side of a kick-off by `new_stream`. */
  lemma PickLib(s: State, c: ConnId, id: Id, rest: seq<Id>, alloc: Id, conn: Conn, ctx: StreamCtx)
    requires Placed(s.conns, s.sctxs) && Delayed(s.conns, s.sctxs) && ConnRefsAgree(s.conns, s.connRefs)
    requires Handled(s.handles, s.sctxs)
    requires ConnHandled(s.connHandles, s.conns)
    requires Picked(s.conns, s.sctxs, c, id, rest, alloc) && !s.conns[c].freeDelayed
    requires s.conns[c].engine.Some? && (id in s.sctxs ==> s.sctxs[id].place.Free?)
    requires ctx.parent == c && conn == s.conns[c].(free := conn.free, opening := conn.opening)
    requires (ctx.place.InFlight? && ctx.typ.Unary? && conn.opening == s.conns[c].opening && conn.free == rest)
             || (ctx.place.Pending? && !ctx.typ.Unary? && conn.opening == [id] + s.conns[c].opening && conn.free == rest)
             || (ctx.place.Free? && conn.opening == s.conns[c].opening && conn.free == [id] + rest)
    ensures Placed(s.conns[c := conn], s.sctxs[id := ctx])
    ensures Delayed(s.conns[c := conn], s.sctxs[id := ctx])
    ensures ConnRefsAgree(s.conns[c := conn], s.connRefs)
    ensures Handled(s.handles, s.sctxs[id := ctx])
    ensures ConnHandled(s.connHandles, s.conns[c := conn])
  {
    hide Placed, ConnRefsAgree, Delayed, Handled, ConnHandled;
    ConnHandledKeep(s.connHandles, s.conns, c, conn);
    PlacedPick(s.conns, s.sctxs, c, id, rest, alloc, conn, ctx);
    HandledUpdate(s.handles, s.sctxs, id, ctx);
    DelayedFlags(s.conns, s.sctxs, c, conn);
    DelayedUpdate(s.conns[c := conn], s.sctxs, id, ctx);
    RefsSame(s.conns, s.connRefs, c, conn);
  }

  lemma NewStreamShape(s: State, co: Co, r: Req, c: ConnId, typ: StreamType, req: Bytes, alloc: Id,
                       id: Id, rest: seq<Id>, conn: Conn, ctx: StreamCtx, info: OpInfo, job: Job)
    requires c in s.conns && s.conns[c].engine.Some? && s.conns[c].engine.value in s.connRefs
    requires (id, rest) == PickCtx(s.conns[c], alloc) && (s.conns[c].free != [] ==> id in s.sctxs)
    requires conn == s.conns[c].(free := rest, opening := if typ.Unary? then s.conns[c].opening else [id] + s.conns[c].opening)
    requires ctx == StreamCtx(Some(r), Some(co), false, true, c, typ, if typ.Unary? then InFlight else Pending)
    requires info == OpInfo(id, co, if typ.Unary? then CallOp(req) else OpenOp(req), CleanId(s, id))
    requires job == Job(id, info.op, typ, |s.ops|, None)
    ensures NewStream(s, co, r, c, typ, req, alloc) == Schedule(s.(
              conns := s.conns[c := conn], ongoingNum := s.ongoingNum + 1, ongoing := s.ongoing + {id},
              sctxs := s.sctxs[id := ctx], cos := s.cos[co := CoCtx(Waiting(|s.ops|), true, true, id)],
              ops := s.ops + [info], jobs := s.jobs[|s.ops| := job]))
  {
    hide CleanId, Schedule;
    var zeroed := StreamCtx(Some(r), None, false, false, c, typ, if typ.Unary? then InFlight else Pending);
    assert NewStream(s, co, r, c, typ, req, alloc) == KickOff(s.(conns := s.conns[c := conn]), co, id, zeroed, info, job);
  }

  /** Every part of a kick-off that touches the result path or the stream objects nowhere else. */
  lemma KickCore(s: State, s': State, co: Co, id: Id, ctx: StreamCtx, info: OpInfo, job: Job, conns: map<ConnId, Conn>, streams: map<JobId, Stream>)
    requires Core(s) && id !in s.ongoing && CoOf(s, co).run.Running?
    requires ctx.node && ctx.waitCo == Some(co) && !ctx.timedOut && OpFits(info.op, ctx.place)
    requires ctx.place.Pending? || ctx.place.InFlight? || ctx.place.Held?
    requires info == OpInfo(id, co, job.op, CleanId(s, id)) && job.id == id && job.ran.None? && (job.op.OpenOp? ==> !job.typ.Unary?)
    requires Placed(conns, s.sctxs[id := ctx]) && Delayed(conns, s.sctxs[id := ctx]) && ConnRefsAgree(conns, s.connRefs)
    requires Handled(s.handles, s.sctxs[id := ctx])
    requires JobStreams(s.jobs[|s.ops| := job], streams, s.streamRefs, s.ops + [info])
    requires Wholes(streams, s.jobs[|s.ops| := job], s.reported, s.ops + [info])
    requires s' == Schedule(s.(
               conns := conns, streams := streams, ongoingNum := s.ongoingNum + 1, ongoing := s.ongoing + {id},
               sctxs := s.sctxs[id := ctx], cos := s.cos[co := CoCtx(Waiting(|s.ops|), true, true, id)],
               ops := s.ops + [info], jobs := s.jobs[|s.ops| := job]))
    ensures Core(s') && s'.conns == conns && s'.connHandles == s.connHandles
  {
    hide Placed, Registry, Waiters, Handled, Delayed, ConnRefsAgree, Books, Conserved, OwnJobs, Completions,
      Attributed, WaiterSound, Owned, LostReason, Wholes, JobStreams, CleanId, Schedule;
    KickRegistry(s, co, id, ctx, info);
    KickBooks(s, co, id, info, job);
    LostSame(s.sctxs, s.events, s.ops, s.sctxs[id := ctx], s.events, s.ops + [info]);
    var s1 := s.(
      conns := conns, streams := streams, ongoingNum := s.ongoingNum + 1, ongoing := s.ongoing + {id},
      sctxs := s.sctxs[id := ctx], cos := s.cos[co := CoCtx(Waiting(|s.ops|), true, true, id)],
      ops := s.ops + [info], jobs := s.jobs[|s.ops| := job]);
    ScheduleShape(s1);
    ConservedSame(s, Schedule(s1));
  }

  lemma NewStreamInv(s: State, co: Co, r: Req, c: ConnId, typ: StreamType, req: Bytes, alloc: Id)
    requires Inv(s) && CoOf(s, co).run.Running? && c in s.connHandles && s.connHandles[c] && alloc !in s.sctxs
    ensures Inv(NewStream(s, co, r, c, typ, req, alloc))
  {
    hide Placed, Registry, Waiters, Handled, Delayed, ConnRefsAgree, Books, Conserved, OwnJobs, Completions,
      Attributed, WaiterSound, Owned, LostReason, Wholes, ConnHandled, JobStreams, CleanId, NewStream, Schedule;
    PickedIdle(s, c, alloc);
    var (id, rest) := PickCtx(s.conns[c], alloc);
    var conn := s.conns[c].(free := rest, opening := if typ.Unary? then s.conns[c].opening else [id] + s.conns[c].opening);
    var ctx := StreamCtx(Some(r), Some(co), false, true, c, typ, if typ.Unary? then InFlight else Pending);
    var info := OpInfo(id, co, if typ.Unary? then CallOp(req) else OpenOp(req), CleanId(s, id));
    var job := Job(id, info.op, typ, |s.ops|, None);
    PickLib(s, c, id, rest, alloc, conn, ctx);
    KickPlain(s.jobs, s.streams, s.streamRefs, s.ops, info, job);
    WholesKick(s.streams, s.jobs, s.reported, s.ops, info, job, s.streams);
    NewStreamShape(s, co, r, c, typ, req, alloc, id, rest, conn, ctx, info, job);
    KickCore(s, NewStream(s, co, r, c, typ, req, alloc), co, id, ctx, info, job, s.conns[c := conn], s.streams);
  }

  lemma NewStreamRefusedShape(s: State, r: Req, c: ConnId, typ: StreamType, alloc: Id, id: Id, rest: seq<Id>)
    requires c in s.conns && s.conns[c].engine.Some?
    requires (id, rest) == PickCtx(s.conns[c], alloc) && (s.conns[c].free != [] ==> id in s.sctxs)
    ensures NewStreamRefused(s, r, c, typ, alloc) == s.(
              conns := s.conns[c := s.conns[c].(free := [id] + rest)],
              sctxs := s.sctxs[id := StreamCtx(Some(r), None, false, false, c, typ, Free)])
  {
  }

  lemma NewStreamRefusedInv(s: State, r: Req, c: ConnId, typ: StreamType, alloc: Id)
    requires Inv(s) && c in s.connHandles && s.connHandles[c] && alloc !in s.sctxs
    ensures Inv(NewStreamRefused(s, r, c, typ, alloc))
  {
    hide Placed, Registry, Waiters, Handled, Delayed, ConnRefsAgree, Books, Conserved, OwnJobs, Completions,
      Attributed, WaiterSound, Owned, LostReason, Wholes, ConnHandled, JobStreams, NewStreamRefused;
    PickedIdle(s, c, alloc);
    var (id, rest) := PickCtx(s.conns[c], alloc);
    var conn := s.conns[c].(free := [id] + rest);
    var ctx := StreamCtx(Some(r), None, false, false, c, typ, Free);
    PickLib(s, c, id, rest, alloc, conn, ctx);
    NewStreamRefusedShape(s, r, c, typ, alloc, id, rest);
    IdleCore(s, id, ctx, s.conns[c := conn]);
  }

  /** An unregistered context may change as long as placement and handles agree. */
  lemma IdleCore(s: State, id: Id, ctx: StreamCtx, conns: map<ConnId, Conn>)
    requires Core(s) && id !in s.ongoing && !ctx.node && ctx.place.Free?
    requires Placed(conns, s.sctxs[id := ctx]) && Delayed(conns, s.sctxs[id := ctx]) && ConnRefsAgree(conns, s.connRefs)
    requires Handled(s.handles, s.sctxs[id := ctx])
    ensures Core(s.(conns := conns, sctxs := s.sctxs[id := ctx]))
  {
    hide Placed, Registry, Waiters, Handled, Delayed, ConnRefsAgree, Books, Conserved, OwnJobs, Completions,
      Attributed, WaiterSound, Owned, LostReason, Wholes, JobStreams;
    RegistryIdle(s.ongoing, s.ongoingNum, s.sctxs, id, ctx);
    WaitersIdleAt(s, id, ctx);
    LostSame(s.sctxs, s.events, s.ops, s.sctxs[id := ctx], s.events, s.ops);
    ConservedSame(s, s.(conns := conns, sctxs := s.sctxs[id := ctx]));
  }

  lemma WaitersIdleAt(s: State, id: Id, ctx: StreamCtx)
    requires Waiters(s.ongoing, s.sctxs, s.cos, s.ops) && id !in s.ongoing
    ensures Waiters(s.ongoing, s.sctxs[id := ctx], s.cos, s.ops)
  {
    WaitersIdle(s.ongoing, s.sctxs, s.cos, s.ops, s.sctxs[id := ctx]);
  }

  /** What a stream method can rely on when its Lua handle is open and the context is ready. */
  lemma ReadyIdle(s: State, id: Id)
    requires Handled(s.handles, s.sctxs) && Waiters(s.ongoing, s.sctxs, s.cos, s.ops) && id in s.handles
    ensures id in s.sctxs && s.sctxs[id].place.Held?
    ensures s.sctxs[id].waitCo.None? ==> id !in s.ongoing
  {
  }

  /** A held context may change anything but its place, parent and type. */
  lemma HeldUpdate(s: State, id: Id, ctx: StreamCtx)
    requires Placed(s.conns, s.sctxs) && Delayed(s.conns, s.sctxs) && Handled(s.handles, s.sctxs)
    requires id in s.sctxs && s.sctxs[id].place.Held?
    requires ctx.parent == s.sctxs[id].parent && ctx.typ == s.sctxs[id].typ && ctx.place.Held?
    ensures Placed(s.conns, s.sctxs[id := ctx]) && Delayed(s.conns, s.sctxs[id := ctx])
    ensures Handled(s.handles, s.sctxs[id := ctx])
  {
    hide Placed, Delayed;
    PlacedUpdate(s.conns, s.sctxs, id, ctx);
    DelayedUpdate(s.conns, s.sctxs, id, ctx);
  }

  lemma StreamOpInv(s: State, co: Co, r: Req, id: Id, op: Op)
    requires Inv(s) && CoOf(s, co).run.Running? && id in s.handles && StreamJob(op)
    ensures Inv(StreamOp(s, co, r, id, op))
  {
    hide Placed, Registry, Waiters, Handled, Delayed, ConnRefsAgree, Books, Conserved, OwnJobs, Completions,
      Attributed, WaiterSound, Owned, LostReason, Wholes, ConnHandled, JobStreams, CleanId, Schedule;
    ReadyIdle(s, id);
    ConservedSame(s, Crash(s, MissingRef));
    ConservedSame(s, s);
    if StreamReady(s.sctxs[id], r) && id in s.streamRefs && s.streamRefs[id] in s.streams {
      var u := s.streamRefs[id];
      var st := s.streams[u];
      var ctx := s.sctxs[id].(node := true, timedOut := false, waitCo := Some(co));
      var info := OpInfo(id, co, op, CleanId(s, id));
      var job := Job(id, op, st.typ, u, None);
      var streams := s.streams[u := st.(kicks := st.kicks + [|s.ops|])];
      KickOnStream(s.jobs, s.streams, s.streamRefs, s.ops, info, job, id);
      WholesKick(s.streams, s.jobs, s.reported, s.ops, info, job, streams);
      HeldUpdate(s, id, ctx);
      KickCore(s, StreamOp(s, co, r, id, op), co, id, ctx, info, job, s.conns, streams);
    }
  }
}
