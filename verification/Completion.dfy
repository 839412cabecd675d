/** Ending an operation - by a result, a timeout or an abort - keeps the invariant. */
module Completion {
  import opened Base
  import opened Buffers
  import opened Machine
  import opened Invariants
  import opened Placement
  import opened Registration
  import opened Flow
  import opened StreamObjects
  import Q = FinishedQueue

  /** What is known about a registered context and the coroutine it names. */
  lemma Kept(s: State, id: Id)
    requires Registry(s.ongoing, s.ongoingNum, s.sctxs) && Waiters(s.ongoing, s.sctxs, s.cos, s.ops)
    requires Placed(s.conns, s.sctxs) && id in s.ongoing
    ensures id in s.sctxs && s.sctxs[id].node && !s.sctxs[id].timedOut && s.sctxs[id].waitCo.Some?
    ensures var ctx, co := s.sctxs[id], s.sctxs[id].waitCo.value;
            && co in s.cos && s.cos[co].run.Waiting? && s.cos[co].timer && s.cos[co].cleanup && s.cos[co].data == id
            && s.cos[co].run.op < |s.ops| && s.ops[s.cos[co].run.op].id == id && s.ops[s.cos[co].run.op].co == co
            && OpFits(s.ops[s.cos[co].run.op].op, ctx.place)
            && (ctx.place.Pending? || ctx.place.InFlight? || ctx.place.Held?)
            && (ctx.typ.Unary? <==> ctx.place.InFlight?)
            && ctx.parent in s.conns
  {
    var co := s.sctxs[id].waitCo.value;
    assert KeptPlace(s.sctxs[id]) && PlacedCtx(s.conns, id, s.sctxs[id]);
    assert CoSound(s.ongoing, s.sctxs, co, s.cos[co], s.ops);
  }

  /** The registry side of any completion. */
  lemma DropRegistry(s: State, id: Id, ctx: StreamCtx, k: CoCtx, cause: Cause)
    requires Registry(s.ongoing, s.ongoingNum, s.sctxs) && Waiters(s.ongoing, s.sctxs, s.cos, s.ops)
    requires Placed(s.conns, s.sctxs)
    requires Completions(s.events, s.cos, s.ops) && OwnJobs(s.cos, s.ops, s.jobs, Transit(s)) && id in s.ongoing
    requires !ctx.node && !ctx.place.Pending? && !ctx.place.InFlight?
    requires !k.run.Waiting? && !k.timer && !k.cleanup
    ensures id in s.sctxs && s.sctxs[id].waitCo.Some? && s.sctxs[id].waitCo.value in s.cos
    ensures s.cos[s.sctxs[id].waitCo.value].run.Waiting?
    ensures Registry(s.ongoing - {id}, s.ongoingNum - 1, s.sctxs[id := ctx])
    ensures var co := s.sctxs[id].waitCo.value;
            && Waiters(s.ongoing - {id}, s.sctxs[id := ctx], s.cos[co := k], s.ops)
            && Completions(s.events + [Event(s.cos[co].run.op, cause)], s.cos[co := k], s.ops)
            && OwnJobs(s.cos[co := k], s.ops, s.jobs, Transit(s))
  {
    Kept(s, id);
    hide Registry, Waiters, Placed, Completions, OwnJobs;
    var co := s.sctxs[id].waitCo.value;
    RegistryDrop(s.ongoing, s.ongoingNum, s.sctxs, id, ctx);
    WaitersDrop(s.ongoing, s.sctxs, s.cos, s.ops, id, ctx, k);
    CompletionsAdd(s.events, s.cos, s.ops, co, k, cause);
    OwnDrop(s.cos, s.ops, s.jobs, Transit(s), co, k);
  }

  /** The library side of a completion by resume. */
  lemma ResumeLib(s: State, id: Id, ctx: StreamCtx, op: Op, ok: bool)
    requires Placed(s.conns, s.sctxs) && Delayed(s.conns, s.sctxs) && ConnRefsAgree(s.conns, s.connRefs)
    requires Handled(s.handles, s.sctxs) && ConnHandled(s.connHandles, s.conns)
    requires id in s.sctxs && ctx.parent == s.sctxs[id].parent && ctx.typ == s.sctxs[id].typ && ctx.parent in s.conns
    requires OpFits(op, s.sctxs[id].place) && (ctx.typ.Unary? <==> s.sctxs[id].place.InFlight?)
    requires s.sctxs[id].place.Pending? || s.sctxs[id].place.InFlight? || s.sctxs[id].place.Held?
    requires ctx.place == PlaceAfter(s.sctxs[id], op, ok)
    ensures var conns' := ConnsAfter(s.conns, id, s.sctxs[id]);
            && Placed(conns', s.sctxs[id := ctx]) && Delayed(conns', s.sctxs[id := ctx]) && ConnRefsAgree(conns', s.connRefs)
            && ConnHandled(s.connHandles, conns')
    ensures op.OpenOp? && ok ==> Handled(s.handles[id := true], s.sctxs[id := ctx])
    ensures !(op.OpenOp? && ok) ==> Handled(s.handles, s.sctxs[id := ctx])
  {
    hide Placed, Delayed, ConnRefsAgree, Handled, ConnHandled;
    DelayedUpdate(s.conns, s.sctxs, id, ctx);
    if ctx.typ.Unary? {
      var p := s.conns[ctx.parent];
      var conn := p.(free := [id] + p.free);
      PlacedReturn(s.conns, s.sctxs, id, ctx);
      DelayedQueue(s.conns, s.sctxs[id := ctx], ctx.parent, conn);
      RefsSame(s.conns, s.connRefs, ctx.parent, conn);
      ConnHandledKeep(s.connHandles, s.conns, ctx.parent, conn);
      HandledUpdate(s.handles, s.sctxs, id, ctx);
    } else {
      PlacedUpdate(s.conns, s.sctxs, id, ctx);
      if op.OpenOp? && ok {
        HandledOpen(s.handles, s.sctxs, id, ctx, true);
      } else if op.OpenOp? {
        HandledUpdate(s.handles, s.sctxs, id, ctx);
      } else {
        HandledKeep(s.handles, s.sctxs, id, ctx);
      }
    }
  }

  lemma DelayedQueue(conns: Conns, sctxs: Ctxs, c: ConnId, conn: Conn)
    requires Delayed(conns, sctxs) && c in conns && conn == conns[c].(free := conn.free)
    ensures Delayed(conns[c := conn], sctxs)
  {
    DelayedFlags(conns, sctxs, c, conn);
  }

  lemma HandledKeep(handles: map<Id, bool>, sctxs: Ctxs, id: Id, ctx: StreamCtx)
    requires Handled(handles, sctxs) && id in sctxs && ctx.place == sctxs[id].place
    ensures Handled(handles, sctxs[id := ctx])
  {
  }

  lemma HandledClose(handles: map<Id, bool>, sctxs: Ctxs, id: Id)
    requires Handled(handles, sctxs) && id in handles
    ensures Handled(handles[id := false], sctxs)
  {
  }

  /** Lost contexts after a resume. */
  lemma ResumeLost(s: State, id: Id, ctx: StreamCtx, op: Op, e: Event)
    requires LostReason(s.sctxs, s.events, s.ops)
    requires id in s.sctxs && e.op < |s.ops| && s.ops[e.op].id == id && s.ops[e.op].op == op
    requires ctx.place == PlaceAfter(s.sctxs[id], op, Succeeded(e.cause)) && !s.sctxs[id].place.Lost?
    ensures LostReason(s.sctxs[id := ctx], s.events + [e], s.ops)
  {
    if ctx.place.Lost? {
      assert FailedOpen([e], s.ops, 0);
      LostAdd(s.sctxs, s.events, s.ops, id, ctx, e);
    } else {
      LostSame(s.sctxs, s.events, s.ops, s.sctxs[id := ctx], s.events + [e], s.ops);
    }
  }

  // ---------------------------------------------------------------- one state for all resumes

  /** A resume seen from the state before the handler ran: the timer and the hook of the
      coroutine are gone, the context is unregistered and released, the event is logged. */
  function Resumed(s: State, id: Id, timedOut: bool, cause: Cause): State
    requires id in s.sctxs && s.sctxs[id].waitCo.Some? && s.sctxs[id].waitCo.value in s.cos
    requires s.cos[s.sctxs[id].waitCo.value].run.Waiting? && s.cos[s.sctxs[id].waitCo.value].run.op < |s.ops|
    requires s.sctxs[id].typ.Unary? ==> s.sctxs[id].parent in s.conns
  {
    var ctx := s.sctxs[id];
    var co := ctx.waitCo.value;
    var j := s.cos[co].run.op;
    var op := s.ops[j].op;
    var handed := !ctx.typ.Unary? && op.OpenOp? && Succeeded(cause);
    var closes := cause.Result? && cause.closed && id in s.handles && s.handles[id];
    s.(ongoingNum := s.ongoingNum - 1, ongoing := s.ongoing - {id},
       sctxs := s.sctxs[id := ctx.(node := false, timedOut := timedOut, waitCo := None, place := PlaceAfter(ctx, op, Succeeded(cause)))],
       conns := ConnsAfter(s.conns, id, ctx),
       cos := s.cos[co := CoCtx(Running, false, false, id)],
       events := s.events + [Event(j, cause)],
       handles := if handed then s.handles[id := true] else if closes then s.handles[id := false] else s.handles,
       streamRefs := if closes then s.streamRefs - {id} else s.streamRefs)
  }

  lemma ResumedInv(s: State, id: Id, timedOut: bool, cause: Cause)
    requires Inv(s) && id in s.ongoing
    requires id in s.sctxs && s.sctxs[id].waitCo.Some? && s.sctxs[id].waitCo.value in s.cos
    requires s.cos[s.sctxs[id].waitCo.value].run.Waiting? && s.cos[s.sctxs[id].waitCo.value].run.op < |s.ops|
    requires cause.Result? ==> AttributedTo(s.cos[s.sctxs[id].waitCo.value].run.op, cause, s.ops, s.reported)
    requires s.sctxs[id].typ.Unary? ==> s.sctxs[id].parent in s.conns
    ensures Inv(Resumed(s, id, timedOut, cause))
  {
    hide Placed, Registry, Waiters, Handled, Delayed, ConnRefsAgree, Books, Conserved, OwnJobs, Completions,
      Attributed, WaiterSound, Owned, LostReason, Wholes, ConnHandled, JobStreams, PlaceAfter, ConnsAfter, Succeeded, AttributedTo;
    Kept(s, id);
    var ctx := s.sctxs[id];
    var co := ctx.waitCo.value;
    var j := s.cos[co].run.op;
    var op := s.ops[j].op;
    var ctx' := ctx.(node := false, timedOut := timedOut, waitCo := None, place := PlaceAfter(ctx, op, Succeeded(cause)));
    var s' := Resumed(s, id, timedOut, cause);
    PlaceAfterFacts(ctx, op, Succeeded(cause));
    DropRegistry(s, id, ctx', CoCtx(Running, false, false, id), cause);
    ResumeLib(s, id, ctx', op, Succeeded(cause));
    ResumeLost(s, id, ctx', op, Event(j, cause));
    AttributedAdd(s.events, s.ops, s.reported, Event(j, cause));
    ConservedSame(s, s');
    StreamsForget(s.jobs, s.streams, s.streamRefs, s.ops, id);
    if cause.Result? && cause.closed && id in s.handles && s.handles[id] && !(op.OpenOp? && Succeeded(cause)) {
      HandledClose(s.handles, s'.sctxs, id);
    }
  }

  lemma PlaceAfterFacts(ctx: StreamCtx, op: Op, ok: bool)
    requires OpFits(op, ctx.place) && (ctx.typ.Unary? <==> ctx.place.InFlight?)
    requires ctx.place.Pending? || ctx.place.InFlight? || ctx.place.Held?
    ensures var p := PlaceAfter(ctx, op, ok); !p.Pending? && !p.InFlight?
  {
  }

  // ---------------------------------------------------------------- timeout

  lemma OpTimeoutShape(s: State, co: Co)
    requires co in s.cos && s.cos[co].run.Waiting? && s.cos[co].run.op < |s.ops|
    requires var id := s.cos[co].data;
             id in s.sctxs && s.sctxs[id].waitCo == Some(co) && s.sctxs[id].node
             && (s.sctxs[id].typ.Unary? ==> s.sctxs[id].parent in s.conns)
    ensures OpTimeout(s, co) == Resumed(s, s.cos[co].data, true, Timeout)
  {
    var id := s.cos[co].data;
    var s' := OpTimeout(s, co);
    assert s'.sctxs == Resumed(s, id, true, Timeout).sctxs;
    assert s'.cos == Resumed(s, id, true, Timeout).cos;
  }

  lemma WaitingKept(s: State, co: Co)
    requires CoOf(s, co).timer || CoOf(s, co).cleanup
    requires Waiters(s.ongoing, s.sctxs, s.cos, s.ops)
    ensures co in s.cos && s.cos[co].run.Waiting? && s.cos[co].data in s.ongoing
    ensures s.cos[co].data in s.sctxs && s.sctxs[s.cos[co].data].waitCo == Some(co)
  {
    assert co in s.cos && CoSound(s.ongoing, s.sctxs, co, s.cos[co], s.ops);
  }

  lemma OpTimeoutInv(s: State, co: Co)
    requires Inv(s) && CoOf(s, co).timer
    ensures Inv(OpTimeout(s, co))
  {
    hide Placed, Registry, Waiters, Handled, Delayed, ConnRefsAgree, Books, Conserved, OwnJobs, Completions,
      Attributed, WaiterSound, Owned, LostReason, Wholes, ConnHandled, JobStreams, OpTimeout, Resumed;
    WaitingKept(s, co);
    Kept(s, s.cos[co].data);
    OpTimeoutShape(s, co);
    ResumedInv(s, s.cos[co].data, true, Timeout);
  }

  // ---------------------------------------------------------------- abort

  lemma AbortLib(s: State, id: Id, ctx: StreamCtx)
    requires Placed(s.conns, s.sctxs) && Delayed(s.conns, s.sctxs) && Handled(s.handles, s.sctxs)
    requires id in s.sctxs && ctx.parent == s.sctxs[id].parent && ctx.typ == s.sctxs[id].typ
    requires var p := s.sctxs[id].place;
             ctx.place == if p.InFlight? then Abandoned else if p.Pending? then Lost else p
    ensures Placed(s.conns, s.sctxs[id := ctx]) && Delayed(s.conns, s.sctxs[id := ctx])
    ensures Handled(s.handles, s.sctxs[id := ctx])
  {
    hide Placed, Delayed, Handled;
    PlacedUpdate(s.conns, s.sctxs, id, ctx);
    DelayedUpdate(s.conns, s.sctxs, id, ctx);
    if ctx.place == s.sctxs[id].place {
      HandledKeep(s.handles, s.sctxs, id, ctx);
    } else {
      HandledUpdate(s.handles, s.sctxs, id, ctx);
    }
  }

  lemma AbortInv(s: State, co: Co)
    requires Inv(s) && CoOf(s, co).cleanup
    ensures Inv(Abort(s, co))
  {
    hide Placed, Registry, Waiters, Handled, Delayed, ConnRefsAgree, Books, Conserved, OwnJobs, Completions,
      Attributed, WaiterSound, Owned, LostReason, Wholes, ConnHandled, JobStreams;
    WaitingKept(s, co);
    var id := s.cos[co].data;
    Kept(s, id);
    var j := s.cos[co].run.op;
    var ctx := s.sctxs[id];
    var ctx' := ctx.(node := false, place := if ctx.place.InFlight? then Abandoned else if ctx.place.Pending? then Lost else ctx.place);
    DropRegistry(s, id, ctx', CoCtx(Dead, false, false, id), Aborted);
    AbortLib(s, id, ctx');
    if ctx'.place.Lost? {
      assert FailedOpen([Event(j, Aborted)], s.ops, 0);
      LostAdd(s.sctxs, s.events, s.ops, id, ctx', Event(j, Aborted));
    } else {
      LostSame(s.sctxs, s.events, s.ops, s.sctxs[id := ctx'], s.events + [Event(j, Aborted)], s.ops);
    }
    AttributedAdd(s.events, s.ops, s.reported, Event(j, Aborted));
    ConservedSame(s, Abort(s, co));
  }
}
