/** Ending operations keeps runs orderly, and orderly runs never miss a reference. */
module OrderlyCompletion {
  import opened Base
  import opened Buffers
  import opened Machine
  import opened Invariants
  import opened Flow
  import opened Completion
  import opened Draining
  import opened Engine
  import opened Frames
  import opened Reachability
  import opened Undisturbed
  import opened Orderly
  import opened OrderlyLibrary
  import opened OrderlyKickOff
  import opened OrderlyEngine
  import Q = FinishedQueue

  /** Everything awaited after one coroutine stopped waiting was awaited before, on another id. */
  lemma AwaitedDrop(s: State, id: Id, k: CoCtx, j: JobId)
    requires Waiters(s.ongoing, s.sctxs, s.cos, s.ops) && id in s.ongoing && !k.run.Waiting? && j < |s.ops|
    requires id in s.sctxs && s.sctxs[id].waitCo.Some?
    ensures Awaited(s.cos[s.sctxs[id].waitCo.value := k], s.ops, j) ==>
              Awaited(s.cos, s.ops, j) && s.ops[j].id != id
    ensures Awaited(s.cos, s.ops, j) && s.ops[j].id != id ==> Awaited(s.cos[s.sctxs[id].waitCo.value := k], s.ops, j)
  {
    if Awaited(s.cos, s.ops, j) {
      assert CoSound(s.ongoing, s.sctxs, s.ops[j].co, s.cos[s.ops[j].co], s.ops);
    }
  }

  lemma LatestDrop(s: State, id: Id, k: CoCtx)
    requires Latest(s.cos, s.ops) && Waiters(s.ongoing, s.sctxs, s.cos, s.ops) && id in s.ongoing && !k.run.Waiting?
    requires id in s.sctxs && s.sctxs[id].waitCo.Some?
    ensures Latest(s.cos[s.sctxs[id].waitCo.value := k], s.ops)
  {
    var cos' := s.cos[s.sctxs[id].waitCo.value := k];
    forall j, m | 0 <= j < m < |s.ops| && Awaited(cos', s.ops, j) ensures s.ops[m].id != s.ops[j].id {
      AwaitedDrop(s, id, k, j);
    }
  }

  /** The operation that ends is the only outstanding one under its id; if its opening is still
      outstanding its context must be lost. */
  lemma OpensDrop(s: State, id: Id, k: CoCtx, j: JobId, ctx: StreamCtx, transit: Results)
    requires Opens(s.ops, s.jobs, Transit(s), s.cos, s.sctxs) && OnePerId(s.ops, s.jobs, Transit(s))
    requires Latest(s.cos, s.ops) && Waiters(s.ongoing, s.sctxs, s.cos, s.ops) && id in s.ongoing && !k.run.Waiting?
    requires id in s.sctxs && s.sctxs[id].waitCo.Some?
    requires j < |s.ops| && s.ops[j].id == id && Awaited(s.cos, s.ops, j)
    requires forall m :: Unsettled(s.jobs, transit, m) ==> Unsettled(s.jobs, Transit(s), m)
    requires s.ops[j].op.OpenOp? && Unsettled(s.jobs, transit, j) ==> ctx.place.Lost?
    ensures Opens(s.ops, s.jobs, transit, s.cos[s.sctxs[id].waitCo.value := k], s.sctxs[id := ctx])
  {
    hide Transit, Waiters, Unsettled, Awaited;
    var cos', sctxs' := s.cos[s.sctxs[id].waitCo.value := k], s.sctxs[id := ctx];
    forall m | 0 <= m < |s.ops| && s.ops[m].op.OpenOp? && Unsettled(s.jobs, transit, m)
      ensures Awaited(cos', s.ops, m) || (s.ops[m].id in sctxs' && sctxs'[s.ops[m].id].place.Lost?)
    {
      AwaitedDrop(s, id, k, m);
      if s.ops[m].id == id {
        assert m == j;
      }
    }
  }

  lemma StoredDrop(s: State, id: Id, k: CoCtx, ctx: StreamCtx, transit: Results, refs: Refs)
    requires Stored(s.ops, s.jobs, Transit(s), s.cos, s.sctxs, s.streamRefs, s.streams)
    requires Books(s.jobs, s.ops, s.reported)
    requires Waiters(s.ongoing, s.sctxs, s.cos, s.ops) && id in s.ongoing && !k.run.Waiting?
    requires id in s.sctxs && s.sctxs[id].waitCo.Some?
    requires forall t :: t in transit ==> t in Transit(s)
    requires forall x :: x in s.streamRefs && x != id ==> x in refs && refs[x] == s.streamRefs[x]
    ensures Stored(s.ops, s.jobs, transit, s.cos[s.sctxs[id].waitCo.value := k], s.sctxs[id := ctx], refs, s.streams)
  {
    hide Transit, Waiters, Awaited, Books;
    var cos', sctxs' := s.cos[s.sctxs[id].waitCo.value := k], s.sctxs[id := ctx];
    forall j | j in s.jobs && j < |s.ops| && s.jobs[j].op.OpenOp? && Awaited(cos', s.ops, j)
      ensures s.jobs[j].id in sctxs' && sctxs'[s.jobs[j].id].typ == s.jobs[j].typ
    {
      AwaitedDrop(s, id, k, j);
      BookedId(s, j);
    }
    forall t | Known(s.jobs, transit, t) && t.job < |s.ops| && s.ops[t.job].op.OpenOp? && Awaited(cos', s.ops, t.job) && t.err.None?
      ensures StoredAs(s.ops[t.job].id, t.job, sctxs', refs, s.streams)
    {
      AwaitedDrop(s, id, k, t.job);
      assert Known(s.jobs, Transit(s), t);
      assert StoredAs(s.ops[t.job].id, t.job, s.sctxs, s.streamRefs, s.streams);
    }
  }

  lemma BookedId(s: State, j: JobId)
    requires Books(s.jobs, s.ops, s.reported) && j in s.jobs
    ensures j < |s.ops| && s.jobs[j].id == s.ops[j].id && s.jobs[j].op == s.ops[j].op
  {
    assert JobSound(j, s.jobs[j], s.ops);
  }

  /** An end that gives no handle and closes none. */
  lemma ResolvesDrop(handles: map<Id, bool>, sctxs: Ctxs, refs: Refs, streams: Streams, id: Id, ctx: StreamCtx)
    requires Resolves(handles, sctxs, refs, streams) && id in sctxs && ctx.typ == sctxs[id].typ
    ensures Resolves(handles, sctxs[id := ctx], refs, streams)
  {
    forall x | x in handles && handles[x] ensures x in refs && StoredAs(x, refs[x], sctxs[id := ctx], refs, streams) {
      assert StoredAs(x, refs[x], sctxs, refs, streams);
    }
  }

  lemma ResolvesOpen(handles: map<Id, bool>, sctxs: Ctxs, refs: Refs, streams: Streams, id: Id, ctx: StreamCtx)
    requires Resolves(handles, sctxs, refs, streams) && id in refs && StoredAs(id, refs[id], sctxs, refs, streams)
    requires ctx.typ == sctxs[id].typ
    ensures Resolves(handles[id := true], sctxs[id := ctx], refs, streams)
  {
    forall x | x in handles[id := true] && handles[id := true][x]
      ensures x in refs && StoredAs(x, refs[x], sctxs[id := ctx], refs, streams)
    {
      assert StoredAs(x, refs[x], sctxs, refs, streams);
    }
  }

  lemma ResolvesClose(handles: map<Id, bool>, sctxs: Ctxs, refs: Refs, streams: Streams, id: Id, ctx: StreamCtx)
    requires Resolves(handles, sctxs, refs, streams) && id in sctxs && ctx.typ == sctxs[id].typ
    ensures Resolves(handles[id := false], sctxs[id := ctx], refs - {id}, streams)
  {
    forall x | x in handles[id := false] && handles[id := false][x]
      ensures x in refs - {id} && StoredAs(x, (refs - {id})[x], sctxs[id := ctx], refs - {id}, streams)
    {
      assert StoredAs(x, refs[x], sctxs, refs, streams);
    }
  }

  /** An ordinary end closes nothing. */
  lemma ClosingAdd(events: seq<Event>, ops: seq<OpInfo>, streams: Streams, refs: Refs, e: Event)
    requires Closing(events, ops, streams, refs) && !(e.cause.Result? && e.cause.closed)
    ensures Closing(events + [e], ops, streams, refs)
  {
    var events' := events + [e];
    forall u, i, n | u in streams && 0 <= n < |streams[u].kicks| && ClosedBy(events', i, streams[u].kicks[n])
      ensures n == |streams[u].kicks| - 1 && Unreferenced(refs, u)
    {
      assert ClosedBy(events, i, streams[u].kicks[n]);
    }
  }

  /** The end of a successful `recv_close`. */
  lemma ClosingLast(s: State, e: Event, refs: Refs)
    requires Closing(s.events, s.ops, s.streams, s.streamRefs)
    requires Latest(s.cos, s.ops) && JobStreams(s.jobs, s.streams, s.streamRefs, s.ops)
    requires e.cause.Result? && e.cause.val.LuaValue? && e.cause.val.ok
    requires e.op < |s.ops| && s.ops[e.op].op.RecvOp? && Awaited(s.cos, s.ops, e.op)
    requires s.ops[e.op].id !in refs && forall x :: x in refs ==> x in s.streamRefs && refs[x] == s.streamRefs[x]
    ensures Closing(s.events + [e], s.ops, s.streams, refs)
  {
    var events' := s.events + [e];
    forall u, i, n | u in s.streams && 0 <= n < |s.streams[u].kicks| && ClosedBy(events', i, s.streams[u].kicks[n])
      ensures n == |s.streams[u].kicks| - 1 && Unreferenced(refs, u)
    {
      if i < |s.events| {
        assert ClosedBy(s.events, i, s.streams[u].kicks[n]);
      } else {
        if n + 1 < |s.streams[u].kicks| {
          KickSuperseded(s, u, n);
          assert false;
        }
        assert StreamSound(u, s.streams[u], s.ops);
      }
    }
  }

  /** A job followed by another on its stream is no longer awaited. */
  lemma KickSuperseded(s: State, u: JobId, n: nat)
    requires Latest(s.cos, s.ops) && JobStreams(s.jobs, s.streams, s.streamRefs, s.ops)
    requires u in s.streams && n + 1 < |s.streams[u].kicks| && s.streams[u].kicks[n] < |s.ops|
    ensures !Awaited(s.cos, s.ops, s.streams[u].kicks[n])
  {
    var st := s.streams[u];
    assert StreamSound(u, st, s.ops);
    assert st.kicks[n] < st.kicks[n + 1];
    assert s.ops[st.kicks[n + 1]].id == s.ops[st.kicks[n]].id;
  }

  // ---------------------------------------------------------------- whole ends

  /** Any end of the operation `j` that coroutine `co` awaits on `id`. */
  ghost predicate Ended(s: State, s': State, id: Id, j: JobId, k: CoCtx, ctx: StreamCtx, e: Event) {
    && id in s.ongoing && id in s.sctxs && s.sctxs[id].waitCo.Some?
    && j < |s.ops| && s.ops[j].id == id && Awaited(s.cos, s.ops, j) && !k.run.Waiting? && e.op == j
    && s'.ops == s.ops && s'.jobs == s.jobs && s'.streams == s.streams && s'.reported == s.reported
    && s'.cos == s.cos[s.sctxs[id].waitCo.value := k] && s'.sctxs == s.sctxs[id := ctx]
    && s'.events == s.events + [e] && s'.faults == s.faults && ctx.typ == s.sctxs[id].typ
  }

  lemma EndOrder(s: State, s': State, id: Id, j: JobId, k: CoCtx, ctx: StreamCtx, e: Event)
    requires Inv(s) && OrderInv(s) && Ended(s, s', id, j, k, ctx, e)
    requires forall m :: Unsettled(s.jobs, Transit(s'), m) ==> Unsettled(s.jobs, Transit(s), m)
    requires forall t :: t in Transit(s') ==> t in Transit(s)
    requires s.ops[j].op.OpenOp? && Unsettled(s.jobs, Transit(s'), j) ==> ctx.place.Lost?
    requires forall x :: x in s.streamRefs && x != id ==> x in s'.streamRefs && s'.streamRefs[x] == s.streamRefs[x]
    requires Resolves(s'.handles, s'.sctxs, s'.streamRefs, s.streams)
    requires Closing(s'.events, s.ops, s.streams, s'.streamRefs)
    ensures OrderInv(s')
  {
    hide Placed, Registry, Waiters, Handled, Delayed, ConnRefsAgree, Books, Conserved, OwnJobs, Completions,
      Attributed, WaiterSound, Owned, LostReason, Wholes, ConnHandled, JobStreams, Transit, Unsettled, Awaited,
      OnePerId, Latest, Opens, Stored, Resolves, Closing;
    LatestDrop(s, id, k);
    OpensDrop(s, id, k, j, ctx, Transit(s'));
    StoredDrop(s, id, k, ctx, Transit(s'), s'.streamRefs);
    SettleOnePer(s, Transit(s'));
  }

  lemma SettleOnePer(s: State, transit: Results)
    requires OnePerId(s.ops, s.jobs, Transit(s))
    requires forall m :: Unsettled(s.jobs, transit, m) ==> Unsettled(s.jobs, Transit(s), m)
    ensures OnePerId(s.ops, s.jobs, transit)
  {
    hide Transit, Unsettled;
  }

  /** The operation awaited on a registered id. */
  lemma AwaitedOn(s: State, id: Id)
    requires Inv(s) && id in s.ongoing
    ensures id in s.sctxs && s.sctxs[id].waitCo.Some? && s.sctxs[id].waitCo.value in s.cos
    ensures s.cos[s.sctxs[id].waitCo.value].run.Waiting?
    ensures var j := s.cos[s.sctxs[id].waitCo.value].run.op;
            && j < |s.ops| && s.ops[j].id == id && Awaited(s.cos, s.ops, j)
            && (s.sctxs[id].typ.Unary? ==> s.sctxs[id].parent in s.conns)
            && OpFits(s.ops[j].op, s.sctxs[id].place) && (s.sctxs[id].typ.Unary? <==> s.sctxs[id].place.InFlight?)
  {
    hide Handled, Delayed, ConnRefsAgree, Books, Conserved, OwnJobs, Completions,
      Attributed, WaiterSound, Owned, LostReason, Wholes, ConnHandled, JobStreams, Placed, Registry, Waiters;
    Kept(s, id);
  }

  lemma OpTimeoutOrder(s: State, co: Co)
    requires Inv(s) && OrderInv(s) && CoOf(s, co).timer
    ensures OrderInv(OpTimeout(s, co))
  {
    hide Placed, Registry, Waiters, Handled, Delayed, ConnRefsAgree, Books, Conserved, OwnJobs, Completions,
      Attributed, WaiterSound, Owned, LostReason, Wholes, ConnHandled, JobStreams, Transit, Unsettled, Awaited, OpTimeout,
      OnePerId, Latest, Opens, Stored, Resolves, Closing, ConnsAfter;
    WaitingKept(s, co);
    var id := s.cos[co].data;
    Kept(s, id);
    AwaitedOn(s, id);
    OpTimeoutShape(s, co);
    var j := s.cos[co].run.op;
    var s' := OpTimeout(s, co);
    var ctx := s'.sctxs[id];
    TransitSame(s, s');
    ResolvesDrop(s.handles, s.sctxs, s.streamRefs, s.streams, id, ctx);
    ClosingAdd(s.events, s.ops, s.streams, s.streamRefs, Event(j, Timeout));
    EndOrder(s, s', id, j, CoCtx(Running, false, false, id), ctx, Event(j, Timeout));
  }

  lemma AbortOrder(s: State, co: Co)
    requires Inv(s) && OrderInv(s) && CoOf(s, co).cleanup
    ensures OrderInv(Abort(s, co))
  {
    hide Placed, Registry, Waiters, Handled, Delayed, ConnRefsAgree, Books, Conserved, OwnJobs, Completions,
      Attributed, WaiterSound, Owned, LostReason, Wholes, ConnHandled, JobStreams, Transit, Unsettled, Awaited,
      OnePerId, Latest, Opens, Stored, Resolves, Closing;
    WaitingKept(s, co);
    var id := s.cos[co].data;
    Kept(s, id);
    AwaitedOn(s, id);
    var j := s.cos[co].run.op;
    var s' := Abort(s, co);
    var ctx := s'.sctxs[id];
    TransitSame(s, s');
    ResolvesDrop(s.handles, s.sctxs, s.streamRefs, s.streams, id, ctx);
    ClosingAdd(s.events, s.ops, s.streams, s.streamRefs, Event(j, Aborted));
    EndOrder(s, s', id, j, CoCtx(Dead, false, false, id), ctx, Event(j, Aborted));
  }

  // ---------------------------------------------------------------- draining

  /** Handles and references after a delivery. */
  lemma DeliveryResolves(s: State, id: Id, cause: Cause)
    requires Inv(s) && OrderInv(s) && id in s.ongoing && Deliverable(s) && id == s.posted[0].id && cause.Result?
    requires var j := s.cos[s.sctxs[id].waitCo.value].run.op;
             && AttributedTo(j, cause, s.ops, s.reported)
             && (cause.closed ==> s.ops[j].op.RecvOp? && s.sctxs[id].typ.ClientStream? && cause.val.LuaValue? && cause.val.ok)
    requires cause.origin in Transit(s)
    ensures var s' := Resumed(s, id, false, cause);
            && Resolves(s'.handles, s'.sctxs, s'.streamRefs, s.streams)
            && Closing(s'.events, s.ops, s.streams, s'.streamRefs)
  {
    hide Placed, Registry, Waiters, Handled, Delayed, ConnRefsAgree, Books, Conserved, OwnJobs, Completions,
      Attributed, WaiterSound, Owned, LostReason, Wholes, ConnHandled, JobStreams, Transit, Unsettled, Awaited,
      OnePerId, Latest, Opens, Stored, Resolves, Closing, ConnsAfter;
    AwaitedOn(s, id);
    var j := s.cos[s.sctxs[id].waitCo.value].run.op;
    var s' := Resumed(s, id, false, cause);
    var ctx := s'.sctxs[id];
    var e := Event(j, cause);
    assert s.ops[j].clean;
    if s.ops[j].op.OpenOp? && Succeeded(cause) {
      OpenedStored(s, cause.origin);
      ResolvesOpen(s.handles, s.sctxs, s.streamRefs, s.streams, id, ctx);
      ClosingAdd(s.events, s.ops, s.streams, s.streamRefs, e);
    } else if cause.closed {
      HeldHandle(s, id);
      if s.handles[id] {
        ResolvesClose(s.handles, s.sctxs, s.streamRefs, s.streams, id, ctx);
      } else {
        ResolvesDrop(s.handles, s.sctxs, s.streamRefs, s.streams, id, ctx);
        ClosedUnresolved(s, id);
      }
      ClosingLast(s, e, s'.streamRefs);
    } else {
      ResolvesDrop(s.handles, s.sctxs, s.streamRefs, s.streams, id, ctx);
      ClosingAdd(s.events, s.ops, s.streams, s.streamRefs, e);
    }
  }

  lemma OpenedStored(s: State, t: TaskResult)
    requires Stored(s.ops, s.jobs, Transit(s), s.cos, s.sctxs, s.streamRefs, s.streams)
    requires t in Transit(s) && t.job < |s.ops| && s.ops[t.job].op.OpenOp? && Awaited(s.cos, s.ops, t.job) && t.err.None?
    ensures var id := s.ops[t.job].id; id in s.streamRefs && StoredAs(id, s.streamRefs[id], s.sctxs, s.streamRefs, s.streams)
  {
    hide Transit;
    assert Known(s.jobs, Transit(s), t);
  }

  lemma HeldHandle(s: State, id: Id)
    requires Inv(s) && id in s.ongoing && id in s.sctxs && s.sctxs[id].waitCo.Some? && s.sctxs[id].waitCo.value in s.cos
    requires s.cos[s.sctxs[id].waitCo.value].run.Waiting? && s.cos[s.sctxs[id].waitCo.value].run.op < |s.ops|
    requires s.ops[s.cos[s.sctxs[id].waitCo.value].run.op].op.RecvOp?
    ensures id in s.handles
  {
    hide Delayed, ConnRefsAgree, Books, Conserved, OwnJobs, Completions,
      Attributed, WaiterSound, Owned, LostReason, Wholes, ConnHandled, JobStreams, Placed, Registry, Waiters;
    Kept(s, id);
  }

  lemma ClosedUnresolved(s: State, id: Id)
    requires Resolves(s.handles, s.sctxs, s.streamRefs, s.streams) && id in s.handles && !s.handles[id]
    ensures id !in s.streamRefs
  {
  }

  /** The head record is the operation's own, and nothing of it remains outstanding. */
  lemma DeliverOrder(s: State, decodes: bool)
    requires Inv(s) && OrderInv(s) && s.posted != [] && s.posted[0].id in s.ongoing
    ensures OrderInv(DrainOne(s, decodes))
  {
    hide Placed, Registry, Waiters, Handled, Delayed, ConnRefsAgree, Books, Conserved, OwnJobs, Completions,
      Attributed, WaiterSound, Owned, LostReason, Wholes, ConnHandled, JobStreams, Transit, Unsettled, Awaited, DrainOne, Resume, Prepared,
      OnePerId, Latest, Opens, Stored, Resolves, Closing, Resumed, Take, Meaning;
    var x := s.posted[0];
    Head(s);
    AwaitedOn(s, x.id);
    DeliveryAttributed(s, decodes);
    var cause := Delivery(s, decodes);
    DeliverShape(s, decodes);
    PreparedResume(s, cause);
    TakeResumedFrame(s, cause);
    var s1 := Resumed(s, x.id, false, cause);
    var s' := Take(s1);
    var j := s.cos[s.sctxs[x.id].waitCo.value].run.op;
    assert s.ops[j].clean;
    HeadSettled(s);
    DeliveryResolves(s, x.id, cause);
    DeliveredFields(s, cause);
    forall m ensures Unsettled(s.jobs, Transit(s'), m) ==> Unsettled(s.jobs, Transit(s), m) {
      UnsettledHead(s.jobs, x.origin, Transit(Take(s)), m);
    }
    EndOrder(s, s', x.id, j, CoCtx(Running, false, false, x.id), s'.sctxs[x.id], Event(j, cause));
  }

  lemma DeliveredFields(s: State, cause: Cause)
    requires Deliverable(s)
    ensures var id := s.posted[0].id;
            var s1 := Resumed(s, id, false, cause);
            var s' := Take(s1);
            && id in s'.sctxs && s'.sctxs == s.sctxs[id := s'.sctxs[id]] && s'.sctxs[id].typ == s.sctxs[id].typ
            && s'.events == s.events + [Event(s.cos[s.sctxs[id].waitCo.value].run.op, cause)]
            && s'.handles == s1.handles && s'.streamRefs == s1.streamRefs && s'.faults == s.faults && s'.reported == s.reported
            && s'.sctxs == s1.sctxs && s'.events == s1.events
            && (forall y :: y in s.streamRefs && y != id ==> y in s'.streamRefs && s'.streamRefs[y] == s.streamRefs[y])
  {
    hide PlaceAfter, ConnsAfter, Succeeded;
  }

  lemma DiscardOrder(s: State, decodes: bool)
    requires Inv(s) && OrderInv(s) && s.posted != [] && s.posted[0].id !in s.ongoing
    ensures OrderInv(DrainOne(s, decodes))
  {
    hide Placed, Registry, Waiters, Handled, Delayed, ConnRefsAgree, Books, Conserved, OwnJobs, Completions,
      Attributed, WaiterSound, Owned, LostReason, Wholes, ConnHandled, JobStreams, Transit, Unsettled, DrainOne,
      OnePerId, Latest, Opens, Stored, Resolves, Closing;
    Head(s);
    DiscardShape(s, decodes);
    var s' := Take(s);
    forall m ensures Unsettled(s.jobs, Transit(s'), m) ==> Unsettled(s.jobs, Transit(s), m) {
      UnsettledHead(s.jobs, s.posted[0].origin, Transit(s'), m);
    }
    SettleOrder(s, s.jobs, Transit(s'));
    StoredDiscard(s, Transit(s'));
  }

  lemma StoredDiscard(s: State, transit: Results)
    requires Stored(s.ops, s.jobs, Transit(s), s.cos, s.sctxs, s.streamRefs, s.streams)
    requires forall t :: t in transit ==> t in Transit(s)
    ensures Stored(s.ops, s.jobs, transit, s.cos, s.sctxs, s.streamRefs, s.streams)
  {
    hide Transit;
    forall t | Known(s.jobs, transit, t) ensures Known(s.jobs, Transit(s), t) {
    }
  }

  // ---------------------------------------------------------------- every step, every run

  lemma MovingOrder(s: State, a: Step)
    requires Inv(s) && OrderInv(s) && Enabled(s, a) && Moving(a)
    ensures OrderInv(Apply(s, a))
  {
    hide Placed, Registry, Waiters, Handled, Delayed, ConnRefsAgree, Books, Conserved, OwnJobs, Completions,
      Attributed, WaiterSound, Owned, LostReason, Wholes, ConnHandled, JobStreams, Transit, Apply, Enabled,
      OnePerId, Latest, Opens, Stored, Resolves, Closing;
    MovingFrame(s, a);
  }

  lemma OrderStep(s: State, a: Step)
    requires Inv(s) && OrderInv(s) && Enabled(s, a) && AllClean(Apply(s, a).ops)
    ensures OrderInv(Apply(s, a))
  {
    hide Inv, OrderInv, NewStream, NewStreamRefused, StreamOp, CloseConn, FinalizeConn, CloseStream, FinalizeStream,
      RunJob, MakeCall, CallsLeft, Report, WaitCheck, ThreadEvent, DrainOne, OpTimeout, Abort, Offers,
      FrameHolds, FullWire, FreshPtrs, Q.TimerExpire, Q.TimerFire, Q.WaitStart, ResultShape, AllClean;
    if Aside(a) {
      AsideOrder(s, a);
    } else if Moving(a) {
      MovingOrder(s, a);
    } else {
      match a {
        case DoNewStream(co, r, c, typ, req, alloc) => NewStreamOrder(s, co, r, c, typ, req, alloc);
        case DoStreamOp(co, r, id, op) =>
          HandleOffers(s, id, op);
          StreamOpOrder(s, co, r, id, op);
        case DoCall(j) => MakeCallOrder(s, j);
        case DoRunJob(j, result, err) => RunJobOrder(s, j, result, err);
        case DoReport(j) => ReportOrder(s, j);
        case DoDrainOne(decodes) =>
          if s.posted[0].id in s.ongoing {
            DeliverOrder(s, decodes);
          } else {
            DiscardOrder(s, decodes);
          }
        case DoOpTimeout(co) => OpTimeoutOrder(s, co);
        case DoAbort(co) => AbortOrder(s, co);
        case _ =>
      }
    }
  }
}
