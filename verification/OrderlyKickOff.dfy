/** Starting an operation under a clean id keeps runs orderly. */
module OrderlyKickOff {
  import opened Base
  import opened Buffers
  import opened Machine
  import opened Invariants
  import opened Flow
  import opened KickOffs
  import opened Frames
  import opened Undisturbed
  import opened Orderly
  import opened OrderlyLibrary
  import Q = FinishedQueue

  lemma OnePerLaunch(ops: seq<OpInfo>, jobs: Jobs, transit: Results, info: OpInfo, job: Job)
    requires OnePerId(ops, jobs, transit)
    requires forall i :: 0 <= i < |transit| ==> transit[i].job < |ops|
    requires forall j :: 0 <= j < |ops| && ops[j].id == info.id ==> !Unsettled(jobs, transit, j)
    ensures OnePerId(ops + [info], jobs[|ops| := job], transit)
  {
    var ops', jobs' := ops + [info], jobs[|ops| := job];
    forall j, k | 0 <= j < k < |ops'| && ops'[j].id == ops'[k].id ensures !Unsettled(jobs', transit, j) {
      assert !Unsettled(jobs, transit, j);
    }
  }

  lemma LatestLaunch(s: State, co: Co, k: CoCtx, info: OpInfo)
    requires Latest(s.cos, s.ops) && Waiters(s.ongoing, s.sctxs, s.cos, s.ops)
    requires info.id !in s.ongoing && info.co == co && k.run == Waiting(|s.ops|)
    ensures Latest(s.cos[co := k], s.ops + [info])
  {
    var ops', cos' := s.ops + [info], s.cos[co := k];
    forall j, m | 0 <= j < m < |ops'| && Awaited(cos', ops', j) ensures ops'[m].id != ops'[j].id {
      assert ops'[j] == s.ops[j];
      assert Awaited(s.cos, s.ops, j);
      assert CoSound(s.ongoing, s.sctxs, s.ops[j].co, s.cos[s.ops[j].co], s.ops);
    }
  }

  /** Operations other than the new one are awaited after a kick-off exactly as before. */
  lemma AwaitedLaunch(cos: Cos, ops: seq<OpInfo>, co: Co, k: CoCtx, info: OpInfo, j: JobId)
    requires (co in cos ==> cos[co].run.Running?) && k.run == Waiting(|ops|) && j < |ops|
    ensures Awaited(cos[co := k], ops + [info], j) <==> Awaited(cos, ops, j)
  {
  }

  lemma OpensLaunch(ops: seq<OpInfo>, jobs: Jobs, transit: Results, cos: Cos, sctxs: Ctxs,
                    co: Co, k: CoCtx, info: OpInfo, job: Job, ctx: StreamCtx)
    requires Opens(ops, jobs, transit, cos, sctxs)
    requires (co in cos ==> cos[co].run.Running?) && k.run == Waiting(|ops|) && info.co == co
    requires info.id in sctxs ==> !sctxs[info.id].place.Lost?
    ensures Opens(ops + [info], jobs[|ops| := job], transit, cos[co := k], sctxs[info.id := ctx])
  {
    var ops', jobs', cos', sctxs' := ops + [info], jobs[|ops| := job], cos[co := k], sctxs[info.id := ctx];
    forall j | 0 <= j < |ops'| && ops'[j].op.OpenOp? && Unsettled(jobs', transit, j)
      ensures Awaited(cos', ops', j) || (ops'[j].id in sctxs' && sctxs'[ops'[j].id].place.Lost?)
    {
      if j < |ops| {
        assert Unsettled(jobs, transit, j);
        AwaitedLaunch(cos, ops, co, k, info, j);
      }
    }
  }

  lemma StoredLaunch(s: State, co: Co, k: CoCtx, info: OpInfo, job: Job, ctx: StreamCtx, streams: Streams)
    requires Stored(s.ops, s.jobs, Transit(s), s.cos, s.sctxs, s.streamRefs, s.streams)
    requires Waiters(s.ongoing, s.sctxs, s.cos, s.ops) && Handled(s.handles, s.sctxs) && Books(s.jobs, s.ops, s.reported)
    requires Conserved(s)
    requires CoOf(s, co).run.Running? && k.run == Waiting(|s.ops|) && info.co == co && info.id !in s.ongoing
    requires job.id == info.id && job.op == info.op && job.ran.None? && (job.op.OpenOp? ==> job.typ == ctx.typ)
    requires forall u :: u in s.streams ==> u in streams && streams[u].typ == s.streams[u].typ
    ensures Stored(s.ops + [info], s.jobs[|s.ops| := job], Transit(s), s.cos[co := k], s.sctxs[info.id := ctx], s.streamRefs, streams)
  {
    TransitUnique(s);
    hide Transit, Conserved;
    var ops', jobs', cos', sctxs' := s.ops + [info], s.jobs[|s.ops| := job], s.cos[co := k], s.sctxs[info.id := ctx];
    forall j | j in jobs' && j < |ops'| && jobs'[j].op.OpenOp? && Awaited(cos', ops', j)
      ensures jobs'[j].id in sctxs' && sctxs'[jobs'[j].id].typ == jobs'[j].typ
    {
      if j < |s.ops| {
        AwaitedLaunch(s.cos, s.ops, co, k, info, j);
        assert JobSound(j, s.jobs[j], s.ops);
        PendingUnhandled(s, j);
      }
    }
    forall t | Known(jobs', Transit(s), t) && t.job < |ops'| && ops'[t.job].op.OpenOp? && Awaited(cos', ops', t.job) && t.err.None?
      ensures StoredAs(ops'[t.job].id, t.job, sctxs', s.streamRefs, streams)
    {
      assert t.job < |s.ops|;
      AwaitedLaunch(s.cos, s.ops, co, k, info, t.job);
      assert Known(s.jobs, Transit(s), t);
      PendingUnhandled(s, t.job);
      assert StoredAs(s.ops[t.job].id, t.job, s.sctxs, s.streamRefs, s.streams);
    }
  }

  lemma ResolvesLaunch(handles: map<Id, bool>, sctxs: Ctxs, refs: Refs, streams: Streams, id: Id, ctx: StreamCtx, streams': Streams)
    requires Resolves(handles, sctxs, refs, streams)
    requires id in handles ==> id in sctxs && ctx.typ == sctxs[id].typ
    requires forall u :: u in streams ==> u in streams' && streams'[u].typ == streams[u].typ
    ensures Resolves(handles, sctxs[id := ctx], refs, streams')
  {
    forall x | x in handles && handles[x]
      ensures x in refs && StoredAs(x, refs[x], sctxs[id := ctx], refs, streams')
    {
      assert StoredAs(x, refs[x], sctxs, refs, streams);
    }
  }

  lemma ClosingPlain(s: State, info: OpInfo)
    requires Closing(s.events, s.ops, s.streams, s.streamRefs)
    ensures Closing(s.events, s.ops + [info], s.streams, s.streamRefs)
  {
  }

  lemma ClosingKick(s: State, id: Id, op: Op, streams: Streams, job: Job, info: OpInfo)
    requires Closing(s.events, s.ops, s.streams, s.streamRefs) && KickedOn(s, id, op, streams, job)
    requires Completions(s.events, s.cos, s.ops)
    ensures Closing(s.events, s.ops + [info], streams, s.streamRefs)
  {
    var u0 := s.streamRefs[id];
    forall u, i, n | u in streams && 0 <= n < |streams[u].kicks| && ClosedBy(s.events, i, streams[u].kicks[n])
      ensures n == |streams[u].kicks| - 1 && Unreferenced(s.streamRefs, u)
    {
      assert streams[u].kicks[n] < |s.ops|;
      assert n < |s.streams[u].kicks| && ClosedBy(s.events, i, s.streams[u].kicks[n]);
      assert u != u0;
    }
  }

  // ---------------------------------------------------------------- both kick-offs

  /** The part common to both kick-offs. */
  lemma LaunchOrder(s: State, s': State, conns: map<ConnId, Conn>, streams: Streams,
                    co: Co, id: Id, ctx: StreamCtx, info: OpInfo, job: Job)
    requires Inv(s) && OrderInv(s) && Launch(s, s', conns, streams, co, id, ctx, info, job) && info.clean
    requires id in s.sctxs ==> !s.sctxs[id].place.Lost?
    requires job.op.OpenOp? ==> job.typ == ctx.typ
    requires id in s.handles ==> id in s.sctxs && ctx.typ == s.sctxs[id].typ
    requires forall u :: u in s.streams ==> u in streams && streams[u].typ == s.streams[u].typ
    requires Closing(s.events, s'.ops, streams, s.streamRefs)
    ensures OrderInv(s')
  {
    hide Placed, Registry, Waiters, Handled, Delayed, ConnRefsAgree, Books, Conserved, OwnJobs, Completions,
      Attributed, WaiterSound, Owned, LostReason, Wholes, ConnHandled, JobStreams, Transit, Launched,
      OnePerId, Latest, Opens, Stored, Resolves, Closing;
    LaunchTransit(s, s', conns, streams, co, id, ctx, info, job);
    LaunchFields(s, s', conns, streams, co, id, ctx, info, job);
    TransitUnique(s);
    OnePerLaunch(s.ops, s.jobs, Transit(s), info, job);
    var k := CoCtx(Waiting(|s.ops|), true, true, id);
    LatestLaunch(s, co, k, info);
    OpensLaunch(s.ops, s.jobs, Transit(s), s.cos, s.sctxs, co, k, info, job, ctx);
    StoredLaunch(s, co, k, info, job, ctx, streams);
    ResolvesLaunch(s.handles, s.sctxs, s.streamRefs, s.streams, id, ctx, streams);
  }

  lemma LaunchFields(s: State, s': State, conns: map<ConnId, Conn>, streams: Streams,
                     co: Co, id: Id, ctx: StreamCtx, info: OpInfo, job: Job)
    requires s' == Launched(s, conns, streams, co, id, ctx, info, job)
    ensures s'.ops == s.ops + [info] && s'.jobs == s.jobs[|s.ops| := job] && s'.sctxs == s.sctxs[id := ctx]
    ensures s'.cos == s.cos[co := CoCtx(Waiting(|s.ops|), true, true, id)] && s'.streams == streams
    ensures s'.handles == s.handles && s'.streamRefs == s.streamRefs && s'.events == s.events
    ensures s'.reported == s.reported && s'.faults == s.faults
  {
  }

  lemma NewStreamOrder(s: State, co: Co, r: Req, c: ConnId, typ: StreamType, req: Bytes, alloc: Id)
    requires Inv(s) && OrderInv(s)
    requires CoOf(s, co).run.Running? && c in s.connHandles && s.connHandles[c] && alloc !in s.sctxs
    requires AllClean(NewStream(s, co, r, c, typ, req, alloc).ops)
    ensures OrderInv(NewStream(s, co, r, c, typ, req, alloc))
  {
    hide Placed, Registry, Waiters, Handled, Delayed, ConnRefsAgree, Books, Conserved, OwnJobs, Completions,
      Attributed, WaiterSound, Owned, LostReason, Wholes, ConnHandled, JobStreams, Transit, Launched, NewStream,
      OnePerId, Latest, Opens, Stored, Resolves, Closing;
    var conns, id, ctx, info, job := NewStreamLaunch(s, co, r, c, typ, req, alloc);
    var s' := NewStream(s, co, r, c, typ, req, alloc);
    LaunchFields(s, s', conns, s.streams, co, id, ctx, info, job);
    assert s'.ops[|s.ops|] == info;
    ClosingPlain(s, info);
    FreeUnhandled(s, id);
    LaunchOrder(s, s', conns, s.streams, co, id, ctx, info, job);
  }

  lemma FreeUnhandled(s: State, id: Id)
    requires Handled(s.handles, s.sctxs) && (id in s.sctxs ==> s.sctxs[id].place.Free?)
    ensures id !in s.handles
  {
  }

  lemma StreamOpOrder(s: State, co: Co, r: Req, id: Id, op: Op)
    requires Inv(s) && OrderInv(s) && CoOf(s, co).run.Running? && id in s.handles && s.handles[id] && StreamJob(op)
    requires AllClean(StreamOp(s, co, r, id, op).ops)
    ensures OrderInv(StreamOp(s, co, r, id, op))
  {
    hide Placed, Registry, Waiters, Handled, Delayed, ConnRefsAgree, Books, Conserved, OwnJobs, Completions,
      Attributed, WaiterSound, Owned, LostReason, Wholes, ConnHandled, JobStreams, Transit, Launched, StreamOp, CleanId,
      OnePerId, Latest, Opens, Stored, Resolves, Closing, KickedOn;
    ReadyIdle(s, id);
    HandleResolves(s, id);
    if Admitted(s, r, id) {
      var streams, ctx, info, job := StreamOpLaunch(s, co, r, id, op);
      var s' := StreamOp(s, co, r, id, op);
      LaunchFields(s, s', s.conns, streams, co, id, ctx, info, job);
      assert s'.ops[|s.ops|] == info;
      ClosingKick(s, id, op, streams, job, info);
      KickedTypes(s, id, op, streams, job);
      LaunchOrder(s, s', s.conns, streams, co, id, ctx, info, job);
    } else {
      StreamOpRefused(s, co, r, id, op);
      assert StreamOp(s, co, r, id, op) == s;
    }
  }

  /** An open handle finds its stream object, of the type the handle was made for. */
  lemma HandleResolves(s: State, id: Id)
    requires Resolves(s.handles, s.sctxs, s.streamRefs, s.streams) && id in s.handles && s.handles[id]
    ensures id in s.streamRefs && s.streamRefs[id] in s.streams && id in s.sctxs
    ensures s.streams[s.streamRefs[id]].typ == s.sctxs[id].typ
  {
    assert StoredAs(id, s.streamRefs[id], s.sctxs, s.streamRefs, s.streams);
  }

  lemma KickedTypes(s: State, id: Id, op: Op, streams: Streams, job: Job)
    requires KickedOn(s, id, op, streams, job)
    ensures forall u :: u in s.streams ==> u in streams && streams[u].typ == s.streams[u].typ
  {
  }
}
