/** Exactly when a stream's jobs run one at a time: a kick-off under a clean id keeps its stream
    to itself in every continuation without timeouts, and only such a kick-off does. */
module Serialisation {
  import opened Base
  import opened Buffers
  import opened Machine
  import opened Invariants
  import opened Flow
  import opened KickOffs
  import opened Completion
  import opened Draining
  import opened Engine
  import opened Frames
  import opened Reachability
  import opened Undisturbed
  import opened OrderlyLibrary
  import opened Attribution
  import Q = FinishedQueue

  /** Job `j` works on stream `u` and has not finished. */
  predicate Unfinished(jobs: map<JobId, Job>, u: JobId, j: JobId) {
    j in jobs && StreamJob(jobs[j].op) && jobs[j].uid == u && jobs[j].ran.None?
  }

  /** Another job is at work on stream `u` together with `j`. */
  predicate Overlap(s: State, u: JobId, j: JobId) {
    Unfinished(s.jobs, u, j) && exists k :: k in s.jobs && k != j && Unfinished(s.jobs, u, k)
  }

  predicate Untimed(run: seq<Step>) {
    forall i :: 0 <= i < |run| ==> !run[i].DoOpTimeout?
  }

  predicate Refers(s: State, id: Id, u: JobId) {
    id in s.streamRefs && s.streamRefs[id] == u
  }

  /** Further methods on the handle are refused: the operation is awaited, or its abort left the
      context busy. */
  predicate Blocked(s: State, j: JobId, id: Id) {
    && id in s.sctxs && s.sctxs[id].place.Held? && s.sctxs[id].waitCo.Some?
    && j < |s.ops| && (Awaited(s.cos, s.ops, j) || id !in s.ongoing)
  }

  /** While `j` is at work on `u` it is alone, and stays so: `u` is unreachable or blocked. */
  ghost predicate Guarded(s: State, j: JobId, u: JobId, id: Id) {
    Unfinished(s.jobs, u, j) ==>
      && (forall k :: Unfinished(s.jobs, u, k) ==> k == j)
      && (Refers(s, id, u) ==> Blocked(s, j, id))
  }

  lemma GuardFrame(s: State, s': State, j: JobId, u: JobId, id: Id)
    requires Guarded(s, j, u, id)
    requires forall k :: Unfinished(s'.jobs, u, k) ==> Unfinished(s.jobs, u, k)
    requires Unfinished(s'.jobs, u, j) && Refers(s', id, u) ==> Refers(s, id, u) && (Blocked(s, j, id) ==> Blocked(s', j, id))
    ensures Guarded(s', j, u, id)
  {
    hide Unfinished, Refers, Blocked;
  }

  /** What a job at work on a stream says about it. */
  lemma AtWork(s: State, j: JobId, u: JobId)
    requires Inv(s) && Unfinished(s.jobs, u, j)
    ensures j < |s.ops| && u in s.streams && s.streams[u].id == s.ops[j].id && s.ops[j].op == s.jobs[j].op
    ensures forall id :: Refers(s, id, u) ==> id == s.ops[j].id
  {
    hide Placed, Registry, Waiters, Handled, Delayed, ConnRefsAgree, Conserved, OwnJobs, Completions,
      Attributed, WaiterSound, Owned, LostReason, Wholes, ConnHandled;
    assert JobSound(j, s.jobs[j], s.ops);
  }

  // ---------------------------------------------------------------- steps that start nothing on the stream

  lemma AsideGuard(s: State, a: Step, j: JobId, u: JobId, id: Id)
    requires Inv(s) && Enabled(s, a) && Aside(a) && Guarded(s, j, u, id)
    ensures Guarded(Apply(s, a), j, u, id)
  {
    hide Apply, Enabled, Inv, Guarded, Transit;
    AsideFrame(s, a);
    AsideTrim(s, a);
    HeldHandle(s, id);
    GuardFrame(s, Apply(s, a), j, u, id);
  }

  lemma HeldHandle(s: State, id: Id)
    requires Inv(s)
    ensures id in s.sctxs && s.sctxs[id].place.Held? ==> id in s.handles
  {
    hide Placed, Registry, Waiters, Delayed, ConnRefsAgree, Books, Conserved, OwnJobs, Completions,
      Attributed, WaiterSound, Owned, LostReason, Wholes, ConnHandled, JobStreams;
  }

  lemma MovingGuard(s: State, a: Step, j: JobId, u: JobId, id: Id)
    requires Inv(s) && Enabled(s, a) && Moving(a) && Guarded(s, j, u, id)
    ensures Guarded(Apply(s, a), j, u, id)
  {
    hide Apply, Enabled, Inv, Guarded, Transit;
    InvWaiter(s);
    MovingFrame(s, a);
    GuardFrame(s, Apply(s, a), j, u, id);
  }

  lemma RunJobGuard(s: State, k: JobId, result: Option<Bytes>, err: Option<Bytes>, j: JobId, u: JobId, id: Id)
    requires Inv(s) && Guarded(s, j, u, id)
    requires k in s.jobs && s.jobs[k].ran.None? && ResultShape(s.jobs[k].op, result, err)
    ensures Guarded(RunJob(s, k, result, err), j, u, id)
  {
    hide Placed, Registry, Waiters, Handled, Delayed, ConnRefsAgree, Conserved, OwnJobs, Completions, Books, Guarded,
      Attributed, WaiterSound, Owned, LostReason, Wholes, ConnHandled, JobStreams, RunJob;
    RunJobOps(s, k, result, err);
    RunJobRefs(s, k, result, err);
    if Unfinished(s.jobs, u, j) {
      AtWork(s, j, u);
    }
    GuardFrame(s, RunJob(s, k, result, err), j, u, id);
  }

  lemma MakeCallGuard(s: State, k: JobId, j: JobId, u: JobId, id: Id)
    requires Guarded(s, j, u, id) && k in s.jobs && CallsLeft(s, k) != []
    ensures Guarded(MakeCall(s, k), j, u, id)
  {
    hide Guarded, MakeCall, CallsLeft;
    MakeCallFrame(s, k);
    GuardFrame(s, MakeCall(s, k), j, u, id);
  }

  /** No reference is pointed at an existing stream, and only a success touches references. */
  ghost predicate RefsKept(s: State, s': State, failed: bool) {
    && s'.sctxs == s.sctxs && s'.ongoing == s.ongoing && s'.handles == s.handles
    && (forall id, u :: u in s.streams && Refers(s', id, u) ==> Refers(s, id, u))
    && (failed ==> s'.streamRefs == s.streamRefs)
    && s.streams.Keys <= s'.streams.Keys
  }

  lemma RunJobRefs(s: State, k: JobId, result: Option<Bytes>, err: Option<Bytes>)
    requires Inv(s) && k in s.jobs && s.jobs[k].ran.None?
    ensures RefsKept(s, RunJob(s, k, result, err), err.Some?)
  {
    hide Placed, Registry, Waiters, Handled, Delayed, ConnRefsAgree, Conserved, OwnJobs, Completions, Books,
      Attributed, WaiterSound, Owned, LostReason, Wholes, ConnHandled, RunJob, JobStreams, RefsKept, Born;
    JobsObject(s, k);
    if s.jobs[k].op.OpenOp? && err.None? {
      RunOpenShape(s, k, result);
      RefsOpened(s, s.jobs[k := Ran(s, k, result, None)], k, Born(k, s.jobs[k]));
    } else {
      RunQuietShape(s, k, result, err);
      RefsJobs(s, s.jobs[k := Ran(s, k, result, err)], err.Some?);
    }
  }

  lemma RefsJobs(s: State, jobs: map<JobId, Job>, failed: bool)
    ensures RefsKept(s, s.(jobs := jobs), failed)
  {
  }

  lemma RefsOpened(s: State, jobs: map<JobId, Job>, k: JobId, st: Stream)
    requires k in s.jobs && k !in s.streams
    ensures RefsKept(s, s.(jobs := jobs, streams := s.streams[k := st], streamRefs := s.streamRefs[s.jobs[k].id := k]), false)
  {
  }

  lemma ReportGuard(s: State, k: JobId, j: JobId, u: JobId, id: Id)
    requires Guarded(s, j, u, id) && k in s.jobs && s.jobs[k].ran.Some?
    ensures Guarded(Report(s, k), j, u, id)
  {
    hide Guarded;
    GuardFrame(s, Report(s, k), j, u, id);
  }

  lemma AbortGuard(s: State, co: Co, j: JobId, u: JobId, id: Id)
    requires Inv(s) && CoOf(s, co).cleanup && Guarded(s, j, u, id)
    ensures Guarded(Abort(s, co), j, u, id)
  {
    hide Placed, Registry, Handled, Delayed, ConnRefsAgree, Conserved, OwnJobs, Completions, Books, Guarded,
      Attributed, WaiterSound, Owned, LostReason, Wholes, ConnHandled, JobStreams;
    WaitingKept(s, co);
    Kept(s, s.cos[co].data);
    assert CoSound(s.ongoing, s.sctxs, co, s.cos[co], s.ops);
    hide Waiters;
    var x, s' := s.cos[co].data, Abort(s, co);
    assert s'.jobs == s.jobs && s'.streamRefs == s.streamRefs && s'.ops == s.ops;
    if Unfinished(s.jobs, u, j) && Refers(s, id, u) && Blocked(s, j, id) {
      AtWork(s, j, u);
      if s.ops[j].co != co && Awaited(s.cos, s.ops, j) {
        assert Awaited(s'.cos, s.ops, j);
      }
      assert Blocked(s', j, id);
    }
    GuardFrame(s, s', j, u, id);
  }

  // ---------------------------------------------------------------- kick-offs

  lemma LaunchGuard(s: State, s': State, conns: map<ConnId, Conn>, streams: map<JobId, Stream>,
                    co: Co, x: Id, ctx: StreamCtx, info: OpInfo, job: Job, j: JobId, u: JobId, id: Id)
    requires Launch(s, s', conns, streams, co, x, ctx, info, job) && Guarded(s, j, u, id) && j < |s.ops|
    requires Unfinished(s.jobs, u, j) && StreamJob(job.op) ==> job.uid != u
    requires Unfinished(s.jobs, u, j) && Refers(s, id, u) && Blocked(s, j, id) ==> x != id
    ensures Guarded(s', j, u, id)
  {
    hide CleanId;
    if Unfinished(s'.jobs, u, j) {
      assert Unfinished(s.jobs, u, j);
      forall k | Unfinished(s'.jobs, u, k) ensures Unfinished(s.jobs, u, k) {
        assert k != |s.ops|;
      }
      if Refers(s, id, u) && Blocked(s, j, id) {
        assert Awaited(s.cos, s.ops, j) ==> Awaited(s'.cos, s'.ops, j);
        assert Blocked(s', j, id);
      }
      GuardFrame(s, s', j, u, id);
    }
  }

  lemma NewStreamGuard(s: State, co: Co, r: Req, c: ConnId, typ: StreamType, req: Bytes, alloc: Id, j: JobId, u: JobId, id: Id)
    requires Inv(s) && CoOf(s, co).run.Running? && c in s.connHandles && s.connHandles[c] && alloc !in s.sctxs
    requires Guarded(s, j, u, id) && j < |s.ops|
    ensures Guarded(NewStream(s, co, r, c, typ, req, alloc), j, u, id)
  {
    hide Inv, NewStream, Guarded, Launch;
    var conns, x, ctx, info, job := NewStreamLaunch(s, co, r, c, typ, req, alloc);
    LaunchGuard(s, NewStream(s, co, r, c, typ, req, alloc), conns, s.streams, co, x, ctx, info, job, j, u, id);
  }

  lemma StreamOpGuard(s: State, co: Co, r: Req, x: Id, op: Op, j: JobId, u: JobId, id: Id)
    requires Inv(s) && CoOf(s, co).run.Running? && x in s.handles && Guarded(s, j, u, id)
    requires j < |s.ops| && s.ops[j].id == id
    ensures Guarded(StreamOp(s, co, r, x, op), j, u, id)
  {
    hide Inv, StreamOp, Launch;
    if Admitted(s, r, x) {
      var streams, ctx, info, job := StreamOpLaunch(s, co, r, x, op);
      if Unfinished(s.jobs, u, j) {
        AtWork(s, j, u);
        if Refers(s, x, u) {
          assert false;
        }
      }
      hide Guarded;
      LaunchGuard(s, StreamOp(s, co, r, x, op), s.conns, streams, co, x, ctx, info, job, j, u, id);
    } else {
      hide Guarded;
      StreamOpRefused(s, co, r, x, op);
      GuardFrame(s, StreamOp(s, co, r, x, op), j, u, id);
    }
  }

  // ---------------------------------------------------------------- draining

  /** A record for the id of a clean, awaited operation is its own, so its job has reported. */
  lemma OwnRecord(s: State, j: JobId)
    requires Inv(s) && s.posted != [] && j < |s.ops| && s.ops[j].clean && Awaited(s.cos, s.ops, j) && s.posted[0].id == s.ops[j].id
    ensures j !in s.jobs
  {
    hide Placed, Registry, Handled, Delayed, ConnRefsAgree, OwnJobs, Completions, Waiters,
      Attributed, WaiterSound, Owned, LostReason, Wholes, ConnHandled, JobStreams, Conserved, Meaning, ClosesOn;
    KeptId(s, j);
    DeliveryAttributed(s, false);
    Head(s);
    var t := s.posted[0].origin;
    var i :| 0 <= i < |s.reported| && s.reported[i] == t;
    assert t.job == j;
  }

  lemma DrainGuard(s: State, decodes: bool, j: JobId, u: JobId, id: Id)
    requires Inv(s) && s.posted != [] && Guarded(s, j, u, id) && j < |s.ops| && s.ops[j].id == id && s.ops[j].clean
    ensures Guarded(DrainOne(s, decodes), j, u, id)
  {
    hide Placed, Registry, Handled, Delayed, ConnRefsAgree, Books, Conserved, OwnJobs, Completions, Waiters,
      Attributed, WaiterSound, Owned, LostReason, Wholes, ConnHandled, JobStreams, Transit, DrainOne, Unsettled, Resume, Prepared, Guarded, Resumed, Take;
    Head(s);
    var x := s.posted[0].id;
    if x in s.ongoing {
      DeliveryAttributed(s, decodes);
      var cause := Delivery(s, decodes);
      DeliverShape(s, decodes);
      PreparedResume(s, cause);
      if x == id && Awaited(s.cos, s.ops, j) {
        OwnRecord(s, j);
        TakeResumedFrame(s, cause);
        Reported(s, Take(Resumed(s, x, false, cause)), j, u, id);
      } else {
        if Awaited(s.cos, s.ops, j) {
          AwaitedElsewhere(s, x, j);
        }
        DrainElsewhere(s, cause, j, u, id);
      }
    } else {
      DiscardShape(s, decodes);
      TakeGuard(s, j, u, id);
    }
  }

  lemma Reported(s: State, s': State, j: JobId, u: JobId, id: Id)
    requires s'.jobs == s.jobs && j !in s.jobs
    ensures Guarded(s', j, u, id)
  {
  }

  lemma TakeGuard(s: State, j: JobId, u: JobId, id: Id)
    requires s.posted != [] && Guarded(s, j, u, id)
    ensures Guarded(Take(s), j, u, id)
  {
    hide Guarded;
    GuardFrame(s, Take(s), j, u, id);
  }

  lemma DrainElsewhere(s: State, cause: Cause, j: JobId, u: JobId, id: Id)
    requires Deliverable(s) && Guarded(s, j, u, id) && j < |s.ops|
    requires Blocked(s, j, id) ==> s.posted[0].id != id
    requires Awaited(s.cos, s.ops, j) ==>
               Awaited(s.cos[s.sctxs[s.posted[0].id].waitCo.value := CoCtx(Running, false, false, s.posted[0].id)], s.ops, j)
    ensures Guarded(Take(Resumed(s, s.posted[0].id, false, cause)), j, u, id)
  {
    hide PlaceAfter, ConnsAfter, Succeeded, Guarded, Awaited;
    var s' := Take(Resumed(s, s.posted[0].id, false, cause));
    GuardFrame(s, s', j, u, id);
  }

  // ---------------------------------------------------------------- every step, every run

  lemma GuardStep(s: State, a: Step, j: JobId, u: JobId, id: Id)
    requires Inv(s) && Enabled(s, a) && !a.DoOpTimeout? && Guarded(s, j, u, id)
    requires j < |s.ops| && s.ops[j].id == id && s.ops[j].clean
    ensures Guarded(Apply(s, a), j, u, id)
  {
    hide Inv, Guarded, NewStream, NewStreamRefused, StreamOp, CloseConn, FinalizeConn, CloseStream, FinalizeStream,
      RunJob, MakeCall, CallsLeft, Report, WaitCheck, ThreadEvent, DrainOne, OpTimeout, Abort, Offers,
      FrameHolds, FullWire, FreshPtrs, Q.TimerExpire, Q.TimerFire, Q.WaitStart, ResultShape;
    if Aside(a) {
      AsideGuard(s, a, j, u, id);
    } else if Moving(a) {
      MovingGuard(s, a, j, u, id);
    } else {
      match a {
        case DoNewStream(co, r, c, typ, req, alloc) => NewStreamGuard(s, co, r, c, typ, req, alloc, j, u, id);
        case DoStreamOp(co, r, x, op) => StreamOpGuard(s, co, r, x, op, j, u, id);
        case DoCall(k) => MakeCallGuard(s, k, j, u, id);
        case DoRunJob(k, result, err) => RunJobGuard(s, k, result, err, j, u, id);
        case DoReport(k) => ReportGuard(s, k, j, u, id);
        case DoDrainOne(decodes) => DrainGuard(s, decodes, j, u, id);
        case DoAbort(co) => AbortGuard(s, co, j, u, id);
        case _ =>
      }
    }
  }

  lemma {:induction false} GuardRun(s: State, run: seq<Step>, j: JobId, u: JobId, id: Id)
    requires Inv(s) && Runs(s, run) && Untimed(run) && Guarded(s, j, u, id)
    requires j < |s.ops| && s.ops[j].id == id && s.ops[j].clean
    ensures Guarded(After(s, run), j, u, id)
    decreases |run|
  {
    hide Inv, Enabled, Apply, Guarded;
    if run != [] {
      GuardStep(s, run[0], j, u, id);
      StepInv(s, run[0]);
      OpsStep(s, run[0]);
      GuardRun(Apply(s, run[0]), run[1..], j, u, id);
    }
  }

  // ---------------------------------------------------------------- a clean kick-off is alone

  /** The stream object a method call works on, and what its kick-off leaves. */
  lemma Kicked(s: State, a: Step) returns (streams: map<JobId, Stream>, ctx: StreamCtx, info: OpInfo, job: Job)
    requires Inv(s) && Enabled(s, a) && a.DoStreamOp? && KicksOff(s, a)
    ensures Admitted(s, a.r, a.id) && s.faults == {} && a.id in s.handles && s.handles[a.id]
    ensures Launch(s, Apply(s, a), s.conns, streams, a.co, a.id, ctx, info, job)
    ensures KickedOn(s, a.id, a.op, streams, job) && StreamJob(a.op)
    ensures ctx == s.sctxs[a.id].(node := true, timedOut := false, waitCo := Some(a.co)) && ctx.place.Held?
  {
    hide Inv, NewStreamRefused, CloseConn, FinalizeConn, CloseStream, FinalizeStream, StreamOp, NewStream,
      RunJob, MakeCall, CallsLeft, Report, WaitCheck, ThreadEvent, DrainOne, OpTimeout, Abort, CleanId,
      FrameHolds, FullWire, FreshPtrs, Q.TimerExpire, Q.TimerFire, Q.WaitStart, ResultShape, Transit, Offers;
    if !Admitted(s, a.r, a.id) {
      StreamOpRefused(s, a.co, a.r, a.id, a.op);
      assert false;
    }
    HandleOffers(s, a.id, a.op);
    streams, ctx, info, job := StreamOpLaunch(s, a.co, a.r, a.id, a.op);
  }

  lemma KickedGuard(s: State, s': State, streams: map<JobId, Stream>, co: Co, id: Id, op: Op, ctx: StreamCtx, info: OpInfo, job: Job)
    requires Inv(s) && Launch(s, s', s.conns, streams, co, id, ctx, info, job) && CleanId(s, id)
    requires KickedOn(s, id, op, streams, job) && ctx.place.Held?
    ensures Guarded(s', |s.ops|, s.streamRefs[id], id)
  {
    hide Inv;
    var j, u := |s.ops|, s.streamRefs[id];
    forall k | Unfinished(s'.jobs, u, k) ensures k == j {
      if k != j {
        assert Unfinished(s.jobs, u, k) && Outstanding(s, k) && Refers(s, id, u);
        AtWork(s, k, u);
      }
    }
  }

  lemma CleanIsAlone(s: State, a: Step, run: seq<Step>)
    requires Inv(s) && Enabled(s, a) && a.DoStreamOp? && KicksOff(s, a) && CleanId(s, a.id)
    requires Runs(Apply(s, a), run) && Untimed(run)
    ensures a.id in s.streamRefs && !Overlap(After(Apply(s, a), run), s.streamRefs[a.id], |s.ops|)
  {
    hide Inv, Enabled, Apply, Guarded, CleanId;
    var streams, ctx, info, job := Kicked(s, a);
    var s', j, u := Apply(s, a), |s.ops|, s.streamRefs[a.id];
    KickedGuard(s, s', streams, a.co, a.id, a.op, ctx, info, job);
    StepInv(s, a);
    LaunchedOps(s, s', s.conns, streams, a.co, a.id, ctx, info, job);
    GuardRun(s', run, j, u, a.id);
    GuardedAlone(After(s', run), j, u, a.id);
  }

  lemma GuardedAlone(s: State, j: JobId, u: JobId, id: Id)
    requires Guarded(s, j, u, id)
    ensures !Overlap(s, u, j)
  {
  }

  // ---------------------------------------------------------------- any other can overlap

  /** The handle is open, resolves to `u`, and `j` is at work on it. */
  predicate OpenOn(s: State, j: JobId, id: Id, u: JobId, r: Req) {
    && id in s.handles && s.handles[id] && Refers(s, id, u) && u in s.streams
    && id in s.sctxs && s.sctxs[id].r == Some(r) && !s.sctxs[id].typ.Unary?
    && Unfinished(s.jobs, u, j)
  }

  lemma NearerOpen(s: State, a: Step, j: JobId, id: Id, u: JobId, r: Req)
    requires Poised(s, j, id) && Enabled(s, a) && Nearer(s, a, id) && OpenOn(s, j, id, u, r)
    ensures OpenOn(Apply(s, a), j, id, u, r)
  {
    hide Inv, NewStreamRefused, CloseConn, FinalizeConn, CloseStream, FinalizeStream, StreamOp, NewStream, OpenOn,
      RunJob, MakeCall, CallsLeft, Report, WaitCheck, ThreadEvent, DrainOne, OpTimeout, Abort, CleanId,
      FrameHolds, FullWire, FreshPtrs, Q.TimerExpire, Q.TimerFire, Q.WaitStart, ResultShape, Transit, Offers;
    KeptId(s, j);
    if a.DoDrainOne? {
      DrainOpen(s, j, id, u, r);
    } else if a.DoConnect? {
      OpenFrame(s, Apply(s, a), j, id, u, r);
    } else if a.DoNewStream? {
      var conns, x, ctx, info, job := NewStreamLaunch(s, a.co, a.r, a.c, a.typ, a.req, a.alloc);
      LaunchOpen(s, Apply(s, a), conns, a.co, x, ctx, info, job, j, id, u, r);
    } else {
      MovingOpen(s, a, j, id, u, r);
    }
  }

  lemma MovingOpen(s: State, a: Step, j: JobId, id: Id, u: JobId, r: Req)
    requires Inv(s) && Enabled(s, a) && Moving(a) && OpenOn(s, j, id, u, r)
    ensures OpenOn(Apply(s, a), j, id, u, r)
  {
    hide Inv, Enabled, Apply, OpenOn, Transit;
    InvWaiter(s);
    MovingFrame(s, a);
    OpenFrame(s, Apply(s, a), j, id, u, r);
  }

  lemma OpenFrame(s: State, s': State, j: JobId, id: Id, u: JobId, r: Req)
    requires OpenOn(s, j, id, u, r)
    requires s'.handles == s.handles && s'.streamRefs == s.streamRefs && s'.streams == s.streams && s'.sctxs == s.sctxs && s'.jobs == s.jobs
    ensures OpenOn(s', j, id, u, r)
  {
  }

  lemma LaunchOpen(s: State, s': State, conns: map<ConnId, Conn>, co: Co, x: Id, ctx: StreamCtx, info: OpInfo, job: Job,
                   j: JobId, id: Id, u: JobId, r: Req)
    requires Launch(s, s', conns, s.streams, co, x, ctx, info, job) && id in s.ongoing && j < |s.ops| && OpenOn(s, j, id, u, r)
    ensures OpenOn(s', j, id, u, r)
  {
    hide CleanId;
  }

  lemma DrainOpen(s: State, j: JobId, id: Id, u: JobId, r: Req)
    requires Inv(s) && s.posted != [] && s.posted[0].id != id && OpenOn(s, j, id, u, r)
    ensures OpenOn(DrainOne(s, false), j, id, u, r)
  {
    hide Placed, Registry, Handled, Delayed, ConnRefsAgree, Books, Conserved, OwnJobs, Completions, Waiters, OpenOn,
      Attributed, WaiterSound, Owned, LostReason, Wholes, ConnHandled, JobStreams, Transit, DrainOne, Unsettled, Resume, Prepared, Resumed, Take;
    Head(s);
    if s.posted[0].id in s.ongoing {
      DeliveryAttributed(s, false);
      var cause := Delivery(s, false);
      DeliverShape(s, false);
      PreparedResume(s, cause);
      ResumedOpen(s, cause, j, id, u, r);
    } else {
      DiscardShape(s, false);
      TakeOpen(s, j, id, u, r);
    }
  }

  lemma TakeOpen(s: State, j: JobId, id: Id, u: JobId, r: Req)
    requires s.posted != [] && OpenOn(s, j, id, u, r)
    ensures OpenOn(Take(s), j, id, u, r)
  {
    hide OpenOn;
    OpenFrame(s, Take(s), j, id, u, r);
  }

  lemma ResumedOpen(s: State, cause: Cause, j: JobId, id: Id, u: JobId, r: Req)
    requires Deliverable(s) && s.posted[0].id != id && OpenOn(s, j, id, u, r)
    ensures OpenOn(Take(Resumed(s, s.posted[0].id, false, cause)), j, id, u, r)
  {
    hide PlaceAfter, ConnsAfter, Succeeded;
  }

  lemma {:induction false} OpenAlong(s: State, run: seq<Step>, j: JobId, id: Id, u: JobId, r: Req)
    requires Runs(s, run) && Approaches(s, run, j, id) && OpenOn(s, j, id, u, r)
    ensures OpenOn(After(s, run), j, id, u, r) && Untimed(run)
    decreases |run|
  {
    hide Enabled, Apply, Poised, OpenOn;
    if run != [] {
      NearerOpen(s, run[0], j, id, u, r);
      OpenAlong(Apply(s, run[0]), run[1..], j, id, u, r);
      assert forall i :: 1 <= i < |run| ==> run[i] == run[1..][i - 1];
    }
  }

  /** The foreign result resumes the coroutine while its own job is at work. */
  lemma ResumedEarly(s: State, j: JobId, id: Id, u: JobId, r: Req)
    requires Poised(s, j, id) && s.posted != [] && s.posted[0].id == id && OpenOn(s, j, id, u, r)
    ensures var s' := DrainOne(s, false);
            && Inv(s') && s'.faults == {} && OpenOn(s', j, id, u, r) && s'.sctxs[id].waitCo.None?
            && s'.ops == s.ops && j < |s.ops| && CoOf(s', s.ops[j].co).run.Running?
  {
    hide Placed, Registry, Handled, Delayed, ConnRefsAgree, Books, Conserved, OwnJobs, Completions, Waiters, OpenOn,
      Attributed, WaiterSound, Owned, LostReason, Wholes, ConnHandled, JobStreams, Transit, DrainOne, Unsettled, Resume, Prepared, Resumed, Take;
    DrainOneInv(s, false);
    DrainOps(s, false);
    KeptId(s, j);
    Head(s);
    DeliveryAttributed(s, false);
    var cause := Delivery(s, false);
    DeliverShape(s, false);
    PreparedResume(s, cause);
    ResumedHere(s, cause, j, id, u, r);
  }

  lemma ResumedHere(s: State, cause: Cause, j: JobId, id: Id, u: JobId, r: Req)
    requires Deliverable(s) && s.posted[0].id == id && OpenOn(s, j, id, u, r) && cause.Result? && !cause.closed
    ensures var s' := Take(Resumed(s, id, false, cause));
            && OpenOn(s', j, id, u, r) && s'.sctxs[id].waitCo.None?
            && CoOf(s', s.sctxs[id].waitCo.value).run.Running?
  {
    hide PlaceAfter, ConnsAfter, Succeeded;
  }

  /** The next call on the handle is admitted and joins `j` on the stream. */
  lemma SecondKick(s: State, co: Co, j: JobId, id: Id, u: JobId, r: Req)
    requires Inv(s) && s.faults == {} && OpenOn(s, j, id, u, r) && s.sctxs[id].waitCo.None? && CoOf(s, co).run.Running?
    ensures Enabled(s, DoStreamOp(co, r, id, RecvOp)) && Overlap(Apply(s, DoStreamOp(co, r, id, RecvOp)), u, j)
  {
    hide Inv, NewStreamRefused, CloseConn, FinalizeConn, CloseStream, FinalizeStream, StreamOp, NewStream,
      RunJob, MakeCall, CallsLeft, Report, WaitCheck, ThreadEvent, DrainOne, OpTimeout, Abort, CleanId, CoOf,
      FrameHolds, FullWire, FreshPtrs, Q.TimerExpire, Q.TimerFire, Q.WaitStart, ResultShape, Transit;
    var streams, ctx, info, job := StreamOpLaunch(s, co, r, id, RecvOp);
    AtWork(s, j, u);
    var s' := StreamOp(s, co, r, id, RecvOp);
    LaunchedOps(s, s', s.conns, streams, co, id, ctx, info, job);
    assert Unfinished(s'.jobs, u, |s.ops|);
  }

  /** From a poised state on an open stream, two jobs can be brought together. */
  lemma BringTogether(s: State, j: JobId, id: Id, u: JobId, r: Req) returns (run: seq<Step>)
    requires Poised(s, j, id) && OpenOn(s, j, id, u, r)
    ensures Runs(s, run) && Untimed(run) && Overlap(After(s, run), u, j)
  {
    hide Poised, Enabled, Apply, OpenOn, Inv, CoOf, Overlap, DrainOne;
    var first := Approach(s, j, id);
    ApproachEnds(s, first, j, id);
    OpenAlong(s, first, j, id, u, r);
    var t := After(s, first);
    ResumedEarly(t, j, id, u, r);
    PoisedFaults(t, j, id);
    DrainStep(t, false);
    var t1, co := DrainOne(t, false), t.ops[j].co;
    var last := DoStreamOp(co, r, id, RecvOp);
    SecondKick(t1, co, j, id, u, r);
    Prepend(t1, last, []);
    Prepend(t, DoDrainOne(false), [last] + []);
    var rest := [DoDrainOne(false)] + ([last] + []);
    Concatenate(s, first, rest);
    run := first + rest;
  }

  lemma ReportOpen(s: State, k: JobId, j: JobId, id: Id, u: JobId, r: Req)
    requires OpenOn(s, j, id, u, r) && k in s.jobs && s.jobs[k].ran.Some?
    ensures OpenOn(Report(s, k), j, id, u, r)
  {
  }

  lemma FailOpen(s: State, k: JobId, j: JobId, id: Id, u: JobId, r: Req)
    requires Inv(s) && OpenOn(s, j, id, u, r) && k in s.jobs && s.jobs[k].ran.None? && k != j
    ensures OpenOn(RunJob(s, k, None, Some([])), j, id, u, r)
  {
    hide Inv, RunJob;
    RunJobRefs(s, k, None, Some([]));
    RunJobOps(s, k, None, Some([]));
  }

  /** An unreported older job under the id can be made to report first. */
  lemma OlderReports(s: State, j: JobId, k: JobId, u: JobId, r: Req) returns (run: seq<Step>)
    requires Inv(s) && s.faults == {} && j < |s.ops| && Awaited(s.cos, s.ops, j) && j in s.jobs
    requires k in s.jobs && k != j && k < |s.ops| && s.ops[k].id == s.ops[j].id && OpenOn(s, j, s.ops[j].id, u, r)
    ensures Runs(s, run) && Untimed(run) && Poised(After(s, run), j, s.ops[j].id) && OpenOn(After(s, run), j, s.ops[j].id, u, r)
  {
    hide Inv, Enabled, Apply, Transit, Report, Poised, RunJob, Awaited, OpenOn;
    if s.jobs[k].ran.Some? {
      ReportPoised(s, j, k);
      ReportOpen(s, k, j, s.ops[j].id, u, r);
      ReportStep(s, k);
      Prepend(s, DoReport(k), []);
      run := [DoReport(k)] + [];
    } else {
      RunJobOps(s, k, None, Some([]));
      RunJobInv(s, k, None, Some([]));
      FailOpen(s, k, j, s.ops[j].id, u, r);
      FailStep(s, k);
      var s1 := RunJob(s, k, None, Some([]));
      ReportPoised(s1, j, k);
      ReportOpen(s1, k, j, s.ops[j].id, u, r);
      ReportStep(s1, k);
      Prepend(s1, DoReport(k), []);
      Prepend(s, DoRunJob(k, None, Some([])), [DoReport(k)] + []);
      run := [DoRunJob(k, None, Some([]))] + ([DoReport(k)] + []);
    }
  }

  lemma KickedOpen(s: State, s': State, streams: map<JobId, Stream>, co: Co, r: Req, id: Id, op: Op, ctx: StreamCtx, info: OpInfo, job: Job)
    requires Inv(s) && Launch(s, s', s.conns, streams, co, id, ctx, info, job) && Admitted(s, r, id) && id in s.handles && s.handles[id]
    requires KickedOn(s, id, op, streams, job) && StreamJob(op)
    requires ctx == s.sctxs[id].(node := true, timedOut := false, waitCo := Some(co)) && ctx.place.Held?
    ensures OpenOn(s', |s.ops|, id, s.streamRefs[id], r)
  {
    hide Registry, Waiters, Handled, Delayed, ConnRefsAgree, Books, Conserved, OwnJobs, Completions,
      Attributed, WaiterSound, Owned, LostReason, Wholes, ConnHandled, JobStreams, Transit, CleanId;
    assert PlacedCtx(s.conns, id, s.sctxs[id]);
  }

  lemma UncleanOverlaps(s: State, a: Step) returns (run: seq<Step>)
    requires Inv(s) && Enabled(s, a) && a.DoStreamOp? && KicksOff(s, a) && !CleanId(s, a.id)
    ensures a.id in s.streamRefs
    ensures Runs(Apply(s, a), run) && Untimed(run) && Overlap(After(Apply(s, a), run), s.streamRefs[a.id], |s.ops|)
  {
    hide Enabled, Apply, Inv, Poised, Transit, Unsettled, OpenOn, Overlap, KicksOff;
    var streams, ctx, info, job := Kicked(s, a);
    var s', j, id := Apply(s, a), |s.ops|, a.id;
    KickedOpen(s, s', streams, a.co, a.r, id, a.op, ctx, info, job);
    AfterKickOff(s, a);
    LaunchedOps(s, s', s.conns, streams, a.co, id, ctx, info, job);
    var u := s.streamRefs[id];
    var k :| 0 <= k < |s.ops| && s.ops[k].id == id && Outstanding(s, k);
    if k in s.jobs {
      var first := OlderReports(s', j, k, u, a.r);
      var rest := BringTogether(After(s', first), j, id, u, a.r);
      run := first + rest;
      Concatenate(s', first, rest);
    } else {
      TransitPoised(s, s', j, k);
      run := BringTogether(s', j, id, u, a.r);
    }
  }

  /** Serialisation, exactly: a method call keeps its stream to itself in every continuation
      without timeouts if and only if no earlier job under its id was outstanding. */
  lemma SerialExact(s: State, a: Step)
    requires Inv(s) && Enabled(s, a) && a.DoStreamOp? && KicksOff(s, a)
    ensures a.id in s.streamRefs
    ensures CleanId(s, a.id) <==>
            forall run :: Runs(Apply(s, a), run) && Untimed(run) ==>
              !Overlap(After(Apply(s, a), run), s.streamRefs[a.id], |s.ops|)
  {
    hide Inv, Enabled, Apply, CleanId, Overlap, KicksOff, Untimed;
    var streams, ctx, info, job := Kicked(s, a);
    if CleanId(s, a.id) {
      forall run | Runs(Apply(s, a), run) && Untimed(run)
        ensures !Overlap(After(Apply(s, a), run), s.streamRefs[a.id], |s.ops|)
      {
        CleanIsAlone(s, a, run);
      }
    } else {
      var run := UncleanOverlaps(s, a);
    }
  }
}
