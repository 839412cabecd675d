/** Exactly when the handle an opening hands out resolves to the stream it opened. */
module Openings {
  import opened Base
  import opened Buffers
  import opened Machine
  import opened Invariants
  import opened StreamObjects
  import opened Flow
  import opened KickOffs
  import opened Completion
  import opened Draining
  import opened Engine
  import opened Frames
  import opened Reachability
  import opened Undisturbed
  import opened OrderlyLibrary
  import opened Attribution
  import opened Serialisation
  import opened CallOrder
  import Q = FinishedQueue

  /** The oldest result in transit for `id`. */
  function FirstFor(ts: seq<TaskResult>, id: Id): Option<TaskResult> {
    if ts == [] then None else if ts[0].id == id then Some(ts[0]) else FirstFor(ts[1..], id)
  }

  lemma {:induction false} FirstSnoc(ts: seq<TaskResult>, t: TaskResult, id: Id)
    ensures FirstFor(ts + [t], id) == if FirstFor(ts, id).Some? then FirstFor(ts, id) else if t.id == id then Some(t) else None
  {
    if ts == [] {
      assert ts + [t] == [t];
      assert [t][1..] == [];
    } else {
      FirstSnoc(ts[1..], t, id);
      assert (ts + [t])[1..] == ts[1..] + [t];
    }
  }

  lemma {:induction false} FirstIn(ts: seq<TaskResult>, id: Id)
    ensures FirstFor(ts, id).Some? ==> exists i :: 0 <= i < |ts| && ts[i] == FirstFor(ts, id).value && ts[i].id == id
    ensures FirstFor(ts, id).None? ==> forall i :: 0 <= i < |ts| ==> ts[i].id != id
  {
    if ts != [] {
      FirstIn(ts[1..], id);
      assert forall i :: 1 <= i < |ts| ==> ts[i] == ts[1..][i - 1];
      if ts[0].id != id && FirstFor(ts, id).Some? {
        var i :| 0 <= i < |ts[1..]| && ts[1..][i] == FirstFor(ts, id).value && ts[1..][i].id == id;
        assert ts[i + 1].id == id;
      }
    }
  }

  /** An earlier job under the id may still be the first to answer, and with a success. */
  predicate Threat(s: State, id: Id) {
    if FirstFor(Transit(s), id).Some? then FirstFor(Transit(s), id).value.err.None?
    else exists k :: k in s.jobs && CanSucceed(s.jobs[k], id)
  }

  predicate CanSucceed(job: Job, id: Id) {
    job.id == id && (job.ran.None? || job.ran.value.err.None?)
  }

  /** No later operation under the id opened it anew. */
  predicate LatestOpening(ops: seq<OpInfo>, j: JobId, id: Id) {
    j < |ops| && forall m :: j < m < |ops| && ops[m].id == id ==> StreamJob(ops[m].op)
  }

  /** While the handle of opening `j` is open it resolves to the stream `j` opened. */
  predicate Resolved(s: State, j: JobId, id: Id) {
    LatestOpening(s.ops, j, id) && id in s.handles && s.handles[id] ==> Refers(s, id, j) && j in s.streams
  }

  // ---------------------------------------------------------------- safe openings

  /** Nobody but `j` can still answer it with a success, or store under its id. */
  ghost predicate OthersSpent(jobs: map<JobId, Job>, j: JobId, id: Id) {
    forall k :: k in jobs && k != j && jobs[k].id == id ==> jobs[k].ran.Some? && jobs[k].ran.value.err.Some?
  }

  predicate OwnSuccess(jobs: map<JobId, Job>, first: Option<TaskResult>, j: JobId) {
    (j in jobs && jobs[j].ran.Some? && jobs[j].ran.value.err.None?) || (first.Some? && first.value.job == j && first.value.err.None?)
  }

  /** The opening is awaited: the next answer is a failure or its own, and its own success has
      been stored and stays so. */
  ghost predicate Waited(s: State, j: JobId, id: Id) {
    var first := FirstFor(Transit(s), id);
    (first.Some? && first.value.job != j && first.value.err.Some?) ||
    ((first.None? || first.value.job == j) && OthersSpent(s.jobs, j, id) && (OwnSuccess(s.jobs, first, j) ==> Refers(s, id, j)))
  }

  /** The opening is over: an open handle resolves, and nobody can overwrite the reference. */
  ghost predicate Settled(s: State, j: JobId, id: Id) {
    id in s.handles && s.handles[id] ==>
      Refers(s, id, j) && forall k :: k in s.jobs && k != j && s.jobs[k].id == id && s.jobs[k].op.OpenOp? ==> s.jobs[k].ran.Some?
  }

  ghost predicate Tame(s: State, j: JobId, id: Id) {
    LatestOpening(s.ops, j, id) ==>
      && s.ops[j].id == id && s.ops[j].op.OpenOp?
      && (forall m :: 0 <= m < |s.ops| && m != j && s.ops[m].id == id && s.ops[m].op.OpenOp? ==> !Awaited(s.cos, s.ops, m))
      && (if Awaited(s.cos, s.ops, j) then Waited(s, j, id) else Settled(s, j, id))
  }

  lemma TameResolved(s: State, j: JobId, id: Id)
    requires Inv(s) && Tame(s, j, id)
    ensures Resolved(s, j, id)
  {
    hide Placed, Registry, Delayed, ConnRefsAgree, Books, Conserved, OwnJobs, Completions, Waiters, Transit, Handled,
      Attributed, WaiterSound, Owned, LostReason, Wholes, ConnHandled, StreamSound, FirstFor, Waited;
    if LatestOpening(s.ops, j, id) && Awaited(s.cos, s.ops, j) {
      PendingUnhandled(s, j);
    }
  }

  /** Only `ops`, `cos`, `jobs`, the transit, and what is stored and held under the id matter. */
  lemma TameFrame(s: State, s': State, j: JobId, id: Id)
    requires j < |s.ops| && Tame(s, j, id) && s'.ops == s.ops && s'.cos == s.cos && s'.jobs == s.jobs && Transit(s') == Transit(s)
    requires Refers(s, id, j) && (Awaited(s.cos, s.ops, j) || (id in s'.handles && s'.handles[id])) ==> Refers(s', id, j)
    requires id in s'.handles && s'.handles[id] ==> id in s.handles && s.handles[id]
    ensures Tame(s', j, id)
  {
    hide Transit, FirstFor, Awaited;
  }

  lemma AsideTame(s: State, a: Step, j: JobId, id: Id)
    requires Inv(s) && Enabled(s, a) && Aside(a) && Tame(s, j, id) && j < |s.ops|
    ensures Tame(Apply(s, a), j, id)
  {
    hide Inv, Enabled, Apply, Tame, Transit, Awaited;
    AsideFrame(s, a);
    AsideTrim(s, a);
    if LatestOpening(s.ops, j, id) {
      TameOpening(s, j, id);
      if Awaited(s.cos, s.ops, j) {
        OpeningPending(s, j);
      }
      TameFrame(s, Apply(s, a), j, id);
    } else {
      TameVoid(s, Apply(s, a), j, id);
    }
  }

  lemma TameOpening(s: State, j: JobId, id: Id)
    requires Tame(s, j, id) && LatestOpening(s.ops, j, id)
    ensures s.ops[j].id == id && s.ops[j].op.OpenOp?
  {
    hide Waited, Settled;
  }

  lemma OpeningPending(s: State, j: JobId)
    requires Inv(s) && j < |s.ops| && s.ops[j].op.OpenOp? && Awaited(s.cos, s.ops, j)
    ensures s.ops[j].id in s.ongoing && s.ops[j].id in s.sctxs && s.ops[j].id !in s.handles
  {
    hide Placed, Registry, Delayed, ConnRefsAgree, Books, Conserved, OwnJobs, Completions, Waiters, Handled,
      Attributed, WaiterSound, Owned, LostReason, Wholes, ConnHandled, JobStreams;
    PendingUnhandled(s, j);
  }

  lemma TameVoid(s: State, s': State, j: JobId, id: Id)
    requires !LatestOpening(s.ops, j, id) && j < |s.ops| && s.ops <= s'.ops
    ensures Tame(s', j, id)
  {
    hide Waited, Settled;
    var m :| j < m < |s.ops| && s.ops[m].id == id && !StreamJob(s.ops[m].op);
    assert s'.ops[m] == s.ops[m];
  }

  lemma MovingTame(s: State, a: Step, j: JobId, id: Id)
    requires Inv(s) && Enabled(s, a) && Moving(a) && Tame(s, j, id) && j < |s.ops|
    ensures Tame(Apply(s, a), j, id)
  {
    hide Inv, Enabled, Apply, Tame, Transit, Awaited;
    InvWaiter(s);
    MovingFrame(s, a);
    TameFrame(s, Apply(s, a), j, id);
  }

  lemma MakeCallTame(s: State, k: JobId, j: JobId, id: Id)
    requires Tame(s, j, id) && k in s.jobs && CallsLeft(s, k) != [] && j < |s.ops|
    ensures Tame(MakeCall(s, k), j, id)
  {
    hide MakeCall, CallsLeft, Tame, Transit, Awaited;
    MakeCallFrame(s, k);
    TransitSame(s, MakeCall(s, k));
    TameFrame(s, MakeCall(s, k), j, id);
  }

  // ---------------------------------------------------------------- running and reporting

  lemma RunJobTame(s: State, k: JobId, result: Option<Bytes>, err: Option<Bytes>, j: JobId, id: Id)
    requires Inv(s) && Tame(s, j, id) && j < |s.ops| && k in s.jobs && s.jobs[k].ran.None?
    ensures Tame(RunJob(s, k, result, err), j, id)
  {
    hide Inv, RunJob, Transit, Awaited, Waited, Settled, LatestOpening;
    var s' := RunJob(s, k, result, err);
    RunJobOps(s, k, result, err);
    RunRefs(s, k, result, err);
    if LatestOpening(s.ops, j, id) {
      if Awaited(s.cos, s.ops, j) {
        RunWaited(s, s', k, result, err, j, id);
      } else {
        RunSettled(s, s', k, result, err, j, id);
      }
    }
  }

  lemma RunRefs(s: State, k: JobId, result: Option<Bytes>, err: Option<Bytes>)
    requires k in s.jobs
    ensures var s' := RunJob(s, k, result, err);
            && s'.handles == s.handles
            && s'.streamRefs == if s.jobs[k].op.OpenOp? && err.None? then s.streamRefs[s.jobs[k].id := k] else s.streamRefs
  {
    hide RunJob, Born;
    if s.jobs[k].op.OpenOp? && err.None? {
      RunOpenShape(s, k, result);
    } else {
      RunQuietShape(s, k, result, err);
    }
  }

  lemma RunSettled(s: State, s': State, k: JobId, result: Option<Bytes>, err: Option<Bytes>, j: JobId, id: Id)
    requires Settled(s, j, id) && k in s.jobs && s.jobs[k].ran.None?
    requires s'.handles == s.handles && s'.jobs == s.jobs[k := Ran(s, k, result, err)]
    requires s'.streamRefs == if s.jobs[k].op.OpenOp? && err.None? then s.streamRefs[s.jobs[k].id := k] else s.streamRefs
    ensures Settled(s', j, id)
  {
  }

  lemma JobIs(s: State, k: JobId)
    requires Inv(s) && k in s.jobs
    ensures k < |s.ops| && s.jobs[k].id == s.ops[k].id && s.jobs[k].op == s.ops[k].op
    ensures forall i :: 0 <= i < |Transit(s)| ==> Transit(s)[i].job !in s.jobs
    ensures s.jobs[k].ran.Some? ==> s.jobs[k].ran.value.job == k && s.jobs[k].ran.value.id == s.ops[k].id
  {
    hide Placed, Registry, Delayed, ConnRefsAgree, OwnJobs, Completions, Waiters, Handled, Transit, Conserved,
      Attributed, WaiterSound, Owned, LostReason, Wholes, ConnHandled, JobStreams;
    assert JobSound(k, s.jobs[k], s.ops);
    TransitUnique(s);
  }

  lemma RunWaited(s: State, s': State, k: JobId, result: Option<Bytes>, err: Option<Bytes>, j: JobId, id: Id)
    requires Inv(s) && Waited(s, j, id) && k in s.jobs && s.jobs[k].ran.None? && j < |s.ops| && s.ops[j].id == id && s.ops[j].op.OpenOp?
    requires Transit(s') == Transit(s) && s'.jobs == s.jobs[k := Ran(s, k, result, err)]
    requires s'.streamRefs == if s.jobs[k].op.OpenOp? && err.None? then s.streamRefs[s.jobs[k].id := k] else s.streamRefs
    ensures Waited(s', j, id)
  {
    hide Inv, Transit, FirstFor;
    JobIs(s, k);
    FirstIn(Transit(s), id);
  }

  lemma ReportTame(s: State, k: JobId, j: JobId, id: Id)
    requires Inv(s) && Tame(s, j, id) && j < |s.ops| && k in s.jobs && s.jobs[k].ran.Some?
    ensures Tame(Report(s, k), j, id)
  {
    hide Inv, Transit, FirstFor, Awaited;
    JobIs(s, k);
    ReportedId(s, k);
    FirstSnoc(Transit(s), s.jobs[k].ran.value, id);
  }

  // ---------------------------------------------------------------- kick-offs

  lemma LaunchTame(s: State, s': State, conns: map<ConnId, Conn>, streams: map<JobId, Stream>,
                   co: Co, x: Id, ctx: StreamCtx, info: OpInfo, job: Job, j: JobId, id: Id)
    requires Inv(s) && Launch(s, s', conns, streams, co, x, ctx, info, job) && Tame(s, j, id) && j < |s.ops|
    ensures Tame(s', j, id)
  {
    hide Inv, CleanId, Transit, FirstFor;
    LaunchTransit(s, s', conns, streams, co, x, ctx, info, job);
    if LatestOpening(s'.ops, j, id) {
      assert s'.ops == s.ops + [info] && s'.jobs == s.jobs[|s.ops| := job];
      assert LatestOpening(s.ops, j, id) by {
        forall m | j < m < |s.ops| && s.ops[m].id == id ensures StreamJob(s.ops[m].op) {
          assert s'.ops[m] == s.ops[m];
        }
      }
      assert s'.ops[|s.ops|] == info;
      forall m | 0 <= m < |s.ops| ensures Awaited(s'.cos, s'.ops, m) <==> Awaited(s.cos, s.ops, m) {
        assert s'.ops[m] == s.ops[m];
      }
      if Awaited(s.cos, s.ops, j) {
        OpeningPending(s, j);
        assert x != id;
      }
      LaunchWaited(s, s', info, job, j, id);
    }
  }

  lemma LaunchWaited(s: State, s': State, info: OpInfo, job: Job, j: JobId, id: Id)
    requires Inv(s) && s'.ops == s.ops + [info] && s'.jobs == s.jobs[|s.ops| := job] && Transit(s') == Transit(s) && j < |s.ops|
    requires s'.streamRefs == s.streamRefs && s'.handles == s.handles && info.op == job.op && job.id == info.id
    requires job.id == id ==> StreamJob(job.op)
    ensures Waited(s, j, id) && job.id != id ==> Waited(s', j, id)
    ensures Settled(s, j, id) ==> Settled(s', j, id)
  {
    hide Inv, Transit, FirstFor;
  }

  // ---------------------------------------------------------------- endings

  /** An end that hands out nothing. */
  lemma EndTame(s: State, s': State, j: JobId, id: Id, co: Co)
    requires Inv(s) && Tame(s, j, id) && j < |s.ops| && s'.ops == s.ops && s'.jobs == s.jobs
    requires Transit(s') == Transit(s) || (Transit(s) != [] && Transit(s') == Transit(s)[1..])
    requires Transit(s') != Transit(s) && Transit(s)[0].id == id && j < |s.ops| ==> !Awaited(s'.cos, s.ops, j)
    requires forall m :: 0 <= m < |s.ops| && Awaited(s'.cos, s.ops, m) ==> Awaited(s.cos, s.ops, m)
    requires id in s'.handles && s'.handles[id] ==> id in s.handles && s.handles[id] && (Refers(s, id, j) ==> Refers(s', id, j))
    requires Awaited(s'.cos, s.ops, j) && Refers(s, id, j) ==> Refers(s', id, j)
    ensures Tame(s', j, id)
  {
    hide Inv, Transit, Awaited;
    if LatestOpening(s.ops, j, id) {
      if Awaited(s.cos, s.ops, j) {
        OpeningPending(s, j);
        if Awaited(s'.cos, s.ops, j) {
          assert FirstFor(Transit(s'), id) == FirstFor(Transit(s), id);
        }
      }
    }
  }

  lemma TimeoutTame(s: State, co: Co, j: JobId, id: Id)
    requires Inv(s) && CoOf(s, co).timer && Tame(s, j, id) && j < |s.ops|
    ensures Tame(OpTimeout(s, co), j, id)
  {
    hide Placed, Registry, Handled, Delayed, ConnRefsAgree, Books, Conserved, OwnJobs, Completions, Waiters, Tame,
      Attributed, WaiterSound, Owned, LostReason, Wholes, ConnHandled, JobStreams, OpTimeout, Awaited, ConnsAfter, Transit;
    WaitingKept(s, co);
    Kept(s, s.cos[co].data);
    OpTimeoutShape(s, co);
    var s' := OpTimeout(s, co);
    TransitSame(s, s');
    forall m | 0 <= m < |s.ops| && Awaited(s'.cos, s.ops, m) ensures Awaited(s.cos, s.ops, m) {
      StillAwaited(s.cos, s.ops, co, s'.cos[co], m);
    }
    EndTame(s, s', j, id, co);
  }

  lemma StillAwaited(cos: map<Co, CoCtx>, ops: seq<OpInfo>, co: Co, k: CoCtx, m: JobId)
    requires !k.run.Waiting? && m < |ops| && Awaited(cos[co := k], ops, m)
    ensures Awaited(cos, ops, m)
  {
  }

  lemma AbortTame(s: State, co: Co, j: JobId, id: Id)
    requires Inv(s) && CoOf(s, co).cleanup && Tame(s, j, id) && j < |s.ops|
    ensures Tame(Abort(s, co), j, id)
  {
    hide Placed, Registry, Handled, Delayed, ConnRefsAgree, Books, Conserved, OwnJobs, Completions, Waiters, Tame,
      Attributed, WaiterSound, Owned, LostReason, Wholes, ConnHandled, JobStreams, Awaited, Transit;
    WaitingKept(s, co);
    var s' := Abort(s, co);
    TransitSame(s, s');
    forall m | 0 <= m < |s.ops| && Awaited(s'.cos, s.ops, m) ensures Awaited(s.cos, s.ops, m) {
      StillAwaited(s.cos, s.ops, co, s'.cos[co], m);
    }
    EndTame(s, s', j, id, co);
  }

  // ---------------------------------------------------------------- draining

  /** What delivering the head record does to handles, references and waiting coroutines. */
  lemma Delivered(s: State, decodes: bool)
    requires Inv(s) && s.posted != [] && s.posted[0].id in s.ongoing
    ensures var x, s' := s.posted[0], DrainOne(s, decodes);
            var co := s.sctxs[x.id].waitCo.value;
            && x.id in s.sctxs && s.sctxs[x.id].waitCo.Some? && co in s.cos && s.cos[co].run.Waiting? && s.cos[co].run.op < |s.ops|
            && var m := s.cos[co].run.op;
               && s.ops[m].id == x.id && Awaited(s.cos, s.ops, m)
               && s'.cos == s.cos[co := CoCtx(Running, false, false, x.id)]
               && (forall y :: y != x.id ==> (y in s'.handles <==> y in s.handles) && (y in s.handles ==> s'.handles[y] == s.handles[y]))
               && (forall y, v :: y != x.id ==> (Refers(s', y, v) <==> Refers(s, y, v)))
               && (forall v :: s.ops[m].op.OpenOp? ==> (Refers(s', x.id, v) <==> Refers(s, x.id, v)))
               && (s.ops[m].op.OpenOp? ==> (x.id in s'.handles <==> x.origin.err.None?) && (x.origin.err.None? ==> s'.handles[x.id]))
               && (!s.ops[m].op.OpenOp? && x.id in s'.handles && s'.handles[x.id] ==>
                     x.id in s.handles && s.handles[x.id] && forall v :: Refers(s, x.id, v) ==> Refers(s', x.id, v))
  {
    hide Placed, Registry, Handled, Delayed, ConnRefsAgree, Books, Conserved, OwnJobs, Completions, Waiters,
      Attributed, WaiterSound, Owned, LostReason, Wholes, ConnHandled, JobStreams, Transit, DrainOne, Unsettled, Resume, Prepared,
      ClosesOn;
    Head(s);
    DeliveryAttributed(s, decodes);
    var cause := Delivery(s, decodes);
    DeliverShape(s, decodes);
    PreparedResume(s, cause);
    Kept(s, s.posted[0].id);
    OpeningCloses(s, decodes);
    if s.ops[s.cos[s.sctxs[s.posted[0].id].waitCo.value].run.op].op.OpenOp? {
      OpeningPending(s, s.cos[s.sctxs[s.posted[0].id].waitCo.value].run.op);
    }
    ResumedRefs(s, cause);
  }

  /** An opening never ends a `recv_close`. */
  lemma OpeningCloses(s: State, decodes: bool)
    requires Deliverable(s)
    ensures var x := s.posted[0];
            Delivery(s, decodes).closed ==> s.ops[s.cos[s.sctxs[x.id].waitCo.value].run.op].op.RecvOp?
  {
  }

  lemma ResumedRefs(s: State, cause: Cause)
    requires Deliverable(s) && cause.Result? && cause.val == Meaning(cause.origin)
    requires var id := s.posted[0].id;
             var m := s.cos[s.sctxs[id].waitCo.value].run.op;
             && (cause.closed ==> s.ops[m].op.RecvOp?)
             && (s.ops[m].op.OpenOp? ==> id !in s.handles && !s.sctxs[id].typ.Unary?)
    ensures var id, s' := s.posted[0].id, Take(Resumed(s, s.posted[0].id, false, cause));
            var m := s.cos[s.sctxs[id].waitCo.value].run.op;
            && s'.cos == s.cos[s.sctxs[id].waitCo.value := CoCtx(Running, false, false, id)]
            && (forall y :: y != id ==> (y in s'.handles <==> y in s.handles) && (y in s.handles ==> s'.handles[y] == s.handles[y]))
            && (forall y, v :: y != id ==> (Refers(s', y, v) <==> Refers(s, y, v)))
            && (forall v :: s.ops[m].op.OpenOp? ==> (Refers(s', id, v) <==> Refers(s, id, v)))
            && (s.ops[m].op.OpenOp? ==> (id in s'.handles <==> cause.origin.err.None?) && (cause.origin.err.None? ==> s'.handles[id]))
            && (!s.ops[m].op.OpenOp? && id in s'.handles && s'.handles[id] ==>
                  id in s.handles && s.handles[id] && forall v :: Refers(s, id, v) ==> Refers(s', id, v))
  {
    hide PlaceAfter, ConnsAfter;
  }

  lemma DrainTransit(s: State, decodes: bool)
    requires Inv(s) && s.posted != []
    ensures Transit(s) == [s.posted[0].origin] + Transit(DrainOne(s, decodes)) && s.posted[0].origin.id == s.posted[0].id
  {
    hide Placed, Registry, Handled, Delayed, ConnRefsAgree, Books, Conserved, OwnJobs, Completions, Waiters,
      Attributed, WaiterSound, Owned, LostReason, Wholes, ConnHandled, JobStreams, Transit, DrainOne, Unsettled, Resume, Prepared,
      Resumed, Take;
    Head(s);
    if s.posted[0].id in s.ongoing {
      DeliveryAttributed(s, decodes);
      var cause := Delivery(s, decodes);
      DeliverShape(s, decodes);
      PreparedResume(s, cause);
      TakeResumedFrame(s, cause);
    } else {
      DiscardShape(s, decodes);
    }
  }

  lemma DiscardTame(s: State, decodes: bool, j: JobId, id: Id)
    requires Inv(s) && s.posted != [] && s.posted[0].id !in s.ongoing && Tame(s, j, id) && j < |s.ops|
    ensures Tame(DrainOne(s, decodes), j, id)
  {
    hide Placed, Registry, Handled, Delayed, ConnRefsAgree, Books, Conserved, OwnJobs, Completions, Waiters, Tame,
      Attributed, WaiterSound, Owned, LostReason, Wholes, ConnHandled, JobStreams, Transit, DrainOne, Unsettled, Awaited;
    DrainTransit(s, decodes);
    Head(s);
    DiscardShape(s, decodes);
    if LatestOpening(s.ops, j, id) {
      TameOpening(s, j, id);
      if Awaited(s.cos, s.ops, j) {
        OpeningPending(s, j);
      }
      EndTame(s, DrainOne(s, decodes), j, id, 0);
    } else {
      TameVoid(s, DrainOne(s, decodes), j, id);
    }
  }

  /** The answer to the opening itself. */
  lemma AnsweredTame(s: State, s': State, x: TaskResult, j: JobId, id: Id)
    requires Tame(s, j, id) && LatestOpening(s.ops, j, id) && Awaited(s.cos, s.ops, j)
    requires s'.ops == s.ops && s'.jobs == s.jobs && Transit(s) != [] && Transit(s)[0] == x && x.id == id
    requires !Awaited(s'.cos, s.ops, j) && forall m :: 0 <= m < |s.ops| && Awaited(s'.cos, s.ops, m) ==> Awaited(s.cos, s.ops, m)
    requires (id in s'.handles <==> x.err.None?) && (Refers(s, id, j) ==> Refers(s', id, j))
    ensures Tame(s', j, id)
  {
    hide Transit, Awaited;
  }

  lemma DeliverTame(s: State, decodes: bool, j: JobId, id: Id)
    requires Inv(s) && s.posted != [] && s.posted[0].id in s.ongoing && Tame(s, j, id) && j < |s.ops|
    ensures Tame(DrainOne(s, decodes), j, id)
  {
    hide Inv, Tame, Transit, DrainOne, Awaited, LatestOpening;
    var x, s' := s.posted[0], DrainOne(s, decodes);
    DrainTransit(s, decodes);
    DrainStreams(s, decodes);
    Delivered(s, decodes);
    var co := s.sctxs[x.id].waitCo.value;
    var m := s.cos[co].run.op;
    forall n | 0 <= n < |s.ops| && Awaited(s'.cos, s.ops, n) ensures Awaited(s.cos, s.ops, n) {
      StillAwaited(s.cos, s.ops, co, CoCtx(Running, false, false, x.id), n);
    }
    if !LatestOpening(s.ops, j, id) {
      TameVoid(s, s', j, id);
    } else if x.id != id {
      EndTame(s, s', j, id, co);
    } else if m == j {
      TameOpening(s, j, id);
      KeptId(s, j);
      NoLonger(s.cos, s.ops, CoCtx(Running, false, false, x.id), j);
      AnsweredTame(s, s', x.origin, j, id);
    } else {
      OtherOp(s, j, id, m);
      EndTame(s, s', j, id, co);
    }
  }

  lemma NoLonger(cos: map<Co, CoCtx>, ops: seq<OpInfo>, k: CoCtx, j: JobId)
    requires j < |ops| && !k.run.Waiting?
    ensures !Awaited(cos[ops[j].co := k], ops, j)
  {
  }

  /** Another operation is awaited under the id: a method of the stream, and not `j`. */
  lemma OtherOp(s: State, j: JobId, id: Id, m: JobId)
    requires Inv(s) && Tame(s, j, id) && LatestOpening(s.ops, j, id) && m < |s.ops| && m != j && s.ops[m].id == id && Awaited(s.cos, s.ops, m)
    ensures !s.ops[m].op.OpenOp? && !Awaited(s.cos, s.ops, j)
  {
    hide Inv, Transit, Waited, Settled;
    if Awaited(s.cos, s.ops, j) {
      KeptId(s, j);
      KeptId(s, m);
    }
  }

  // ---------------------------------------------------------------- every step, every run

  lemma TameStep(s: State, a: Step, j: JobId, id: Id)
    requires Inv(s) && Enabled(s, a) && Tame(s, j, id) && j < |s.ops|
    ensures Tame(Apply(s, a), j, id)
  {
    hide Inv, Tame, NewStream, NewStreamRefused, StreamOp, CloseConn, FinalizeConn, CloseStream, FinalizeStream,
      RunJob, MakeCall, CallsLeft, Report, WaitCheck, ThreadEvent, DrainOne, OpTimeout, Abort, Offers, Launch,
      FrameHolds, FullWire, FreshPtrs, Q.TimerExpire, Q.TimerFire, Q.WaitStart, ResultShape, CoOf;
    if Aside(a) {
      AsideTame(s, a, j, id);
    } else if Moving(a) {
      MovingTame(s, a, j, id);
    } else {
      match a {
        case DoNewStream(co, r, c, typ, req, alloc) =>
          var conns, x, ctx, info, job := NewStreamLaunch(s, co, r, c, typ, req, alloc);
          LaunchTame(s, Apply(s, a), conns, s.streams, co, x, ctx, info, job, j, id);
        case DoStreamOp(co, r, x, op) =>
          if Admitted(s, r, x) {
            var streams, ctx, info, job := StreamOpLaunch(s, co, r, x, op);
            LaunchTame(s, Apply(s, a), s.conns, streams, co, x, ctx, info, job, j, id);
          } else {
            StreamOpRefused(s, co, r, x, op);
            RefusedTame(s, Apply(s, a), j, id);
          }
        case DoCall(k) => MakeCallTame(s, k, j, id);
        case DoRunJob(k, result, err) => RunJobTame(s, k, result, err, j, id);
        case DoReport(k) => ReportTame(s, k, j, id);
        case DoDrainOne(decodes) =>
          if s.posted[0].id in s.ongoing {
            DeliverTame(s, decodes, j, id);
          } else {
            DiscardTame(s, decodes, j, id);
          }
        case DoOpTimeout(co) => TimeoutTame(s, co, j, id);
        case DoAbort(co) => AbortTame(s, co, j, id);
        case _ =>
      }
    }
  }

  lemma RefusedTame(s: State, s': State, j: JobId, id: Id)
    requires Tame(s, j, id) && j < |s.ops| && s' == s.(faults := s'.faults)
    ensures Tame(s', j, id)
  {
    hide Tame, Transit, Awaited;
    TransitSame(s, s');
    TameFrame(s, s', j, id);
  }

  lemma {:induction false} TameRun(s: State, run: seq<Step>, j: JobId, id: Id)
    requires Inv(s) && Runs(s, run) && Tame(s, j, id) && j < |s.ops|
    ensures Tame(After(s, run), j, id) && Inv(After(s, run))
    decreases |run|
  {
    hide Inv, Enabled, Apply, Tame;
    if run != [] {
      TameStep(s, run[0], j, id);
      StepInv(s, run[0]);
      OpsStep(s, run[0]);
      TameRun(Apply(s, run[0]), run[1..], j, id);
    }
  }

  // ---------------------------------------------------------------- the opening kicked off

  /** The step is the opening of a stream. */
  predicate OpensStream(s: State, a: Step)
    requires Enabled(s, a)
  {
    a.DoNewStream? && !a.typ.Unary? && KicksOff(s, a)
  }

  /** What an opening's kick-off leaves. */
  ghost predicate Begun(s: State, s': State, j: JobId, id: Id) {
    && Inv(s') && s'.faults == {} && j == |s.ops| && |s'.ops| == j + 1 && s.ops <= s'.ops
    && s'.ops[j].id == id && s'.ops[j].op.OpenOp? && Awaited(s'.cos, s'.ops, j)
    && j in s'.jobs && s'.jobs[j].ran.None? && s'.jobs[j].op.OpenOp? && s'.jobs[j].id == id && s'.jobs == s.jobs[j := s'.jobs[j]]
    && Transit(s') == Transit(s) && s'.streamRefs == s.streamRefs && s'.handles == s.handles
    && (forall m :: 0 <= m < |s.ops| && s.ops[m].id == id ==> !Awaited(s'.cos, s'.ops, m))
  }

  lemma Begins(s: State, a: Step)
    requires Inv(s) && Enabled(s, a) && OpensStream(s, a)
    ensures Begun(s, Apply(s, a), |s.ops|, KickedId(s, a))
  {
    hide Inv, NewStreamRefused, CloseConn, FinalizeConn, CloseStream, FinalizeStream, StreamOp, NewStream,
      RunJob, MakeCall, CallsLeft, Report, WaitCheck, ThreadEvent, DrainOne, OpTimeout, Abort, CleanId,
      FrameHolds, FullWire, FreshPtrs, Q.TimerExpire, Q.TimerFire, Q.WaitStart, ResultShape, Transit, Offers;
    AfterKickOff(s, a);
    var conns, x, ctx, info, job := NewStreamLaunch(s, a.co, a.r, a.c, a.typ, a.req, a.alloc);
    LaunchedOps(s, Apply(s, a), conns, s.streams, a.co, x, ctx, info, job);
    var s' := Apply(s, a);
    forall m | 0 <= m < |s.ops| && s.ops[m].id == x ensures !Awaited(s'.cos, s'.ops, m) {
      if Awaited(s'.cos, s'.ops, m) {
        assert s'.ops[m] == s.ops[m];
        assert Awaited(s.cos, s.ops, m);
        KeptId(s, m);
      }
    }
  }

  lemma BegunTame(s: State, s': State, j: JobId, id: Id)
    requires Inv(s) && Begun(s, s', j, id) && !Threat(s, id)
    ensures Tame(s', j, id)
  {
    hide Inv, Transit, Awaited;
    FirstIn(Transit(s), id);
    OldResults(s);
    assert OthersSpent(s'.jobs, j, id) || FirstFor(Transit(s), id).Some?;
  }

  lemma OldResults(s: State)
    requires Inv(s)
    ensures forall i :: 0 <= i < |Transit(s)| ==> Transit(s)[i].job < |s.ops|
  {
    hide Placed, Registry, Delayed, ConnRefsAgree, OwnJobs, Completions, Waiters, Handled, Transit, Conserved, Books,
      Attributed, WaiterSound, Owned, LostReason, Wholes, ConnHandled, JobStreams;
    TransitUnique(s);
  }

  // ---------------------------------------------------------------- threatened openings

  /** A foreign success is next for the awaited opening `j`, whose own job has not run. */
  ghost predicate Usurped(s: State, j: JobId, id: Id) {
    && Poised(s, j, id) && s.ops[j].op.OpenOp? && s.jobs[j].ran.None? && s.jobs[j].op.OpenOp?
    && FirstFor(Transit(s), id).Some? && FirstFor(Transit(s), id).value.err.None?
    && (forall m :: j < m < |s.ops| ==> s.ops[m].id != id)
  }

  lemma NearerUsurped(s: State, a: Step, j: JobId, id: Id)
    requires Usurped(s, j, id) && Enabled(s, a) && Nearer(s, a, id) && Poised(Apply(s, a), j, id)
    ensures Usurped(Apply(s, a), j, id)
  {
    hide Inv, NewStreamRefused, CloseConn, FinalizeConn, CloseStream, FinalizeStream, StreamOp, NewStream,
      RunJob, MakeCall, CallsLeft, Report, WaitCheck, ThreadEvent, DrainOne, OpTimeout, Abort, CleanId,
      FrameHolds, FullWire, FreshPtrs, Q.TimerExpire, Q.TimerFire, Q.WaitStart, ResultShape, Transit, Offers;
    if a.DoDrainOne? {
      DrainTransit(s, false);
      DrainStreams(s, false);
      assert Transit(s)[1..] == Transit(Apply(s, a));
    } else if a.DoNewStream? {
      KeptId(s, j);
      var conns, x, ctx, info, job := NewStreamLaunch(s, a.co, a.r, a.c, a.typ, a.req, a.alloc);
      LaunchTransit(s, Apply(s, a), conns, s.streams, a.co, x, ctx, info, job);
      LaunchedOps(s, Apply(s, a), conns, s.streams, a.co, x, ctx, info, job);
    } else if a.DoConnect? {
      AsideFrame(s, a);
    } else {
      InvWaiter(s);
      MovingFrame(s, a);
    }
  }

  lemma {:induction false} UsurpedAlong(s: State, run: seq<Step>, j: JobId, id: Id)
    requires Runs(s, run) && Approaches(s, run, j, id) && Usurped(s, j, id)
    ensures Usurped(After(s, run), j, id)
    decreases |run|
  {
    hide Enabled, Apply, Usurped, Poised;
    if run != [] {
      NextPoised(s, run, j, id);
      NearerUsurped(s, run[0], j, id);
      UsurpedAlong(Apply(s, run[0]), run[1..], j, id);
    }
  }

  lemma NextPoised(s: State, run: seq<Step>, j: JobId, id: Id)
    requires Runs(s, run) && Approaches(s, run, j, id) && run != []
    ensures Poised(Apply(s, run[0]), j, id) && Nearer(s, run[0], id)
  {
    hide Enabled, Apply, Poised, Nearer;
  }

  /** The foreign success hands out a handle whose own stream does not exist. */
  lemma Usurps(s: State, j: JobId, id: Id)
    requires Usurped(s, j, id) && s.posted != [] && s.posted[0].id == id
    ensures Enabled(s, DoDrainOne(false)) && Apply(s, DoDrainOne(false)) == DrainOne(s, false)
    ensures !Resolved(DrainOne(s, false), j, id) && id in DrainOne(s, false).handles && DrainOne(s, false).handles[id]
  {
    hide Inv, Transit, DrainOne, Enabled, Apply;
    DrainStep(s, false);
    KeptId(s, j);
    DrainTransit(s, false);
    DrainStreams(s, false);
    Delivered(s, false);
    UnbornUnused(s, j);
    assert FirstFor(Transit(s), id).value == s.posted[0].origin;
  }

  lemma Unresolve(s: State, j: JobId, id: Id) returns (run: seq<Step>)
    requires Usurped(s, j, id)
    ensures Runs(s, run) && !Resolved(After(s, run), j, id)
  {
    hide Enabled, Apply, Resolved, Inv, Transit, DrainOne;
    assert Poised(s, j, id);
    hide Poised;
    var first := Approach(s, j, id);
    ApproachEnds(s, first, j, id);
    UsurpedAlong(s, first, j, id);
    var t := After(s, first);
    Usurps(t, j, id);
    Prepend(t, DoDrainOne(false), []);
    Concatenate(s, first, [DoDrainOne(false)] + []);
    run := first + ([DoDrainOne(false)] + []);
  }

  /** A job can make all its calls, one after the other. */
  lemma {:induction false} FinishCalls(s: State, k: JobId) returns (run: seq<Step>)
    requires Inv(s) && s.faults == {} && k in s.jobs && s.jobs[k].ran.None?
    ensures Runs(s, run) && Inv(After(s, run)) && After(s, run) == s.(streams := After(s, run).streams)
    ensures CallsLeft(After(s, run), k) == []
    decreases |CallsLeft(s, k)|
  {
    hide Inv, Enabled, Apply, CallsLeft, MakeCall;
    if CallsLeft(s, k) == [] {
      run := [];
    } else {
      CallsMeanStream(s, k);
      CallNow(s, s.jobs[k].uid, k);
      StepInv(s, DoCall(k));
      MakeCallFrame(s, k);
      CallsShift(s, k);
      var rest := FinishCalls(MakeCall(s, k), k);
      Prepend(s, DoCall(k), rest);
      run := [DoCall(k)] + rest;
    }
  }

  /** The opening awaits its first answer. */
  ghost predicate Expecting(s: State, j: JobId, id: Id) {
    && Inv(s) && s.faults == {} && j < |s.ops| && s.ops[j].id == id && s.ops[j].op.OpenOp? && Awaited(s.cos, s.ops, j)
    && j in s.jobs && s.jobs[j].ran.None? && s.jobs[j].op.OpenOp? && FirstFor(Transit(s), id).None?
    && (forall m :: j < m < |s.ops| ==> s.ops[m].id != id)
  }

  lemma ReportUsurps(s: State, k: JobId, j: JobId, id: Id) returns (run: seq<Step>)
    requires Expecting(s, j, id) && k in s.jobs && k != j && s.jobs[k].id == id && s.jobs[k].ran.Some? && s.jobs[k].ran.value.err.None?
    ensures Runs(s, run) && Usurped(After(s, run), j, id)
  {
    hide Inv, Enabled, Apply, Transit, Report, Poised, Awaited;
    JobIs(s, k);
    ReportPoised(s, j, k);
    ReportStep(s, k);
    ReportedId(s, k);
    ReportOps(s, k);
    ReportFrame(s, k);
    FirstSnoc(Transit(s), s.jobs[k].ran.value, id);
    Prepend(s, DoReport(k), []);
    run := [DoReport(k)] + [];
  }

  lemma RunUsurps(s: State, k: JobId, j: JobId, id: Id) returns (run: seq<Step>)
    requires Expecting(s, j, id) && k in s.jobs && k != j && CanSucceed(s.jobs[k], id)
    ensures Runs(s, run) && Usurped(After(s, run), j, id)
  {
    hide Inv, Enabled, Apply, Transit, RunJob, CallsLeft, Usurped, Awaited;
    if s.jobs[k].ran.Some? {
      run := ReportUsurps(s, k, j, id);
    } else {
      var first := FinishCalls(s, k);
      var t := After(s, first);
      TransitSame(s, t);
      SucceedStep(t, k);
      var t1 := RunJob(t, k, None, None);
      StepInv(t, DoRunJob(k, None, None));
      RunJobOps(t, k, None, None);
      var rest := ReportUsurps(t1, k, j, id);
      Prepend(t, DoRunJob(k, None, None), rest);
      Concatenate(s, first, [DoRunJob(k, None, None)] + rest);
      run := first + ([DoRunJob(k, None, None)] + rest);
    }
  }

  lemma BegunUsurped(s: State, s': State, j: JobId, id: Id) returns (run: seq<Step>)
    requires Inv(s) && Begun(s, s', j, id) && Threat(s, id)
    ensures Runs(s', run) && Usurped(After(s', run), j, id)
  {
    hide Inv, Transit, Awaited;
    FirstIn(Transit(s), id);
    if FirstFor(Transit(s), id).Some? {
      run := [];
    } else {
      var k :| k in s.jobs && CanSucceed(s.jobs[k], id);
      JobIs(s, k);
      run := RunUsurps(s', k, j, id);
    }
  }

  /** Openings, exactly: the handle an opening hands out resolves to its own stream in every
      continuation if and only if no earlier job under its id can still be the first to answer it
      with a success. */
  lemma OpeningExact(s: State, a: Step)
    requires Inv(s) && Enabled(s, a) && OpensStream(s, a)
    ensures !Threat(s, KickedId(s, a)) <==>
            forall run :: Runs(Apply(s, a), run) ==> Resolved(After(Apply(s, a), run), |s.ops|, KickedId(s, a))
  {
    hide Inv, Enabled, Apply, Threat, Resolved, Begun, Tame, OpensStream;
    Begins(s, a);
    KickedOps(s, a);
    var s', j, id := Apply(s, a), |s.ops|, KickedId(s, a);
    if Threat(s, id) {
      hide Usurped;
      var first := BegunUsurped(s, s', j, id);
      var rest := Unresolve(After(s', first), j, id);
      Concatenate(s', first, rest);
      assert Runs(s', first + rest);
    } else {
      BegunTame(s, s', j, id);
      forall run | Runs(s', run) ensures Resolved(After(s', run), j, id) {
        TameRun(s', run, j, id);
        TameResolved(After(s', run), j, id);
      }
    }
  }

  lemma KickedOps(s: State, a: Step)
    requires Inv(s) && Enabled(s, a) && OpensStream(s, a)
    ensures KicksOff(s, a) && |s.ops| < |Apply(s, a).ops| && Inv(Apply(s, a))
  {
    hide Inv, Enabled, Apply;
    StepInv(s, a);
  }
}
