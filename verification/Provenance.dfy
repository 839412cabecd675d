/** Where operations, results and completions come from: each is accounted for by one step of
    the run, and nothing a step brings is altered on its way. */
module Provenance {
  import opened Base
  import opened Buffers
  import opened Machine
  import opened Invariants
  import opened Flow
  import opened KickOffs
  import opened Completion
  import opened Draining
  import opened Engine
  import opened Frames
  import opened Reachability
  import opened Undisturbed
  import opened Attribution
  import Q = FinishedQueue

  // ---------------------------------------------------------------- what starts an operation

  /** `call` and `new_stream` start an operation whenever the handle is open; a stream method does
      if the request is the one the stream was opened for, no call on it is under way and the
      engine knows the stream. */
  predicate Begins(s: State, a: Step) {
    match a
    case DoNewStream(_, _, _, _, _, _) => true
    case DoStreamOp(_, r, id, _) => id in s.sctxs && s.sctxs[id].r == Some(r) && s.sctxs[id].waitCo.None? && id in s.streamRefs
    case _ => false
  }

  /** The recorded operation is what the step asked for. */
  predicate Starts(a: Step, info: OpInfo) {
    match a
    case DoNewStream(co, _, _, typ, req, _) => info.co == co && info.op == if typ.Unary? then CallOp(req) else OpenOp(req)
    case DoStreamOp(co, _, id, op) => info.co == co && info.id == id && info.op == op
    case _ => false
  }

  /** The steps of a run that start operations, in order. */
  function Starters(s: State, run: seq<Step>): seq<Step>
    requires Runs(s, run)
    decreases |run|
  {
    if run == [] then []
    else (if Begins(s, run[0]) then [run[0]] else []) + Starters(Apply(s, run[0]), run[1..])
  }

  /** Operation `j` is what the `j`-th starter asked for; its job has the stream type asked for, and
      so has the stream it opened. */
  ghost predicate Started(s: State, starters: seq<Step>) {
    && |starters| == |s.ops|
    && (forall j :: 0 <= j < |s.ops| ==> Starts(starters[j], s.ops[j]))
    && (forall j :: j in s.jobs && j < |s.ops| && !StreamJob(s.jobs[j].op) ==> Types(starters[j], s.jobs[j].typ))
    && (forall u :: u in s.streams && u < |s.ops| ==> Types(starters[u], s.streams[u].typ))
  }

  predicate Types(a: Step, typ: StreamType) {
    a.DoNewStream? && a.typ == typ
  }

  /** Nothing new to account for: jobs may end or go, streams keep their type. */
  predicate NothingStarted(s: State, s': State) {
    && s'.ops == s.ops
    && (forall j :: j in s'.jobs ==> j in s.jobs && s'.jobs[j].op == s.jobs[j].op && s'.jobs[j].typ == s.jobs[j].typ)
    && (forall u :: u in s'.streams ==>
          if u in s.streams then s'.streams[u].typ == s.streams[u].typ
          else u in s.jobs && !StreamJob(s.jobs[u].op) && s'.streams[u].typ == s.jobs[u].typ)
  }

  lemma StartedKept(s: State, s': State, starters: seq<Step>)
    requires Started(s, starters) && NothingStarted(s, s')
    ensures Started(s', starters)
  {
  }

  lemma RunJobStarts(s: State, j: JobId, result: Option<Bytes>, err: Option<Bytes>)
    requires Inv(s) && j in s.jobs && s.jobs[j].ran.None?
    ensures NothingStarted(s, RunJob(s, j, result, err))
  {
    hide Placed, Registry, Waiters, Handled, Delayed, ConnRefsAgree, Conserved, OwnJobs, Completions, Books,
      Attributed, WaiterSound, Owned, LostReason, Wholes, ConnHandled, JobStreams, RunJob, Born, NothingStarted;
    BornType(j, s.jobs[j]);
    JobsObject(s, j);
    if s.jobs[j].op.OpenOp? && err.None? {
      RunOpenShape(s, j, result);
      OpenStarts(s, j, Ran(s, j, result, None), Born(j, s.jobs[j]));
    } else {
      RunQuietShape(s, j, result, err);
      QuietStarts(s, j, Ran(s, j, result, err));
    }
  }

  lemma BornType(j: JobId, job: Job)
    ensures Born(j, job).typ == job.typ
  {
  }

  lemma QuietStarts(s: State, j: JobId, job: Job)
    requires j in s.jobs && job.op == s.jobs[j].op && job.typ == s.jobs[j].typ
    ensures NothingStarted(s, s.(jobs := s.jobs[j := job]))
  {
  }

  lemma OpenStarts(s: State, j: JobId, job: Job, st: Stream)
    requires j in s.jobs && s.jobs[j].op.OpenOp? && job.op == s.jobs[j].op && job.typ == s.jobs[j].typ && st.typ == job.typ
    requires j !in s.streams
    ensures NothingStarted(s, s.(jobs := s.jobs[j := job], streams := s.streams[j := st], streamRefs := s.streamRefs[job.id := j]))
  {
  }

  lemma MakeCallStarts(s: State, j: JobId)
    requires j in s.jobs && CallsLeft(s, j) != []
    ensures NothingStarted(s, MakeCall(s, j))
  {
    hide FullWire, CallsOf;
  }

  lemma ReportStarts(s: State, j: JobId)
    requires j in s.jobs && s.jobs[j].ran.Some?
    ensures NothingStarted(s, Report(s, j))
  {
  }

  /** A launch is accounted for by the step that asked for it. */
  lemma LaunchStarted(s: State, s': State, conns: map<ConnId, Conn>, streams: map<JobId, Stream>,
                      co: Co, id: Id, ctx: StreamCtx, info: OpInfo, job: Job, starters: seq<Step>, a: Step)
    requires Inv(s) && Started(s, starters) && Launch(s, s', conns, streams, co, id, ctx, info, job)
    requires Starts(a, info) && (!StreamJob(job.op) ==> Types(a, job.typ))
    requires forall u :: u in streams ==> u in s.streams && streams[u].typ == s.streams[u].typ
    ensures Started(s', starters + [a])
  {
    hide Inv, CleanId;
    KnownJobs(s);
    var all := starters + [a];
    assert s'.ops == s.ops + [info] && s'.jobs == s.jobs[|s.ops| := job] && s'.streams == streams;
  }

  lemma KnownJobs(s: State)
    requires Inv(s)
    ensures forall j :: j in s.jobs ==> j < |s.ops|
    ensures forall u :: u in s.streams ==> u < |s.ops|
  {
    hide Placed, Registry, Waiters, Handled, Delayed, ConnRefsAgree, Conserved, OwnJobs, Completions,
      Attributed, WaiterSound, Owned, LostReason, Wholes, ConnHandled, CallsOf, FullWire;
    forall j | j in s.jobs ensures j < |s.ops| {
      assert JobSound(j, s.jobs[j], s.ops);
    }
    forall u | u in s.streams ensures u < |s.ops| {
      assert StreamSound(u, s.streams[u], s.ops);
    }
  }

  lemma NewStreamStarted(s: State, a: Step, starters: seq<Step>)
    requires Inv(s) && Enabled(s, a) && a.DoNewStream? && Started(s, starters)
    ensures Started(Apply(s, a), starters + [a]) && |Apply(s, a).ops| == |s.ops| + 1
  {
    hide Inv, NewStreamRefused, CloseConn, FinalizeConn, CloseStream, FinalizeStream, StreamOp, NewStream, Started,
      RunJob, MakeCall, CallsLeft, Report, WaitCheck, ThreadEvent, DrainOne, OpTimeout, Abort, CleanId, Transit, Offers;
    var conns, id, ctx, info, job := NewStreamLaunch(s, a.co, a.r, a.c, a.typ, a.req, a.alloc);
    LaunchStarted(s, Apply(s, a), conns, s.streams, a.co, id, ctx, info, job, starters, a);
    LaunchedOps(s, Apply(s, a), conns, s.streams, a.co, id, ctx, info, job);
  }

  /** The reference of an open handle leads to a stream object. */
  lemma AdmittedExact(s: State, r: Req, id: Id)
    requires Inv(s)
    ensures Admitted(s, r, id) <==>
            id in s.sctxs && s.sctxs[id].r == Some(r) && s.sctxs[id].waitCo.None? && id in s.streamRefs
  {
    hide Placed, Registry, Waiters, Handled, Delayed, ConnRefsAgree, Conserved, OwnJobs, Completions, Books,
      Attributed, WaiterSound, Owned, LostReason, Wholes, ConnHandled, StreamSound;
  }

  lemma StreamOpStarted(s: State, a: Step, starters: seq<Step>)
    requires Inv(s) && Enabled(s, a) && a.DoStreamOp? && Started(s, starters)
    ensures Begins(s, a) ==> Started(Apply(s, a), starters + [a]) && |Apply(s, a).ops| == |s.ops| + 1
    ensures !Begins(s, a) ==> Apply(s, a) == s.(faults := Apply(s, a).faults)
  {
    hide Inv, NewStreamRefused, CloseConn, FinalizeConn, CloseStream, FinalizeStream, StreamOp, NewStream, Started, Admitted,
      RunJob, MakeCall, CallsLeft, Report, WaitCheck, ThreadEvent, DrainOne, OpTimeout, Abort, CleanId, Transit, Offers;
    AdmittedExact(s, a.r, a.id);
    if Begins(s, a) {
      HandleOffers(s, a.id, a.op);
      var streams, ctx, info, job := StreamOpLaunch(s, a.co, a.r, a.id, a.op);
      LaunchStarted(s, Apply(s, a), s.conns, streams, a.co, a.id, ctx, info, job, starters, a);
      LaunchedOps(s, Apply(s, a), s.conns, streams, a.co, a.id, ctx, info, job);
    } else {
      StreamOpRefused(s, a.co, a.r, a.id, a.op);
    }
  }

  lemma StartStep(s: State, a: Step, starters: seq<Step>)
    requires Inv(s) && Enabled(s, a) && Started(s, starters)
    ensures Started(Apply(s, a), starters + if Begins(s, a) then [a] else [])
  {
    hide Inv, NewStream, NewStreamRefused, StreamOp, CloseConn, FinalizeConn, CloseStream, FinalizeStream, Started,
      RunJob, MakeCall, CallsLeft, Report, WaitCheck, ThreadEvent, DrainOne, OpTimeout, Abort, NothingStarted,
      FrameHolds, FullWire, FreshPtrs, Q.TimerExpire, Q.TimerFire, Q.WaitStart, ResultShape, Transit, Offers;
    assert starters + [] == starters;
    if Elsewhere(a) {
      ElsewhereFrame(s, a);
      SameStarts(s, Apply(s, a));
      StartedKept(s, Apply(s, a), starters);
    } else {
      match a {
        case DoNewStream(_, _, _, _, _, _) => NewStreamStarted(s, a, starters);
        case DoStreamOp(_, _, _, _) =>
          StreamOpStarted(s, a, starters);
          if !Begins(s, a) {
            SameStarts(s, Apply(s, a));
            StartedKept(s, Apply(s, a), starters);
          }
        case DoCall(j) =>
          MakeCallStarts(s, j);
          StartedKept(s, Apply(s, a), starters);
        case DoRunJob(j, result, err) =>
          RunJobStarts(s, j, result, err);
          StartedKept(s, Apply(s, a), starters);
        case DoReport(j) =>
          ReportStarts(s, j);
          StartedKept(s, Apply(s, a), starters);
        case _ =>
      }
    }
  }

  lemma SameStarts(s: State, s': State)
    requires s'.ops == s.ops && s'.jobs == s.jobs && s'.streams == s.streams
    ensures NothingStarted(s, s')
  {
  }

  lemma {:induction false} StartRun(s: State, run: seq<Step>, starters: seq<Step>)
    requires Inv(s) && Runs(s, run) && Started(s, starters)
    ensures Started(After(s, run), starters + Starters(s, run))
    decreases |run|
  {
    hide Inv, Apply, Enabled, Started, Begins;
    if run == [] {
      assert starters + [] == starters;
    } else {
      var now := if Begins(s, run[0]) then [run[0]] else [];
      StartStep(s, run[0], starters);
      StepInv(s, run[0]);
      StartRun(Apply(s, run[0]), run[1..], starters + now);
      assert starters + now + Starters(Apply(s, run[0]), run[1..]) == starters + Starters(s, run);
    }
  }

  // ---------------------------------------------------------------- what a goroutine ends with

  /** Result `t` is waiting to be reported, or has been. */
  predicate HasEnded(s: State, t: TaskResult) {
    (t.job in s.jobs && s.jobs[t.job].ran == Some(t)) || t in s.reported
  }

  /** The result a step of a goroutine brings. */
  predicate Brings(s: State, a: Step, t: TaskResult) {
    a.DoRunJob? && a.j < |s.ops| && t == TaskResult(s.ops[a.j].id, a.result, a.err, a.j)
  }

  lemma EndedSame(s: State, s': State)
    requires s'.jobs == s.jobs && s'.reported == s.reported
    ensures forall t :: HasEnded(s', t) <==> HasEnded(s, t)
  {
  }

  lemma RunJobEnds(s: State, j: JobId, result: Option<Bytes>, err: Option<Bytes>)
    requires Inv(s) && j in s.jobs && s.jobs[j].ran.None?
    ensures j < |s.ops|
    ensures forall t :: HasEnded(RunJob(s, j, result, err), t) <==> HasEnded(s, t) || t == TaskResult(s.ops[j].id, result, err, j)
    ensures forall t :: HasEnded(s, t) ==> t.job != j
  {
    hide Placed, Registry, Waiters, Handled, Delayed, ConnRefsAgree, Conserved, OwnJobs, Completions,
      Attributed, WaiterSound, Owned, LostReason, Wholes, ConnHandled, JobStreams, RunJob;
    RunJobFrame(s, j, result, err);
    assert JobSound(j, s.jobs[j], s.ops);
    forall t | HasEnded(s, t) ensures t.job != j {
      if t in s.reported {
        var i :| 0 <= i < |s.reported| && s.reported[i] == t;
      }
    }
  }

  lemma ReportEnds(s: State, j: JobId)
    requires Inv(s) && j in s.jobs && s.jobs[j].ran.Some?
    ensures forall t :: HasEnded(Report(s, j), t) <==> HasEnded(s, t)
  {
    hide Placed, Registry, Waiters, Handled, Delayed, ConnRefsAgree, Conserved, OwnJobs, Completions,
      Attributed, WaiterSound, Owned, LostReason, Wholes, ConnHandled, JobStreams;
    assert JobSound(j, s.jobs[j], s.ops);
  }

  lemma LaunchEnds(s: State, s': State, conns: map<ConnId, Conn>, streams: map<JobId, Stream>,
                   co: Co, id: Id, ctx: StreamCtx, info: OpInfo, job: Job)
    requires Inv(s) && Launch(s, s', conns, streams, co, id, ctx, info, job)
    ensures forall t :: HasEnded(s', t) <==> HasEnded(s, t)
  {
    hide Inv, CleanId;
    KnownJobs(s);
    assert s'.jobs == s.jobs[|s.ops| := job] && s'.reported == s.reported;
  }

  lemma DrainReported(s: State, decodes: bool)
    requires Inv(s) && s.posted != []
    ensures DrainOne(s, decodes).reported == s.reported
  {
    hide Placed, Registry, Handled, Delayed, ConnRefsAgree, Books, Conserved, OwnJobs, Completions, Waiters,
      Attributed, WaiterSound, Owned, LostReason, Wholes, ConnHandled, JobStreams, Transit, DrainOne, Unsettled, Resume, Prepared,
      PlaceAfter, ConnsAfter, Succeeded, Delivery;
    Head(s);
    if s.posted[0].id in s.ongoing {
      DeliveryAttributed(s, decodes);
      DeliverShape(s, decodes);
      PreparedResume(s, Delivery(s, decodes));
    } else {
      DiscardShape(s, decodes);
    }
  }

  lemma OtherReported(s: State, a: Step)
    requires Inv(s) && Enabled(s, a) && Elsewhere(a)
    ensures Apply(s, a).reported == s.reported
  {
    hide Inv, NewStream, NewStreamRefused, StreamOp, CloseConn, FinalizeConn, CloseStream, FinalizeStream,
      RunJob, MakeCall, CallsLeft, Report, WaitCheck, ThreadEvent, DrainOne, OpTimeout, Abort, Transit,
      FrameHolds, FullWire, FreshPtrs, Q.TimerExpire, Q.TimerFire, Q.WaitStart, ResultShape, Offers;
    if Aside(a) {
      AsideFrame(s, a);
    } else if Moving(a) {
      InvWaiter(s);
      MovingFrame(s, a);
    } else if a.DoDrainOne? {
      DrainReported(s, a.decodes);
    } else if a.DoOpTimeout? {
      TimeoutReported(s, a.co);
    } else {
      AbortReported(s, a.co);
    }
  }

  lemma TimeoutReported(s: State, co: Co)
    requires Inv(s) && CoOf(s, co).timer
    ensures OpTimeout(s, co).reported == s.reported
  {
    hide Placed, Registry, Handled, Delayed, ConnRefsAgree, Books, Conserved, OwnJobs, Completions, Waiters,
      Attributed, WaiterSound, Owned, LostReason, Wholes, ConnHandled, JobStreams, OpTimeout, ConnsAfter, PlaceAfter;
    WaitingKept(s, co);
    Kept(s, s.cos[co].data);
    OpTimeoutShape(s, co);
  }

  lemma AbortReported(s: State, co: Co)
    requires Inv(s) && CoOf(s, co).cleanup
    ensures Abort(s, co).reported == s.reported
  {
    hide Placed, Registry, Handled, Delayed, ConnRefsAgree, Books, Conserved, OwnJobs, Completions, Waiters,
      Attributed, WaiterSound, Owned, LostReason, Wholes, ConnHandled, JobStreams;
    WaitingKept(s, co);
  }

  lemma EndStep(s: State, a: Step)
    requires Inv(s) && Enabled(s, a)
    ensures forall t :: HasEnded(Apply(s, a), t) <==> HasEnded(s, t) || Brings(s, a, t)
    ensures forall t :: a.DoRunJob? && HasEnded(s, t) ==> t.job != a.j
    ensures a.DoRunJob? ==> a.j < |s.ops|
  {
    hide Inv, NewStream, NewStreamRefused, StreamOp, CloseConn, FinalizeConn, CloseStream, FinalizeStream, HasEnded,
      RunJob, MakeCall, CallsLeft, Report, WaitCheck, ThreadEvent, DrainOne, OpTimeout, Abort, Admitted,
      FrameHolds, FullWire, FreshPtrs, Q.TimerExpire, Q.TimerFire, Q.WaitStart, ResultShape, Transit, Offers;
    if Elsewhere(a) {
      ElsewhereFrame(s, a);
      OtherReported(s, a);
      EndedSame(s, Apply(s, a));
    } else {
      match a {
        case DoNewStream(co, r, c, typ, req, alloc) =>
          var conns, id, ctx, info, job := NewStreamLaunch(s, co, r, c, typ, req, alloc);
          LaunchEnds(s, Apply(s, a), conns, s.streams, co, id, ctx, info, job);
        case DoStreamOp(co, r, id, op) =>
          if Admitted(s, r, id) {
            var streams, ctx, info, job := StreamOpLaunch(s, co, r, id, op);
            LaunchEnds(s, Apply(s, a), s.conns, streams, co, id, ctx, info, job);
          } else {
            StreamOpRefused(s, co, r, id, op);
            EndedSame(s, Apply(s, a));
          }
        case DoCall(j) =>
          MakeCallFrame(s, j);
          EndedSame(s, Apply(s, a));
        case DoRunJob(j, result, err) => RunJobEnds(s, j, result, err);
        case DoReport(j) => ReportEnds(s, j);
        case _ =>
      }
    }
  }

  /** Job `j` of the run ended with this result and error. */
  predicate EndsWith(run: seq<Step>, j: JobId, result: Option<Bytes>, err: Option<Bytes>) {
    DoRunJob(j, result, err) in run
  }

  /** Over a run: what has ended since is what its goroutine steps brought, nothing of it is lost, and
      no job that had ended ends again. */
  lemma {:induction false} EndRun(s: State, run: seq<Step>)
    requires Inv(s) && Runs(s, run)
    ensures var s' := After(s, run);
            && (forall t :: HasEnded(s', t) ==> HasEnded(s, t) || EndsWith(run, t.job, t.result, t.err))
            && (forall t :: HasEnded(s, t) ==> HasEnded(s', t))
            && (forall i :: 0 <= i < |run| && run[i].DoRunJob? ==>
                  run[i].j < |s'.ops| && HasEnded(s', TaskResult(s'.ops[run[i].j].id, run[i].result, run[i].err, run[i].j)))
            && (forall i, t :: 0 <= i < |run| && run[i].DoRunJob? && HasEnded(s, t) ==> t.job != run[i].j)
    decreases |run|
  {
    hide Inv, Apply, Enabled, HasEnded;
    if run != [] {
      var a, s1, rest := run[0], Apply(s, run[0]), run[1..];
      var s' := After(s, run);
      EndStep(s, a);
      StepInv(s, a);
      OpsStep(s, a);
      OpsRun(s1, rest);
      EndRun(s1, rest);
      assert run == [a] + rest;
      if a.DoRunJob? {
        assert Brings(s, a, TaskResult(s.ops[a.j].id, a.result, a.err, a.j));
      }
      forall i | 0 <= i < |run| && run[i].DoRunJob?
        ensures run[i].j < |s'.ops| && HasEnded(s', TaskResult(s'.ops[run[i].j].id, run[i].result, run[i].err, run[i].j))
      {
        if i > 0 { assert run[i] == rest[i - 1]; }
      }
      forall i, t | 0 <= i < |run| && run[i].DoRunJob? && HasEnded(s, t) ensures t.job != run[i].j {
        if i > 0 { assert run[i] == rest[i - 1]; }
      }
    }
  }

  /** A job ends once. */
  lemma {:induction false} EndsOnce(s: State, run: seq<Step>, i: nat, k: nat)
    requires Inv(s) && Runs(s, run) && i < k < |run| && run[i].DoRunJob? && run[k].DoRunJob?
    ensures run[i].j != run[k].j
    decreases |run|
  {
    hide Inv, Apply, Enabled, HasEnded;
    var a, s1, rest := run[0], Apply(s, run[0]), run[1..];
    StepInv(s, a);
    assert run[k] == rest[k - 1];
    if i == 0 {
      EndStep(s, a);
      assert Brings(s, a, TaskResult(s.ops[a.j].id, a.result, a.err, a.j));
      EndRun(s1, rest);
    } else {
      assert run[i] == rest[i - 1];
      EndsOnce(s1, rest, i - 1, k - 1);
    }
  }

  // ---------------------------------------------------------------- what ends an operation

  /** How a step ends an operation: a record that finds its id registered (with the decoder's
      verdict and the type of the stream it is for), a timer, or a cleanup hook. */
  datatype Ending = ByRecord(t: TaskResult, decodes: bool, typ: StreamType) | ByTimeout(co: Co) | ByAbort(co: Co)

  function Endings(s: State, a: Step): seq<Ending>
    requires Enabled(s, a)
  {
    match a
    case DoDrainOne(decodes) =>
      var x := s.posted[0];
      if x.id in s.ongoing && x.id in s.sctxs then [ByRecord(x.origin, decodes, s.sctxs[x.id].typ)] else []
    case DoOpTimeout(co) => [ByTimeout(co)]
    case DoAbort(co) => [ByAbort(co)]
    case _ => []
  }

  function EndingsOf(s: State, run: seq<Step>): seq<Ending>
    requires Runs(s, run)
    decreases |run|
  {
    if run == [] then [] else Endings(s, run[0]) + EndingsOf(Apply(s, run[0]), run[1..])
  }

  /** The completion an ending must leave: a timeout or an abort of the coroutine's own operation, or
      the record's result under the operation's id - an error wins over a payload, a missing payload
      stays missing - and `recv_close` closes exactly on a decoded success of a client stream. */
  predicate EndsAs(e: Ending, v: Event, ops: seq<OpInfo>) {
    v.op < |ops| &&
    match e
    case ByRecord(t, decodes, typ) =>
      && t.id == ops[v.op].id && v.cause.Result? && v.cause.origin == t
      && v.cause.val == (if t.err.Some? then LuaValue(false, t.err) else LuaValue(true, t.result))
      && (v.cause.closed <==> typ.ClientStream? && ops[v.op].op.RecvOp? && t.err.None? && decodes)
    case ByTimeout(co) => v.cause == Timeout && ops[v.op].co == co
    case ByAbort(co) => v.cause == Aborted && ops[v.op].co == co
  }

  ghost predicate Completed(s: State, endings: seq<Ending>) {
    && |endings| == |s.events|
    && forall i :: 0 <= i < |s.events| ==> EndsAs(endings[i], s.events[i], s.ops)
  }

  lemma CompletedKept(s: State, s': State, endings: seq<Ending>)
    requires Completed(s, endings) && s'.events == s.events && s.ops <= s'.ops
    ensures Completed(s', endings)
  {
  }

  lemma CompletedMore(s: State, s': State, endings: seq<Ending>, e: Ending, v: Event)
    requires Completed(s, endings) && s'.events == s.events + [v] && s'.ops == s.ops && EndsAs(e, v, s.ops)
    ensures Completed(s', endings + [e])
  {
  }

  lemma DrainEnds(s: State, decodes: bool)
    requires Inv(s) && s.posted != []
    ensures DrainOne(s, decodes).ops == s.ops
    ensures s.posted[0].id !in s.ongoing ==> DrainOne(s, decodes).events == s.events
    ensures s.posted[0].id in s.ongoing ==>
              && s.posted[0].id in s.sctxs && |DrainOne(s, decodes).events| == |s.events| + 1
              && var v := DrainOne(s, decodes).events[|s.events|];
                 && DrainOne(s, decodes).events == s.events + [v]
                 && EndsAs(ByRecord(s.posted[0].origin, decodes, s.sctxs[s.posted[0].id].typ), v, s.ops)
  {
    hide Placed, Registry, Handled, Delayed, ConnRefsAgree, Books, Conserved, OwnJobs, Completions, Waiters,
      Attributed, WaiterSound, Owned, LostReason, Wholes, ConnHandled, JobStreams, Transit, DrainOne, Unsettled, Resume, Prepared,
      PlaceAfter, ConnsAfter, Succeeded;
    DrainStreams(s, decodes);
    Head(s);
    if s.posted[0].id in s.ongoing {
      DeliveryAttributed(s, decodes);
      DeliverShape(s, decodes);
      PreparedResume(s, Delivery(s, decodes));
    } else {
      DiscardShape(s, decodes);
    }
  }

  lemma TimeoutEnds(s: State, co: Co)
    requires Inv(s) && CoOf(s, co).timer
    ensures co in s.cos && s.cos[co].run.Waiting? && s.cos[co].run.op < |s.ops| && s.ops[s.cos[co].run.op].co == co
    ensures OpTimeout(s, co).events == s.events + [Event(s.cos[co].run.op, Timeout)] && OpTimeout(s, co).ops == s.ops
  {
    hide Placed, Registry, Handled, Delayed, ConnRefsAgree, Books, Conserved, OwnJobs, Completions, Waiters,
      Attributed, WaiterSound, Owned, LostReason, Wholes, ConnHandled, JobStreams, OpTimeout, ConnsAfter, PlaceAfter;
    WaitingKept(s, co);
    Kept(s, s.cos[co].data);
    OpTimeoutShape(s, co);
  }

  lemma AbortEnds(s: State, co: Co)
    requires Inv(s) && CoOf(s, co).cleanup
    ensures co in s.cos && s.cos[co].run.Waiting? && s.cos[co].run.op < |s.ops| && s.ops[s.cos[co].run.op].co == co
    ensures Abort(s, co).events == s.events + [Event(s.cos[co].run.op, Aborted)] && Abort(s, co).ops == s.ops
  {
    hide Placed, Registry, Handled, Delayed, ConnRefsAgree, Books, Conserved, OwnJobs, Completions, Waiters,
      Attributed, WaiterSound, Owned, LostReason, Wholes, ConnHandled, JobStreams;
    WaitingKept(s, co);
    Kept(s, s.cos[co].data);
  }

  lemma LaunchCompletes(s: State, s': State, conns: map<ConnId, Conn>, streams: map<JobId, Stream>,
                        co: Co, id: Id, ctx: StreamCtx, info: OpInfo, job: Job)
    requires Launch(s, s', conns, streams, co, id, ctx, info, job)
    ensures s'.events == s.events
  {
    hide CleanId;
  }

  lemma KickCompletes(s: State, a: Step)
    requires Inv(s) && Enabled(s, a) && (a.DoNewStream? || a.DoStreamOp?)
    ensures Apply(s, a).events == s.events
  {
    hide Inv, NewStream, NewStreamRefused, StreamOp, CloseConn, FinalizeConn, CloseStream, FinalizeStream, Launch, Draws, KickedOn,
      RunJob, MakeCall, CallsLeft, Report, WaitCheck, ThreadEvent, DrainOne, OpTimeout, Abort, Transit, CleanId, Admitted,
      FrameHolds, FullWire, FreshPtrs, ResultShape, Offers;
    if a.DoNewStream? {
      var conns, id, ctx, info, job := NewStreamLaunch(s, a.co, a.r, a.c, a.typ, a.req, a.alloc);
      LaunchCompletes(s, Apply(s, a), conns, s.streams, a.co, id, ctx, info, job);
    } else if Admitted(s, a.r, a.id) {
      var streams, ctx, info, job := StreamOpLaunch(s, a.co, a.r, a.id, a.op);
      LaunchCompletes(s, Apply(s, a), s.conns, streams, a.co, a.id, ctx, info, job);
    } else {
      StreamOpRefused(s, a.co, a.r, a.id, a.op);
    }
  }

  /** Every other step completes nothing. */
  lemma NothingEnds(s: State, a: Step)
    requires Inv(s) && Enabled(s, a) && !a.DoDrainOne? && !a.DoOpTimeout? && !a.DoAbort?
    ensures Apply(s, a).events == s.events
  {
    hide Inv, NewStream, NewStreamRefused, StreamOp, CloseConn, FinalizeConn, CloseStream, FinalizeStream, Connect,
      RunJob, MakeCall, CallsLeft, WaitCheck, ThreadEvent, DrainOne, OpTimeout, Abort, Transit,
      FrameHolds, FullWire, FreshPtrs, Q.TimerExpire, Q.TimerFire, Q.WaitStart, Q.Done, ResultShape, Offers;
    if Aside(a) {
      AsideFrame(s, a);
    } else if Moving(a) {
      InvWaiter(s);
      MovingFrame(s, a);
    } else {
      match a {
        case DoNewStream(_, _, _, _, _, _) => KickCompletes(s, a);
        case DoStreamOp(_, _, _, _) => KickCompletes(s, a);
        case DoCall(j) => MakeCallFrame(s, j);
        case DoRunJob(j, result, err) => RunJobFrame(s, j, result, err);
        case _ =>
      }
    }
  }

  lemma CompleteStep(s: State, a: Step, endings: seq<Ending>)
    requires Inv(s) && Enabled(s, a) && Completed(s, endings)
    ensures Completed(Apply(s, a), endings + Endings(s, a))
  {
    hide Inv, NewStream, NewStreamRefused, StreamOp, CloseConn, FinalizeConn, CloseStream, FinalizeStream, Completed,
      RunJob, MakeCall, CallsLeft, Report, WaitCheck, ThreadEvent, DrainOne, OpTimeout, Abort, EndsAs,
      FrameHolds, FullWire, FreshPtrs, Q.TimerExpire, Q.TimerFire, Q.WaitStart, ResultShape, Offers;
    var s' := Apply(s, a);
    assert endings + [] == endings;
    match a {
      case DoDrainOne(decodes) =>
        DrainEnds(s, decodes);
        if s.posted[0].id in s.ongoing {
          CompletedMore(s, s', endings, ByRecord(s.posted[0].origin, decodes, s.sctxs[s.posted[0].id].typ), s'.events[|s.events|]);
        } else {
          CompletedKept(s, s', endings);
        }
      case DoOpTimeout(co) =>
        TimeoutEnds(s, co);
        TimedEnd(s, co);
        CompletedMore(s, s', endings, ByTimeout(co), Event(s.cos[co].run.op, Timeout));
      case DoAbort(co) =>
        AbortEnds(s, co);
        TimedEnd(s, co);
        CompletedMore(s, s', endings, ByAbort(co), Event(s.cos[co].run.op, Aborted));
      case _ =>
        NothingEnds(s, a);
        OpsStep(s, a);
        CompletedKept(s, s', endings);
    }
  }

  lemma TimedEnd(s: State, co: Co)
    requires co in s.cos && s.cos[co].run.Waiting? && s.cos[co].run.op < |s.ops| && s.ops[s.cos[co].run.op].co == co
    ensures EndsAs(ByTimeout(co), Event(s.cos[co].run.op, Timeout), s.ops)
    ensures EndsAs(ByAbort(co), Event(s.cos[co].run.op, Aborted), s.ops)
  {
  }

  lemma {:induction false} CompleteRun(s: State, run: seq<Step>, endings: seq<Ending>)
    requires Inv(s) && Runs(s, run) && Completed(s, endings)
    ensures Completed(After(s, run), endings + EndingsOf(s, run))
    decreases |run|
  {
    hide Inv, Apply, Enabled, Completed, Endings;
    if run == [] {
      assert endings + [] == endings;
    } else {
      var now := Endings(s, run[0]);
      CompleteStep(s, run[0], endings);
      StepInv(s, run[0]);
      CompleteRun(Apply(s, run[0]), run[1..], endings + now);
      assert endings + now + EndingsOf(Apply(s, run[0]), run[1..]) == endings + EndingsOf(s, run);
    }
  }
}
