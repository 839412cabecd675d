/** Exactly when an operation can be resumed with another job's result. */
module Attribution {
  import opened Base
  import opened Buffers
  import opened Machine
  import opened Invariants
  import opened Flow
  import opened KickOffs
  import opened Destruction
  import opened Completion
  import opened Draining
  import opened Engine
  import opened Frames
  import opened Reachability
  import opened Undisturbed
  import Q = FinishedQueue

  /** Operation `j` was resumed with a result some other job reported. */
  predicate Misled(s: State, j: JobId) {
    exists i :: 0 <= i < |s.events| && s.events[i].op == j && s.events[i].cause.Result? && s.events[i].cause.origin.job != j
  }

  // ---------------------------------------------------------------- operations are never forgotten

  lemma OpsStep(s: State, a: Step)
    requires Inv(s) && Enabled(s, a)
    ensures s.ops <= Apply(s, a).ops
  {
    hide Inv, NewStream, NewStreamRefused, StreamOp, CloseConn, FinalizeConn, CloseStream, FinalizeStream,
      RunJob, MakeCall, CallsLeft, Report, WaitCheck, ThreadEvent, DrainOne, OpTimeout, Abort, Launch,
      FrameHolds, FullWire, FreshPtrs, Q.TimerExpire, Q.TimerFire, Q.WaitStart, ResultShape, Transit, Offers;
    if Elsewhere(a) {
      ElsewhereFrame(s, a);
    } else {
      match a {
        case DoNewStream(co, r, c, typ, req, alloc) =>
          var conns, id, ctx, info, job := NewStreamLaunch(s, co, r, c, typ, req, alloc);
          LaunchedOps(s, Apply(s, a), conns, s.streams, co, id, ctx, info, job);
        case DoStreamOp(co, r, id, op) => StreamOpOps(s, co, r, id, op);
        case DoCall(j) => MakeCallFrame(s, j);
        case DoRunJob(j, result, err) => RunJobOps(s, j, result, err);
        case DoReport(j) => ReportOps(s, j);
        case _ =>
      }
    }
  }

  lemma StreamOpOps(s: State, co: Co, r: Req, id: Id, op: Op)
    requires Inv(s) && CoOf(s, co).run.Running? && id in s.handles
    ensures s.ops <= StreamOp(s, co, r, id, op).ops
  {
    hide Inv, StreamOp, Launch;
    if Admitted(s, r, id) {
      var streams, ctx, info, job := StreamOpLaunch(s, co, r, id, op);
      LaunchedOps(s, StreamOp(s, co, r, id, op), s.conns, streams, co, id, ctx, info, job);
    } else {
      StreamOpRefused(s, co, r, id, op);
    }
  }

  /** Steps that concern neither goroutines nor the starting of operations. */
  predicate Elsewhere(a: Step) {
    Aside(a) || Moving(a) || a.DoDrainOne? || a.DoOpTimeout? || a.DoAbort?
  }

  lemma ElsewhereFrame(s: State, a: Step)
    requires Inv(s) && Enabled(s, a) && Elsewhere(a)
    ensures Apply(s, a).jobs == s.jobs && Apply(s, a).streams == s.streams && Apply(s, a).ops == s.ops
  {
    hide Inv, NewStream, NewStreamRefused, StreamOp, CloseConn, FinalizeConn, CloseStream, FinalizeStream,
      RunJob, MakeCall, CallsLeft, Report, WaitCheck, ThreadEvent, DrainOne, OpTimeout, Abort, Transit,
      FrameHolds, FullWire, FreshPtrs, Q.TimerExpire, Q.TimerFire, Q.WaitStart, ResultShape, Offers;
    if Aside(a) {
      AsideFrame(s, a);
    } else if Moving(a) {
      InvWaiter(s);
      MovingFrame(s, a);
    } else if a.DoDrainOne? {
      DrainStreams(s, a.decodes);
    } else if a.DoOpTimeout? {
      TimeoutStreams(s, a.co);
    } else {
      AbortStreams(s, a.co);
    }
  }

  lemma DrainStreams(s: State, decodes: bool)
    requires Inv(s) && s.posted != []
    ensures DrainOne(s, decodes).jobs == s.jobs && DrainOne(s, decodes).streams == s.streams && DrainOne(s, decodes).ops == s.ops
  {
    hide Placed, Registry, Handled, Delayed, ConnRefsAgree, Books, Conserved, OwnJobs, Completions, Waiters,
      Attributed, WaiterSound, Owned, LostReason, Wholes, ConnHandled, JobStreams, Transit, DrainOne, Unsettled, Resume, Prepared,
      Resumed, Take;
    Head(s);
    if s.posted[0].id in s.ongoing {
      DeliveryAttributed(s, decodes);
      var cause := Delivery(s, decodes);
      DeliverShape(s, decodes);
      PreparedResume(s, cause);
      TakeResumedFrame(s, cause);
    } else {
      DiscardShape(s, decodes);
      TakeStreams(s);
    }
  }

  lemma TakeStreams(s: State)
    requires s.posted != []
    ensures Take(s).jobs == s.jobs && Take(s).streams == s.streams && Take(s).ops == s.ops
  {
  }

  lemma TimeoutStreams(s: State, co: Co)
    requires Inv(s) && CoOf(s, co).timer
    ensures OpTimeout(s, co).jobs == s.jobs && OpTimeout(s, co).streams == s.streams && OpTimeout(s, co).ops == s.ops
  {
    hide Placed, Registry, Handled, Delayed, ConnRefsAgree, Books, Conserved, OwnJobs, Completions, Waiters,
      Attributed, WaiterSound, Owned, LostReason, Wholes, ConnHandled, JobStreams, OpTimeout, ConnsAfter, PlaceAfter;
    WaitingKept(s, co);
    Kept(s, s.cos[co].data);
    OpTimeoutShape(s, co);
  }

  lemma AbortStreams(s: State, co: Co)
    requires Inv(s) && CoOf(s, co).cleanup
    ensures Abort(s, co).jobs == s.jobs && Abort(s, co).streams == s.streams && Abort(s, co).ops == s.ops
  {
    hide Placed, Registry, Handled, Delayed, ConnRefsAgree, Books, Conserved, OwnJobs, Completions, Waiters,
      Attributed, WaiterSound, Owned, LostReason, Wholes, ConnHandled, JobStreams;
    WaitingKept(s, co);
  }

  lemma InvWaiter(s: State)
    requires Inv(s)
    ensures WaiterSound(s.q, s.active, s.batch)
  {
  }

  lemma LaunchedOps(s: State, s': State, conns: map<ConnId, Conn>, streams: map<JobId, Stream>,
                    co: Co, id: Id, ctx: StreamCtx, info: OpInfo, job: Job)
    requires Launch(s, s', conns, streams, co, id, ctx, info, job)
    ensures s'.ops == s.ops + [info] && s'.faults == s.faults && s'.jobs == s.jobs[|s.ops| := job]
    ensures s'.cos == s.cos[co := CoCtx(Waiting(|s.ops|), true, true, id)]
  {
    hide CleanId;
  }

  lemma RunJobOps(s: State, j: JobId, result: Option<Bytes>, err: Option<Bytes>)
    requires j in s.jobs
    ensures var s' := RunJob(s, j, result, err);
            s'.ops == s.ops && s'.cos == s.cos && s'.faults == s.faults && s'.jobs == s.jobs[j := Ran(s, j, result, err)]
            && Transit(s') == Transit(s)
  {
    hide RunJob, Transit;
    RunJobFrame(s, j, result, err);
    TransitSame(s, RunJob(s, j, result, err));
  }

  lemma ReportOps(s: State, j: JobId)
    requires j in s.jobs && s.jobs[j].ran.Some?
    ensures Report(s, j).ops == s.ops && Report(s, j).cos == s.cos && Report(s, j).faults == s.faults
  {
  }

  lemma DrainOps(s: State, decodes: bool)
    requires Inv(s) && s.posted != []
    ensures DrainOne(s, decodes).ops == s.ops && DrainOne(s, decodes).jobs == s.jobs && DrainOne(s, decodes).faults == s.faults
  {
    hide Placed, Registry, Handled, Delayed, ConnRefsAgree, Books, Conserved, OwnJobs, Completions, Waiters,
      Attributed, WaiterSound, Owned, LostReason, Wholes, ConnHandled, JobStreams, Transit, DrainOne, Unsettled, Resume, Prepared,
      ConnsAfter, PlaceAfter, Succeeded;
    Head(s);
    if s.posted[0].id in s.ongoing {
      DeliveryAttributed(s, decodes);
      DeliverShape(s, decodes);
      PreparedResume(s, Delivery(s, decodes));
    } else {
      DiscardShape(s, decodes);
    }
  }

  lemma {:induction false} OpsRun(s: State, run: seq<Step>)
    requires Inv(s) && Runs(s, run)
    ensures s.ops <= After(s, run).ops
    decreases |run|
  {
    hide Inv, Apply, Enabled;
    if run != [] {
      OpsStep(s, run[0]);
      StepInv(s, run[0]);
      OpsRun(Apply(s, run[0]), run[1..]);
    }
  }

  // ---------------------------------------------------------------- driving a stale result home

  /** `j` waits on `id` with its own job still running while an older result for `id` travels. */
  ghost predicate Poised(s: State, j: JobId, id: Id) {
    && Inv(s) && s.faults == {} && j < |s.ops| && s.ops[j].id == id && Awaited(s.cos, s.ops, j) && j in s.jobs
    && exists i :: 0 <= i < |Transit(s)| && Transit(s)[i].id == id
  }

  /** How far the oldest result is from the posted queue. */
  function Stage(s: State): nat {
    if s.posted != [] then 0
    else match s.q.phase
      case Finished => if s.batch != [] then 1 else 5
      case Entering => 2
      case Woken => 2
      case Queued => 3
      case Off => 4
      case Parked => 6
  }

  lemma Prepend(s: State, a: Step, run: seq<Step>)
    requires Enabled(s, a) && Runs(Apply(s, a), run)
    ensures Runs(s, [a] + run) && After(s, [a] + run) == After(Apply(s, a), run)
  {
    hide Enabled, Apply;
    assert ([a] + run)[1..] == run;
  }

  /** The awaiting coroutine is untouched when another id's record is drained. */
  lemma DrainPoised(s: State, j: JobId, id: Id)
    requires Poised(s, j, id) && s.posted != [] && s.posted[0].id != id
    ensures Poised(DrainOne(s, false), j, id) && |Transit(DrainOne(s, false))| == |Transit(s)| - 1
  {
    hide Placed, Registry, Handled, Delayed, ConnRefsAgree, Books, Conserved, OwnJobs, Completions, Waiters,
      Attributed, WaiterSound, Owned, LostReason, Wholes, ConnHandled, JobStreams, Transit, DrainOne, Unsettled, Resume, Prepared, Take, Resumed;
    var x := s.posted[0];
    var s' := DrainOne(s, false);
    DrainOneInv(s, false);
    DrainOps(s, false);
    Head(s);
    assert Transit(s) == [x.origin] + Transit(Take(s));
    if x.id in s.ongoing {
      DeliveryAttributed(s, false);
      var cause := Delivery(s, false);
      DeliverShape(s, false);
      PreparedResume(s, cause);
      TakeResumedFrame(s, cause);
      AwaitedElsewhere(s, x.id, j);
    } else {
      DiscardShape(s, false);
      TakeCos(s);
    }
    var i :| 0 <= i < |Transit(s)| && Transit(s)[i].id == id;
    assert i > 0;
    assert Transit(s')[i - 1].id == id;
  }

  lemma TakeCos(s: State)
    requires s.posted != []
    ensures Take(s).cos == s.cos
  {
  }

  lemma AwaitedElsewhere(s: State, id: Id, j: JobId)
    requires Waiters(s.ongoing, s.sctxs, s.cos, s.ops) && id in s.ongoing && id in s.sctxs && s.sctxs[id].waitCo.Some?
    requires j < |s.ops| && Awaited(s.cos, s.ops, j) && s.ops[j].id != id
    ensures Awaited(s.cos[s.sctxs[id].waitCo.value := CoCtx(Running, false, false, id)], s.ops, j)
  {
    assert CoSound(s.ongoing, s.sctxs, s.ops[j].co, s.cos[s.ops[j].co], s.ops);
  }

  /** Queue and waiter steps leave the situation as it is. */
  lemma MovePoised(s: State, a: Step, j: JobId, id: Id)
    requires Poised(s, j, id) && Enabled(s, a) && Moving(a)
    ensures Poised(Apply(s, a), j, id) && Transit(Apply(s, a)) == Transit(s)
  {
    hide Inv, Enabled, Apply, Transit;
    InvWaiter(s);
    StepInv(s, a);
    MovingFrame(s, a);
  }

  lemma KeptId(s: State, j: JobId)
    requires Inv(s) && j < |s.ops| && Awaited(s.cos, s.ops, j)
    ensures s.ops[j].id in s.ongoing && s.ops[j].id in s.sctxs && s.sctxs[s.ops[j].id].waitCo == Some(s.ops[j].co)
    ensures s.ongoingNum > 0
  {
    hide Placed, Handled, Delayed, ConnRefsAgree, Books, Conserved, OwnJobs, Completions,
      Attributed, WaiterSound, Owned, LostReason, Wholes, ConnHandled, JobStreams;
    assert CoSound(s.ongoing, s.sctxs, s.ops[j].co, s.cos[s.ops[j].co], s.ops);
  }

  /** With nothing posted, one step of the waiter brings the result closer. */
  lemma WaiterAdvance(s: State, j: JobId, id: Id) returns (a: Step)
    requires Poised(s, j, id) && s.posted == [] && s.q.phase != Q.Off
    ensures Enabled(s, a) && Moving(a)
    ensures Poised(Apply(s, a), j, id) && Transit(Apply(s, a)) == Transit(s) && Stage(Apply(s, a)) < Stage(s)
  {
    a := WaiterNext(s, j, id);
    hide Poised, Inv, Enabled, Apply, Transit, Stage;
    MovePoised(s, a, j, id);
  }

  lemma WaiterNext(s: State, j: JobId, id: Id) returns (a: Step)
    requires Poised(s, j, id) && s.posted == [] && s.q.phase != Q.Off
    ensures Enabled(s, a) && Moving(a) && Stage(Apply(s, a)) < Stage(s)
  {
    hide Placed, Registry, Handled, Delayed, ConnRefsAgree, Books, Conserved, OwnJobs, Completions, Waiters,
      Attributed, Owned, LostReason, Wholes, ConnHandled, JobStreams, NewStream, NewStreamRefused, StreamOp, CloseConn, FinalizeConn,
      CloseStream, FinalizeStream, RunJob, MakeCall, CallsLeft, Report, WaitCheck, ThreadEvent, DrainOne, OpTimeout, Abort,
      FrameHolds, FullWire, FreshPtrs, ResultShape, Offers, StoreAll, Transit;
    TransitLength(s);
    if s.q.phase == Q.Queued {
      a := DoWaitStart;
    } else if s.q.phase == Q.Finished {
      a := DoThreadEvent;
      KeptId(s, j);
      ThreadEventShape(s);
    } else {
      var ptrs := Pointers(s.heap, |s.q.tasks|);
      a := DoWaitCheck(ptrs);
      WaitCheckShape(s, ptrs);
    }
  }

  /** Malloc can always answer. */
  lemma Pointers(h: Heap, n: nat) returns (ps: seq<Ptr>)
    ensures |ps| == n && FreshPtrs(h, ps)
  {
    var m := Above(h.Keys);
    ps := seq(n, i => 8 * (m + 1 + i));
  }

  lemma Above(xs: set<nat>) returns (m: nat)
    ensures forall x :: x in xs ==> x < m
    ensures m !in xs
  {
    if xs == {} {
      m := 0;
    } else {
      var x :| x in xs;
      var k := Above(xs - {x});
      m := if k > x then k else x + 1;
      assert xs == (xs - {x}) + {x};
    }
  }

  /** A call on a new connection by a new coroutine wakes the waiter again. */
  lemma Poke(s: State, j: JobId, id: Id) returns (a1: Step, a2: Step)
    requires Poised(s, j, id) && s.q.phase == Q.Off
    ensures Enabled(s, a1) && Enabled(Apply(s, a1), a2) && a1.DoConnect? && a2.DoNewStream?
    ensures Poised(Apply(s, a1), j, id)
    ensures var s2 := Apply(Apply(s, a1), a2);
            Poised(s2, j, id) && Transit(s2) == Transit(s) && s2.posted == s.posted && s2.q.phase == Q.Queued
  {
    var c := Above(s.conns.Keys);
    var e := Above(s.connRefs.Keys);
    var co := Above(s.cos.Keys);
    var alloc := Above(s.sctxs.Keys);
    a1 := DoConnect(c, e);
    a2 := DoNewStream(co, 0, c, Unary, [], alloc);
    PokeConnect(s, j, id, c, e);
    var s1 := Connect(s, c, e);
    PokeCall(s1, j, id, co, c, alloc);
    PoisedFaults(s, j, id);
    hide Poised, Transit, Apply, Enabled;
    ConnectStep(s, c, e);
    CallStep(s1, co, c, Unary, alloc);
  }

  lemma PoisedFaults(s: State, j: JobId, id: Id)
    requires Poised(s, j, id)
    ensures s.faults == {}
  {
    hide Inv, Transit;
  }

  lemma ConnectStep(s: State, c: ConnId, e: Ref)
    requires s.faults == {} && c !in s.conns && e !in s.connRefs
    ensures Enabled(s, DoConnect(c, e))
    ensures Apply(s, DoConnect(c, e)) == Connect(s, c, e)
  {
    hide NewStream, NewStreamRefused, StreamOp, CloseConn, FinalizeConn, CloseStream, FinalizeStream, RunJob, MakeCall, CallsLeft, Report,
      WaitCheck, ThreadEvent, DrainOne, OpTimeout, Abort, FrameHolds, FullWire, FreshPtrs, ResultShape, Offers;
  }

  lemma CallStep(s: State, co: Co, c: ConnId, typ: StreamType, alloc: Id)
    requires s.faults == {} && co !in s.cos && c in s.connHandles && s.connHandles[c] && alloc !in s.sctxs
    ensures Enabled(s, DoNewStream(co, 0, c, typ, [], alloc))
    ensures Apply(s, DoNewStream(co, 0, c, typ, [], alloc)) == NewStream(s, co, 0, c, typ, [], alloc)
  {
    hide NewStream, NewStreamRefused, StreamOp, CloseConn, FinalizeConn, CloseStream, FinalizeStream, RunJob, MakeCall, CallsLeft, Report,
      WaitCheck, ThreadEvent, DrainOne, OpTimeout, Abort, FrameHolds, FullWire, FreshPtrs, ResultShape, Offers;
  }

  lemma DrainStep(s: State, decodes: bool)
    requires s.faults == {} && s.posted != []
    ensures Enabled(s, DoDrainOne(decodes)) && Apply(s, DoDrainOne(decodes)) == DrainOne(s, decodes)
  {
    hide NewStream, NewStreamRefused, StreamOp, CloseConn, FinalizeConn, CloseStream, FinalizeStream, RunJob, MakeCall, CallsLeft, Report,
      WaitCheck, ThreadEvent, DrainOne, OpTimeout, Abort, FrameHolds, FullWire, FreshPtrs, ResultShape, Offers;
  }

  lemma PokeConnect(s: State, j: JobId, id: Id, c: ConnId, e: Ref)
    requires Poised(s, j, id) && c !in s.conns && e !in s.connRefs
    ensures var s1 := Connect(s, c, e);
            Poised(s1, j, id) && Transit(s1) == Transit(s)
  {
    hide Inv, Transit;
    ConnectInv(s, c, e);
    TransitSame(s, Connect(s, c, e));
  }

  lemma PokeCall(s: State, j: JobId, id: Id, co: Co, c: ConnId, alloc: Id)
    requires Poised(s, j, id) && s.q.phase == Q.Off && co !in s.cos && c in s.connHandles && s.connHandles[c] && alloc !in s.sctxs
    ensures var s2 := NewStream(s, co, 0, c, Unary, [], alloc);
            Poised(s2, j, id) && Transit(s2) == Transit(s) && s2.posted == s.posted && s2.q.phase == Q.Queued
  {
    hide Inv, Transit, NewStream, CleanId;
    var conns, i, ctx, info, job := NewStreamLaunch(s, co, 0, c, Unary, [], alloc);
    var s2 := NewStream(s, co, 0, c, Unary, [], alloc);
    NewStreamInv(s, co, 0, c, Unary, [], alloc);
    LaunchTransit(s, s2, conns, s.streams, co, i, ctx, info, job);
    InvWaiter(s);
  }

  /** Steps that bring the oldest result for `id` closer and leave `id` itself alone. */
  predicate Nearer(s: State, a: Step, id: Id) {
    (a.DoDrainOne? && !a.decodes && s.posted != [] && s.posted[0].id != id) || Moving(a) || a.DoConnect? || a.DoNewStream?
  }

  /** The run stays poised and ends with a result for `id` at the head of the posted queue. */
  ghost predicate Approaches(s: State, run: seq<Step>, j: JobId, id: Id)
    requires Runs(s, run)
    decreases |run|
  {
    && Poised(s, j, id)
    && if run == [] then s.posted != [] && s.posted[0].id == id
       else Nearer(s, run[0], id) && Approaches(Apply(s, run[0]), run[1..], j, id)
  }

  lemma PrependNearer(s: State, a: Step, run: seq<Step>, j: JobId, id: Id)
    requires Enabled(s, a) && Runs(Apply(s, a), run)
    requires Poised(s, j, id) && Nearer(s, a, id) && Approaches(Apply(s, a), run, j, id)
    ensures Runs(s, [a] + run) && Approaches(s, [a] + run, j, id)
  {
    hide Enabled, Apply, Poised, Nearer;
    Prepend(s, a, run);
    assert ([a] + run)[1..] == run;
  }

  /** From a poised state some run brings the older result home. */
  lemma {:induction false} Approach(s: State, j: JobId, id: Id) returns (run: seq<Step>)
    requires Poised(s, j, id)
    ensures Runs(s, run) && Approaches(s, run, j, id)
    decreases |Transit(s)|, Stage(s)
  {
    hide Poised, Enabled, Apply, Transit;
    if s.posted != [] && s.posted[0].id == id {
      run := [];
    } else if s.posted != [] {
      run := DrainOnce(s, j, id);
    } else if s.q.phase != Q.Off {
      var a := WaiterAdvance(s, j, id);
      var rest := Approach(Apply(s, a), j, id);
      run := [a] + rest;
      PrependNearer(s, a, rest, j, id);
    } else {
      var a1, a2 := Poke(s, j, id);
      var s1 := Apply(s, a1);
      var rest := Approach(Apply(s1, a2), j, id);
      PrependNearer(s1, a2, rest, j, id);
      PrependNearer(s, a1, [a2] + rest, j, id);
      run := [a1] + ([a2] + rest);
    }
  }

  lemma DrainOnce(s: State, j: JobId, id: Id) returns (run: seq<Step>)
    requires Poised(s, j, id) && s.posted != [] && s.posted[0].id != id
    ensures Runs(s, run) && Approaches(s, run, j, id)
    decreases |Transit(s)|, 0, 0
  {
    hide Poised, Enabled, Apply, Transit, DrainOne;
    PoisedFaults(s, j, id);
    DrainPoised(s, j, id);
    DrainStep(s, false);
    var rest := Approach(DrainOne(s, false), j, id);
    PrependNearer(s, DoDrainOne(false), rest, j, id);
    run := [DoDrainOne(false)] + rest;
  }

  lemma {:induction false} ApproachEnds(s: State, run: seq<Step>, j: JobId, id: Id)
    requires Runs(s, run) && Approaches(s, run, j, id)
    ensures var t := After(s, run); Poised(t, j, id) && t.posted != [] && t.posted[0].id == id
    decreases |run|
  {
    hide Enabled, Apply, Poised, Nearer;
    if run != [] {
      ApproachEnds(Apply(s, run[0]), run[1..], j, id);
    }
  }

  /** From a poised state some run resumes `j` with the older job's result. */
  lemma Misattribute(s: State, j: JobId, id: Id) returns (run: seq<Step>)
    requires Poised(s, j, id)
    ensures Runs(s, run) && Misled(After(s, run), j)
  {
    hide Poised, Enabled, Apply, Transit, Misled;
    var first := Approach(s, j, id);
    ApproachEnds(s, first, j, id);
    var t := After(s, first);
    DrainMisleads(t, j, id);
    Prepend(t, DoDrainOne(false), []);
    assert [DoDrainOne(false)] + [] == [DoDrainOne(false)];
    Concatenate(s, first, [DoDrainOne(false)]);
    run := first + [DoDrainOne(false)];
  }

  lemma DrainMisleads(s: State, j: JobId, id: Id)
    requires Poised(s, j, id) && s.posted != [] && s.posted[0].id == id
    ensures Enabled(s, DoDrainOne(false)) && Misled(Apply(s, DoDrainOne(false)), j)
  {
    hide Placed, Registry, Handled, Delayed, ConnRefsAgree, Books, Conserved, OwnJobs, Completions, Waiters,
      Attributed, WaiterSound, Owned, LostReason, Wholes, ConnHandled, JobStreams, Transit, DrainOne, Unsettled, Resume, Prepared,
      ConnsAfter, PlaceAfter, Succeeded, NewStream, NewStreamRefused, StreamOp, CloseConn, FinalizeConn,
      CloseStream, FinalizeStream, RunJob, MakeCall, CallsLeft, Report, WaitCheck, ThreadEvent, OpTimeout, Abort;
    KeptId(s, j);
    Head(s);
    TransitUnique(s);
    assert Transit(s)[0] == s.posted[0].origin;
    DeliveryAttributed(s, false);
    var cause := Delivery(s, false);
    DeliverShape(s, false);
    PreparedResume(s, cause);
    var s' := DrainOne(s, false);
    assert s'.events[|s.events|] == Event(j, cause);
  }

  // ---------------------------------------------------------------- the exact condition

  /** An unreported older job can be made to report an error. */
  lemma ReportOlder(s: State, j: JobId, k: JobId) returns (run: seq<Step>)
    requires Inv(s) && s.faults == {} && j < |s.ops| && Awaited(s.cos, s.ops, j) && j in s.jobs
    requires k in s.jobs && k != j && k < |s.ops| && s.ops[k].id == s.ops[j].id
    ensures Runs(s, run) && Poised(After(s, run), j, s.ops[j].id)
  {
    hide Inv, Enabled, Apply, Transit, Report, Poised, RunJob, Awaited;
    if s.jobs[k].ran.Some? {
      ReportPoised(s, j, k);
      ReportStep(s, k);
      Prepend(s, DoReport(k), []);
      run := [DoReport(k)];
    } else {
      RunJobOps(s, k, None, Some([]));
      RunJobInv(s, k, None, Some([]));
      FailStep(s, k);
      var s1 := RunJob(s, k, None, Some([]));
      ReportPoised(s1, j, k);
      ReportStep(s1, k);
      Prepend(s1, DoReport(k), []);
      Prepend(s, DoRunJob(k, None, Some([])), [DoReport(k)]);
      run := [DoRunJob(k, None, Some([]))] + [DoReport(k)];
    }
  }

  lemma FailStep(s: State, k: JobId)
    requires s.faults == {} && k in s.jobs && s.jobs[k].ran.None?
    ensures Enabled(s, DoRunJob(k, None, Some([])))
    ensures Apply(s, DoRunJob(k, None, Some([]))) == RunJob(s, k, None, Some([]))
  {
    hide NewStream, NewStreamRefused, StreamOp, CloseConn, FinalizeConn, CloseStream, FinalizeStream, RunJob, MakeCall, CallsLeft, Report,
      WaitCheck, ThreadEvent, DrainOne, OpTimeout, Abort, FrameHolds, FullWire, FreshPtrs, Offers;
  }

  lemma SucceedStep(s: State, k: JobId)
    requires s.faults == {} && k in s.jobs && s.jobs[k].ran.None? && CallsLeft(s, k) == []
    ensures Enabled(s, DoRunJob(k, None, None)) && Apply(s, DoRunJob(k, None, None)) == RunJob(s, k, None, None)
  {
    hide NewStream, NewStreamRefused, StreamOp, CloseConn, FinalizeConn, CloseStream, FinalizeStream, RunJob, MakeCall, CallsLeft, Report,
      WaitCheck, ThreadEvent, DrainOne, OpTimeout, Abort, FrameHolds, FullWire, FreshPtrs, Offers;
  }

  lemma ReportStep(s: State, k: JobId)
    requires s.faults == {} && k in s.jobs && s.jobs[k].ran.Some?
    ensures Enabled(s, DoReport(k)) && Apply(s, DoReport(k)) == Report(s, k)
  {
    hide NewStream, NewStreamRefused, StreamOp, CloseConn, FinalizeConn, CloseStream, FinalizeStream, RunJob, MakeCall, CallsLeft, Report,
      WaitCheck, ThreadEvent, DrainOne, OpTimeout, Abort, FrameHolds, FullWire, FreshPtrs, ResultShape, Offers;
  }

  lemma ReportedId(s: State, k: JobId)
    requires Inv(s) && k in s.jobs && s.jobs[k].ran.Some?
    ensures k < |s.ops| && s.jobs[k].ran.value.id == s.ops[k].id
    ensures Transit(Report(s, k)) == Transit(s) + [s.jobs[k].ran.value]
  {
    hide Placed, Registry, Handled, Delayed, ConnRefsAgree, OwnJobs, Completions, Waiters,
      Attributed, WaiterSound, Owned, LostReason, Wholes, ConnHandled, JobStreams, Transit;
    ReportTransit(s, k);
    assert JobSound(k, s.jobs[k], s.ops);
  }

  lemma ReportPoised(s: State, j: JobId, k: JobId)
    requires Inv(s) && s.faults == {} && j < |s.ops| && Awaited(s.cos, s.ops, j) && j in s.jobs
    requires k in s.jobs && k != j && k < |s.ops| && s.ops[k].id == s.ops[j].id && s.jobs[k].ran.Some?
    ensures Poised(Report(s, k), j, s.ops[j].id)
  {
    hide Placed, Registry, Handled, Delayed, ConnRefsAgree, OwnJobs, Completions, Waiters, Conserved, Books,
      Attributed, WaiterSound, Owned, LostReason, Wholes, ConnHandled, JobStreams, Transit, Inv;
    ReportInv(s, k);
    ReportedId(s, k);
    assert Transit(Report(s, k))[|Transit(s)|].id == s.ops[j].id;
  }

  /** A step that starts an operation. */
  predicate KicksOff(s: State, a: Step)
    requires Enabled(s, a)
  {
    |Apply(s, a).ops| > |s.ops|
  }

  function KickedId(s: State, a: Step): Id
    requires Enabled(s, a) && KicksOff(s, a)
  {
    Apply(s, a).ops[|s.ops|].id
  }

  /** What a kick-off leaves behind. */
  lemma AfterKickOff(s: State, a: Step)
    requires Inv(s) && Enabled(s, a) && KicksOff(s, a)
    ensures var s', j, id := Apply(s, a), |s.ops|, KickedId(s, a);
            && Inv(s') && s'.faults == {} && Awaited(s'.cos, s'.ops, j) && j in s'.jobs
            && s'.ops[j].clean == CleanId(s, id) && s.ops <= s'.ops && |s'.ops| == |s.ops| + 1 && Transit(s') == Transit(s)
            && (forall k :: k in s.jobs ==> k in s'.jobs)
  {
    hide Inv, NewStreamRefused, CloseConn, FinalizeConn, CloseStream, FinalizeStream, StreamOp, NewStream,
      RunJob, MakeCall, CallsLeft, Report, WaitCheck, ThreadEvent, DrainOne, OpTimeout, Abort, CleanId,
      FrameHolds, FullWire, FreshPtrs, Q.TimerExpire, Q.TimerFire, Q.WaitStart, ResultShape, Transit, Offers;
    StepInv(s, a);
    OnlyKicks(s, a);
    if a.DoNewStream? {
      var conns, id, ctx, info, job := NewStreamLaunch(s, a.co, a.r, a.c, a.typ, a.req, a.alloc);
      LaunchTransit(s, Apply(s, a), conns, s.streams, a.co, id, ctx, info, job);
      LaunchedOps(s, Apply(s, a), conns, s.streams, a.co, id, ctx, info, job);
    } else {
      if !Admitted(s, a.r, a.id) {
        StreamOpRefused(s, a.co, a.r, a.id, a.op);
        assert false;
      }
      var streams, ctx, info, job := StreamOpLaunch(s, a.co, a.r, a.id, a.op);
      LaunchTransit(s, Apply(s, a), s.conns, streams, a.co, a.id, ctx, info, job);
      LaunchedOps(s, Apply(s, a), s.conns, streams, a.co, a.id, ctx, info, job);
    }
  }

  lemma OnlyKicks(s: State, a: Step)
    requires Inv(s) && Enabled(s, a) && KicksOff(s, a)
    ensures a.DoNewStream? || a.DoStreamOp?
  {
    hide Inv, NewStreamRefused, CloseConn, FinalizeConn, CloseStream, FinalizeStream, StreamOp, NewStream,
      RunJob, MakeCall, CallsLeft, Report, WaitCheck, ThreadEvent, DrainOne, OpTimeout, Abort,
      FrameHolds, FullWire, FreshPtrs, Q.TimerExpire, Q.TimerFire, Q.WaitStart, ResultShape, Transit, Offers;
    if Elsewhere(a) {
      ElsewhereFrame(s, a);
    } else {
      match a {
        case DoCall(j) => MakeCallFrame(s, j);
        case DoRunJob(j, result, err) => RunJobOps(s, j, result, err);
        case DoReport(j) => ReportOps(s, j);
        case _ =>
      }
    }
  }

  /** A clean id protects its operation for ever. */
  lemma CleanIsSafe(s: State, j: JobId, run: seq<Step>)
    requires Inv(s) && j < |s.ops| && s.ops[j].clean && Runs(s, run)
    ensures !Misled(After(s, run), j)
  {
    RunInv(s, run);
    OpsRun(s, run);
    NotMisled(After(s, run), j);
  }

  lemma NotMisled(s: State, j: JobId)
    requires Attributed(s.events, s.ops, s.reported) && j < |s.ops| && s.ops[j].clean
    ensures !Misled(s, j)
  {
    forall i | 0 <= i < |s.events| && s.events[i].op == j && s.events[i].cause.Result?
      ensures s.events[i].cause.origin.job == j
    {
      assert AttributedTo(s.events[i].op, s.events[i].cause, s.ops, s.reported);
    }
  }

  /** An id that is not clean can mislead the operation kicked off under it. */
  lemma UncleanMisleads(s: State, a: Step) returns (run: seq<Step>)
    requires Inv(s) && Enabled(s, a) && KicksOff(s, a) && !CleanId(s, KickedId(s, a))
    ensures Runs(Apply(s, a), run) && Misled(After(Apply(s, a), run), |s.ops|)
  {
    hide Enabled, Apply, Inv, Poised, Transit, Unsettled;
    AfterKickOff(s, a);
    var id := KickedId(s, a);
    var k :| 0 <= k < |s.ops| && s.ops[k].id == id && Outstanding(s, k);
    var s', j := Apply(s, a), |s.ops|;
    if k in s.jobs {
      var first := ReportOlder(s', j, k);
      var rest := Misattribute(After(s', first), j, id);
      run := first + rest;
      Concatenate(s', first, rest);
    } else {
      TransitPoised(s, s', j, k);
      run := Misattribute(s', j, id);
    }
  }

  lemma TransitPoised(s: State, s': State, j: JobId, k: JobId)
    requires Inv(s) && Inv(s') && s'.faults == {} && j < |s'.ops| && Awaited(s'.cos, s'.ops, j) && j in s'.jobs
    requires s.ops <= s'.ops && Transit(s') == Transit(s) && k < |s.ops| && s.ops[k].id == s'.ops[j].id
    requires k !in s.jobs && Outstanding(s, k)
    ensures Poised(s', j, s'.ops[j].id)
  {
    hide Placed, Registry, Handled, Delayed, ConnRefsAgree, OwnJobs, Completions, Waiters,
      Attributed, WaiterSound, Owned, LostReason, Wholes, ConnHandled, JobStreams, Transit, Books, Conserved;
    TransitUnique(s);
    var i :| 0 <= i < |Transit(s)| && Transit(s)[i].job == k;
    assert Transit(s')[i].id == s'.ops[j].id;
  }

  lemma {:induction false} Concatenate(s: State, first: seq<Step>, rest: seq<Step>)
    requires Runs(s, first) && Runs(After(s, first), rest)
    ensures Runs(s, first + rest) && After(s, first + rest) == After(After(s, first), rest)
    decreases |first|
  {
    hide Enabled, Apply;
    if first == [] {
      assert first + rest == rest;
    } else {
      Concatenate(Apply(s, first[0]), first[1..], rest);
      assert (first + rest)[1..] == first[1..] + rest;
    }
  }

  lemma Extend(s: State, run: seq<Step>, a: Step)
    requires Runs(s, run) && Enabled(After(s, run), a)
    ensures Runs(s, run + [a]) && After(s, run + [a]) == Apply(After(s, run), a)
  {
    hide Enabled, Apply;
    Prepend(After(s, run), a, []);
    assert [a] + [] == [a];
    Concatenate(s, run, [a]);
  }

  /** Result attribution, exactly: an operation gets only its own job's result in every
      continuation if and only if no earlier job under its id was outstanding at kick-off. */
  lemma AttributionExact(s: State, a: Step)
    requires Inv(s) && Enabled(s, a) && KicksOff(s, a)
    ensures CleanId(s, KickedId(s, a)) <==>
            forall run :: Runs(Apply(s, a), run) ==> !Misled(After(Apply(s, a), run), |s.ops|)
  {
    if CleanId(s, KickedId(s, a)) {
      AfterKickOff(s, a);
      hide Inv, Enabled, Apply;
      forall run | Runs(Apply(s, a), run) ensures !Misled(After(Apply(s, a), run), |s.ops|) {
        CleanIsSafe(Apply(s, a), |s.ops|, run);
      }
    } else {
      hide Inv, Enabled, Apply, CleanId, Misled;
      var run := UncleanMisleads(s, a);
    }
  }
}
