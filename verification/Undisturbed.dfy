/** Runs in which no operation times out and no coroutine is aborted. */
module Undisturbed {
  import opened Base
  import opened Buffers
  import opened Machine
  import opened Invariants
  import opened Flow
  import opened Completion
  import opened Draining
  import opened Engine
  import opened Frames
  import opened Reachability
  import Q = FinishedQueue

  predicate Calm(a: Step) { !a.DoOpTimeout? && !a.DoAbort? }

  predicate CalmRun(run: seq<Step>) {
    forall i :: 0 <= i < |run| ==> Calm(run[i])
  }

  /** Every outstanding job is awaited by the coroutine that started it, every id was clean
      at kick-off, and the waiter rests only when nothing is left to collect. */
  ghost predicate CalmInv(s: State) {
    && Matched(s.cos, s.ops, s.jobs, Transit(s))
    && AllClean(s.ops)
    && (s.active || AllPosted(s))
  }

  ghost predicate Matched(cos: map<Co, CoCtx>, ops: seq<OpInfo>, jobs: map<JobId, Job>, transit: seq<TaskResult>) {
    forall j :: 0 <= j < |ops| && Unsettled(jobs, transit, j) ==> Awaited(cos, ops, j)
  }

  predicate AllClean(ops: seq<OpInfo>) {
    forall j :: 0 <= j < |ops| ==> ops[j].clean
  }

  /** Every reported result has reached the posted queue and no goroutine is running. */
  predicate AllPosted(s: State) {
    s.jobs == map[] && s.q.tasks == [] && s.batch == []
  }

  // ---------------------------------------------------------------- kick-off

  /** Under a matched state an id that is not registered has nothing outstanding. */
  lemma IdleIsClean(s: State, id: Id)
    requires Waiters(s.ongoing, s.sctxs, s.cos, s.ops) && Matched(s.cos, s.ops, s.jobs, Transit(s)) && id !in s.ongoing
    ensures CleanId(s, id)
  {
    forall j | 0 <= j < |s.ops| && Outstanding(s, j) ensures s.ops[j].id in s.ongoing {
      AwaitedAt(s, j);
    }
  }

  lemma MatchedLaunch(cos: map<Co, CoCtx>, ops: seq<OpInfo>, jobs: map<JobId, Job>, transit: seq<TaskResult>,
                      co: Co, k: CoCtx, info: OpInfo, job: Job)
    requires Matched(cos, ops, jobs, transit) && (co in cos ==> cos[co].run.Running?)
    requires info.co == co && k.run == Waiting(|ops|)
    ensures Matched(cos[co := k], ops + [info], jobs[|ops| := job], transit)
  {
    var cos', ops', jobs' := cos[co := k], ops + [info], jobs[|ops| := job];
    forall j | 0 <= j < |ops'| && Unsettled(jobs', transit, j) ensures Awaited(cos', ops', j) {
      if j < |ops| {
        assert Unsettled(jobs, transit, j);
        assert Awaited(cos, ops, j);
      }
    }
  }

  lemma LaunchCalm(s: State, s': State, conns: map<ConnId, Conn>, streams: map<JobId, Stream>,
                   co: Co, id: Id, ctx: StreamCtx, info: OpInfo, job: Job)
    requires CalmInv(s) && Waiters(s.ongoing, s.sctxs, s.cos, s.ops)
    requires Launch(s, s', conns, streams, co, id, ctx, info, job)
    ensures CalmInv(s')
  {
    hide Waiters, Matched, Transit, CleanId;
    IdleIsClean(s, id);
    LaunchTransit(s, s', conns, streams, co, id, ctx, info, job);
    MatchedLaunch(s.cos, s.ops, s.jobs, Transit(s), co, CoCtx(Waiting(|s.ops|), true, true, id), info, job);
  }

  // ---------------------------------------------------------------- engine

  lemma MatchedSame(s: State, jobs: map<JobId, Job>, transit: seq<TaskResult>)
    requires Matched(s.cos, s.ops, s.jobs, Transit(s))
    requires forall k :: Unsettled(jobs, transit, k) ==> Unsettled(s.jobs, Transit(s), k)
    ensures Matched(s.cos, s.ops, jobs, transit)
  {
  }

  lemma RunJobCalm(s: State, j: JobId, result: Option<Bytes>, err: Option<Bytes>)
    requires Inv(s) && CalmInv(s)
    requires j in s.jobs && s.jobs[j].ran.None?
    requires err.None? ==> CallsLeft(s, j) == []
    requires ResultShape(s.jobs[j].op, result, err)
    ensures CalmInv(RunJob(s, j, result, err))
  {
    hide Placed, Registry, Waiters, Handled, Delayed, ConnRefsAgree, Books, Conserved, OwnJobs, Completions,
      Attributed, WaiterSound, Owned, LostReason, Wholes, ConnHandled, JobStreams, RunJob, FullWire, Matched, Transit;
    RunJobFrame(s, j, result, err);
    var s' := RunJob(s, j, result, err);
    TransitSame(s, s');
    MatchedSame(s, s'.jobs, Transit(s));
  }

  lemma MakeCallCalm(s: State, j: JobId)
    requires CalmInv(s) && j in s.jobs && CallsLeft(s, j) != []
    ensures CalmInv(MakeCall(s, j))
  {
    hide CalmInv, MakeCall, CallsLeft, Transit;
    MakeCallFrame(s, j);
    TransitSame(s, MakeCall(s, j));
    SidestepCalm(s, MakeCall(s, j));
  }

  lemma ReportCalm(s: State, j: JobId)
    requires Inv(s) && CalmInv(s) && j in s.jobs && s.jobs[j].ran.Some?
    ensures CalmInv(Report(s, j))
  {
    hide Placed, Registry, Waiters, Handled, Delayed, ConnRefsAgree, Books, OwnJobs, Completions,
      Attributed, WaiterSound, Owned, LostReason, Wholes, ConnHandled, JobStreams, Matched, Transit, Unsettled;
    RanJob(s, j);
    var t := s.jobs[j].ran.value;
    ReportTransit(s, j);
    forall k ensures Unsettled(s.jobs - {j}, Transit(s) + [t], k) <==> Unsettled(s.jobs, Transit(s), k) {
      UnsettledReport(s.jobs, Transit(s), t, k);
    }
    MatchedSame(s, s.jobs - {j}, Transit(s) + [t]);
    assert s.active;
  }

  // ---------------------------------------------------------------- counting

  /** Jobs running or in transit. */
  function OutstandingSet(s: State): set<JobId> {
    s.jobs.Keys + TransitJobs(Transit(s))
  }

  function TransitJobs(transit: seq<TaskResult>): set<JobId> {
    set i | 0 <= i < |transit| :: transit[i].job
  }

  function IdsOf(js: set<JobId>, ops: seq<OpInfo>): set<Id>
    requires forall j :: j in js ==> j < |ops|
  {
    set j | j in js :: ops[j].id
  }

  lemma {:induction false} TransitJobsCard(transit: seq<TaskResult>)
    requires forall i, k :: 0 <= i < k < |transit| ==> transit[i].job != transit[k].job
    ensures |TransitJobs(transit)| == |transit|
  {
    if transit != [] {
      var n := |transit| - 1;
      TransitJobsCard(transit[..n]);
      assert TransitJobs(transit) == TransitJobs(transit[..n]) + {transit[n].job};
    }
  }

  lemma {:induction false} IdsCard(js: set<JobId>, ops: seq<OpInfo>)
    requires forall j :: j in js ==> j < |ops|
    requires forall j, k :: j in js && k in js && ops[j].id == ops[k].id ==> j == k
    ensures |IdsOf(js, ops)| == |js|
  {
    if js != {} {
      var j :| j in js;
      IdsCard(js - {j}, ops);
      assert IdsOf(js, ops) == IdsOf(js - {j}, ops) + {ops[j].id};
    }
  }

  /** In transit, each job appears once and is no longer running. */
  lemma TransitUnique(s: State)
    requires Books(s.jobs, s.ops, s.reported) && Conserved(s)
    ensures var t := Transit(s);
            && (forall i, k :: 0 <= i < k < |t| ==> t[i].job != t[k].job)
            && (forall i :: 0 <= i < |t| ==> t[i].job < |s.ops| && t[i].job !in s.jobs && t[i].id == s.ops[t[i].job].id)
  {
    hide Transit, Unsettled, JobSound;
    var t := Transit(s);
    assert forall i {:trigger t[i]} :: 0 <= i < |t| ==> t[i] == s.reported[|s.processed| + i];
  }

  lemma OutstandingCount(s: State)
    requires Books(s.jobs, s.ops, s.reported) && Conserved(s)
    ensures |OutstandingSet(s)| == |s.jobs| + |Transit(s)|
    ensures forall j: JobId :: j in OutstandingSet(s) <==> j < |s.ops| && Outstanding(s, j)
  {
    TransitUnique(s);
    TransitJobsCard(Transit(s));
    assert s.jobs.Keys !! TransitJobs(Transit(s));
    forall j | j in s.jobs ensures j < |s.ops| {
      assert JobSound(j, s.jobs[j], s.ops);
    }
  }

  /** One-to-one correspondence: registered ids are exactly the ids of outstanding jobs, and no
      two outstanding jobs share an id. */
  lemma Correspondence(s: State)
    requires Books(s.jobs, s.ops, s.reported) && Conserved(s) && Waiters(s.ongoing, s.sctxs, s.cos, s.ops)
    requires OwnJobs(s.cos, s.ops, s.jobs, Transit(s)) && Matched(s.cos, s.ops, s.jobs, Transit(s))
    ensures forall j :: j in OutstandingSet(s) ==> j < |s.ops|
    ensures IdsOf(OutstandingSet(s), s.ops) == s.ongoing
    ensures |s.ongoing| == |s.jobs| + |Transit(s)|
    ensures forall j, k :: 0 <= j < k < |s.ops| && Outstanding(s, j) && Outstanding(s, k) ==> s.ops[j].id != s.ops[k].id
  {
    OutstandingCount(s);
    hide Books, Conserved, OutstandingSet, Transit;
    var js := OutstandingSet(s);
    forall j, k | j in js && k in js && s.ops[j].id == s.ops[k].id ensures j == k {
      AwaitedAt(s, j);
      AwaitedAt(s, k);
    }
    IdsCard(js, s.ops);
    forall id | id in IdsOf(js, s.ops) ensures id in s.ongoing {
      var j :| j in js && s.ops[j].id == id;
      AwaitedAt(s, j);
    }
    forall id | id in s.ongoing ensures id in IdsOf(js, s.ops) {
      var co := s.sctxs[id].waitCo.value;
      assert CoSound(s.ongoing, s.sctxs, co, s.cos[co], s.ops);
      assert OwnJob(s.cos[co].run.op, s.ops, s.jobs, Transit(s));
    }
  }

  lemma AwaitedAt(s: State, j: JobId)
    requires Waiters(s.ongoing, s.sctxs, s.cos, s.ops) && Matched(s.cos, s.ops, s.jobs, Transit(s))
    requires j < |s.ops| && Outstanding(s, j)
    ensures s.ops[j].id in s.ongoing && s.ops[j].id in s.sctxs
    ensures s.sctxs[s.ops[j].id].waitCo == Some(s.ops[j].co) && s.ops[j].co in s.cos && s.cos[s.ops[j].co].run == Waiting(j)
  {
    assert Awaited(s.cos, s.ops, j);
    assert CoSound(s.ongoing, s.sctxs, s.ops[j].co, s.cos[s.ops[j].co], s.ops);
  }

  // ---------------------------------------------------------------- the repost rule

  /** The early return is taken only when nothing is left to wait for. */
  lemma ThreadEventCalm(s: State)
    requires Inv(s) && CalmInv(s) && s.q.phase == Q.Finished
    ensures CalmInv(ThreadEvent(s))
  {
    hide Placed, Registry, Handled, Delayed, ConnRefsAgree, Books, Conserved, OwnJobs, Completions,
      Attributed, Owned, LostReason, Wholes, ConnHandled, JobStreams, Matched, Transit, ThreadEvent, Waiters;
    ThreadEventTransit(s);
    ThreadEventShape(s);
    Correspondence(s);
    RegistryCount(s);
    TransitLength(s);
  }

  lemma RegistryCount(s: State)
    requires Registry(s.ongoing, s.ongoingNum, s.sctxs)
    ensures s.ongoingNum == |s.ongoing|
  {
  }

  lemma TransitLength(s: State)
    ensures |Transit(s)| == |s.posted| + |s.batch| + |s.q.tasks|
    ensures |s.jobs| == 0 ==> s.jobs == map[]
  {
  }

  // ---------------------------------------------------------------- draining

  /** Every drained record finds its own operation waiting. */
  lemma DrainOneCalm(s: State, decodes: bool)
    requires Inv(s) && CalmInv(s) && s.posted != []
    ensures CalmInv(DrainOne(s, decodes))
    ensures s.posted[0].id in s.ongoing
  {
    hide Placed, Registry, Handled, Delayed, ConnRefsAgree, Books, Conserved, OwnJobs, Completions, Waiters,
      Attributed, Owned, LostReason, Wholes, ConnHandled, JobStreams, Transit, DrainOne, Unsettled, WaiterSound, Take, Resume, Prepared;
    Head(s);
    var x := s.posted[0];
    AwaitedAt(s, x.origin.job);
    DeliveryAttributed(s, decodes);
    var cause := Delivery(s, decodes);
    DeliverShape(s, decodes);
    PreparedResume(s, cause);
    var s1 := Resumed(s, x.id, false, cause);
    TakeResumedFrame(s, cause);
    forall j | 0 <= j < |s.ops| && Unsettled(s.jobs, Transit(Take(s)), j) ensures Awaited(s1.cos, s.ops, j) {
      UnsettledHead(s.jobs, x.origin, Transit(Take(s)), j);
      assert Awaited(s.cos, s.ops, j);
      if j == x.origin.job {
        HeadSettled(s);
        assert false;
      }
    }
  }

  /** A job whose result was just taken is settled. */
  lemma HeadSettled(s: State)
    requires Books(s.jobs, s.ops, s.reported) && Conserved(s) && Owned(s.heap, s.posted + s.batch) && s.posted != []
    ensures !Unsettled(s.jobs, Transit(Take(s)), s.posted[0].origin.job)
  {
    hide Books, Conserved, Owned, Transit, Take;
    Head(s);
    TransitUnique(s);
    var x, rest := s.posted[0].origin, Transit(Take(s));
    assert Transit(s)[0] == x;
    assert forall i :: 0 <= i < |rest| ==> Transit(s)[i + 1] == rest[i];
  }

  lemma TakeResumedFrame(s: State, cause: Cause)
    requires Deliverable(s)
    ensures var s1 := Resumed(s, s.posted[0].id, false, cause);
            var s2 := Take(s1);
            && s1.posted == s.posted && s2.cos == s1.cos && s2.ops == s.ops && s2.jobs == s.jobs
            && s2.active == s.active && s2.q == s.q && s2.batch == s.batch && s2.streams == s.streams
            && Transit(s2) == Transit(Take(s))
            && s1.cos == s.cos[s.sctxs[s.posted[0].id].waitCo.value := CoCtx(Running, false, false, s.posted[0].id)]
  {
    hide PlaceAfter, ConnsAfter, Succeeded;
    var s1 := Resumed(s, s.posted[0].id, false, cause);
    TransitSame(Take(s), Take(s1));
  }

  // ---------------------------------------------------------------- every step, every run

  lemma SidestepCalm(s: State, s': State)
    requires CalmInv(s) && s'.cos == s.cos && s'.ops == s.ops && s'.jobs == s.jobs && Transit(s') == Transit(s)
    requires (s.active && s'.active) || (s'.active == s.active && s'.q.tasks == s.q.tasks && s'.batch == s.batch)
    ensures CalmInv(s')
  {
    hide Matched, Transit;
  }

  lemma AsideCalm(s: State, a: Step)
    requires Inv(s) && CalmInv(s) && Enabled(s, a) && Aside(a)
    ensures CalmInv(Apply(s, a))
  {
    hide Inv, CalmInv, Apply, Enabled, Transit;
    AsideFrame(s, a);
    SidestepCalm(s, Apply(s, a));
  }

  lemma MovingCalm(s: State, a: Step)
    requires CalmInv(s) && Enabled(s, a) && Moving(a) && !a.DoThreadEvent? && WaiterSound(s.q, s.active, s.batch)
    ensures CalmInv(Apply(s, a))
  {
    hide CalmInv, NewStream, NewStreamRefused, StreamOp, CloseConn, FinalizeConn, CloseStream, FinalizeStream, Transit,
      RunJob, MakeCall, CallsLeft, Report, WaitCheck, ThreadEvent, DrainOne, OpTimeout, Abort, FrameHolds, FullWire, FreshPtrs, ResultShape, Q.Live;
    if a.DoWaitCheck? {
      WaitCheckCalm(s, a.ptrs);
    } else if a.DoTimerExpire? {
      RequeueCalm(s, Q.TimerExpire(s.q, a.t));
    } else if a.DoTimerFire? {
      RequeueCalm(s, Q.TimerFire(s.q, a.t));
    } else {
      RequeueCalm(s, Q.WaitStart(s.q));
    }
  }

  lemma WaitCheckCalm(s: State, ptrs: seq<Ptr>)
    requires CalmInv(s) && WaiterSound(s.q, s.active, s.batch) && |ptrs| == |s.q.tasks|
    requires s.q.phase == Q.Entering || s.q.phase == Q.Woken
    ensures CalmInv(WaitCheck(s, ptrs))
  {
    hide CalmInv, Transit, WaitCheck, StoreAll, PackAll;
    WaitCheckShape(s, ptrs);
    SidestepCalm(s, WaitCheck(s, ptrs));
  }

  lemma RequeueCalm(s: State, q: Q.Queue)
    requires CalmInv(s) && q.tasks == s.q.tasks
    ensures CalmInv(s.(q := q))
  {
    hide CalmInv, Transit;
    TransitSame(s, s.(q := q));
    SidestepCalm(s, s.(q := q));
  }

  lemma CalmStep(s: State, a: Step)
    requires Inv(s) && CalmInv(s) && Enabled(s, a) && Calm(a)
    ensures CalmInv(Apply(s, a))
  {
    hide Placed, Registry, Waiters, Handled, Delayed, ConnRefsAgree, Books, Conserved, OwnJobs, Completions,
      Attributed, WaiterSound, Owned, LostReason, Wholes, ConnHandled, JobStreams, CalmInv, Launch,
      NewStream, NewStreamRefused, StreamOp, CloseConn, FinalizeConn, CloseStream, FinalizeStream,
      RunJob, MakeCall, CallsLeft, Report, WaitCheck, ThreadEvent, DrainOne, OpTimeout, Abort,
      FrameHolds, FullWire, FreshPtrs, Q.TimerExpire, Q.TimerFire, Q.WaitStart, ResultShape, Transit;
    match a {
      case DoNewStream(co, r, c, typ, req, alloc) =>
        var conns, id, ctx, info, job := NewStreamLaunch(s, co, r, c, typ, req, alloc);
        LaunchCalm(s, Apply(s, a), conns, s.streams, co, id, ctx, info, job);
      case DoStreamOp(co, r, id, op) =>
        if Admitted(s, r, id) {
          var streams, ctx, info, job := StreamOpLaunch(s, co, r, id, op);
          LaunchCalm(s, Apply(s, a), s.conns, streams, co, id, ctx, info, job);
        } else {
          StreamOpRefused(s, co, r, id, op);
          TransitSame(s, Apply(s, a));
          SidestepCalm(s, Apply(s, a));
        }
      case DoCall(j) => MakeCallCalm(s, j);
      case DoRunJob(j, result, err) => RunJobCalm(s, j, result, err);
      case DoReport(j) => ReportCalm(s, j);
      case DoThreadEvent => ThreadEventCalm(s);
      case DoDrainOne(decodes) => DrainOneCalm(s, decodes);
      case _ =>
        if Aside(a) {
          AsideCalm(s, a);
        } else if Moving(a) {
          MovingCalm(s, a);
        }
    }
  }

  lemma {:induction false} CalmRuns(s: State, run: seq<Step>)
    requires Inv(s) && CalmInv(s) && Runs(s, run) && CalmRun(run)
    ensures Inv(After(s, run)) && CalmInv(After(s, run))
    decreases |run|
  {
    hide Inv, CalmInv, Apply, Enabled;
    if run != [] {
      StepInv(s, run[0]);
      CalmStep(s, run[0]);
      CalmRuns(Apply(s, run[0]), run[1..]);
    }
  }

  lemma InitCalm()
    ensures CalmInv(INIT)
  {
    assert Transit(INIT) == [];
  }
}
