/** Coroutines and the waiter's condition as a function of what happened to them. */
module Signals {
  import opened Base
  import opened Buffers
  import opened Machine
  import opened Invariants
  import opened KickOffs
  import opened Destruction
  import opened Completion
  import opened Draining
  import opened Engine
  import opened Frames
  import opened Reachability
  import opened Undisturbed
  import opened Attribution
  import opened Provenance
  import opened Chronicle
  import Q = FinishedQueue

  // ---------------------------------------------------------------- coroutines

  /** A coroutine waits from the start of an operation to its answer or timeout and then runs again;
      aborted, it never runs again. */
  function CoNext(was: CoRun, s: State, a: Step, co: Co): CoRun {
    if Begins(s, a) && a.co == co then Waiting(|s.ops|)
    else if a == DoOpTimeout(co) then Running
    else if a == DoAbort(co) then Dead
    else if a.DoDrainOne? && s.posted != [] && s.posted[0].id in s.ongoing && s.posted[0].id in s.sctxs
            && s.sctxs[s.posted[0].id].waitCo == Some(co) then Running
    else was
  }

  function CoRunOf(was: CoRun, s: State, run: seq<Step>, co: Co): CoRun
    requires Runs(s, run)
    decreases |run|
  {
    if run == [] then was else CoRunOf(CoNext(was, s, run[0], co), Apply(s, run[0]), run[1..], co)
  }

  lemma SameCo(s: State, s': State, a: Step, co: Co)
    requires s'.cos == s.cos && !Begins(s, a) && !a.DoOpTimeout? && !a.DoAbort?
    requires a.DoDrainOne? && s.posted != [] ==> s.posted[0].id !in s.ongoing
    ensures CoOf(s', co).run == CoNext(CoOf(s, co).run, s, a, co)
  {
    hide Begins;
  }

  lemma LaunchedCo(s: State, s': State, conns: map<ConnId, Conn>, streams: map<JobId, Stream>,
                   id: Id, ctx: StreamCtx, info: OpInfo, job: Job, a: Step, co: Co)
    requires Begins(s, a) && Launch(s, s', conns, streams, a.co, id, ctx, info, job)
    ensures CoOf(s', co).run == CoNext(CoOf(s, co).run, s, a, co)
  {
    hide CleanId;
  }

  lemma DrainCo(s: State, decodes: bool, co: Co)
    requires Inv(s) && s.posted != []
    ensures CoOf(DrainOne(s, decodes), co).run == CoNext(CoOf(s, co).run, s, DoDrainOne(decodes), co)
  {
    hide Placed, Registry, Handled, Delayed, ConnRefsAgree, Books, Conserved, OwnJobs, Completions, Waiters,
      Attributed, WaiterSound, Owned, LostReason, Wholes, ConnHandled, JobStreams, Transit, DrainOne, Unsettled, Resume, Prepared, Resumed, Take,
      Delivery;
    Head(s);
    if s.posted[0].id in s.ongoing {
      DeliveryAttributed(s, decodes);
      var cause := Delivery(s, decodes);
      DeliverShape(s, decodes);
      PreparedResume(s, cause);
      TakeResumedFrame(s, cause);
    } else {
      DiscardShape(s, decodes);
      TakeCos(s);
    }
  }

  lemma TimeoutCo(s: State, x: Co, co: Co)
    requires Inv(s) && CoOf(s, x).timer
    ensures CoOf(OpTimeout(s, x), co).run == CoNext(CoOf(s, co).run, s, DoOpTimeout(x), co)
  {
    hide Placed, Registry, Handled, Delayed, ConnRefsAgree, Books, Conserved, OwnJobs, Completions, Waiters,
      Attributed, WaiterSound, Owned, LostReason, Wholes, ConnHandled, JobStreams, OpTimeout, ConnsAfter, PlaceAfter;
    WaitingKept(s, x);
    Kept(s, s.cos[x].data);
    OpTimeoutShape(s, x);
  }

  lemma AbortCo(s: State, x: Co, co: Co)
    requires Inv(s) && CoOf(s, x).cleanup
    ensures CoOf(Abort(s, x), co).run == CoNext(CoOf(s, co).run, s, DoAbort(x), co)
  {
    hide Placed, Registry, Handled, Delayed, ConnRefsAgree, Books, Conserved, OwnJobs, Completions, Waiters,
      Attributed, WaiterSound, Owned, LostReason, Wholes, ConnHandled, JobStreams;
    WaitingKept(s, x);
  }

  lemma KickCo(s: State, a: Step, co: Co)
    requires Inv(s) && Enabled(s, a) && (a.DoNewStream? || a.DoStreamOp?)
    ensures CoOf(Apply(s, a), co).run == CoNext(CoOf(s, co).run, s, a, co)
  {
    hide Inv, FrameHolds, FreshPtrs, ResultShape, NewStreamRefused, CloseConn, FinalizeConn, CloseStream, FinalizeStream, StreamOp, NewStream,
      RunJob, MakeCall, CallsLeft, Report, WaitCheck, ThreadEvent, DrainOne, OpTimeout, Abort, CleanId, Transit, Offers, Launch, Admitted,
      CoNext, Begins, KickedOn, CoOf;
    if a.DoNewStream? {
      OpensAlways(s, a);
      RunningNow(s, a);
      var conns, id, ctx, info, job := NewStreamLaunch(s, a.co, a.r, a.c, a.typ, a.req, a.alloc);
      LaunchedCo(s, Apply(s, a), conns, s.streams, id, ctx, info, job, a, co);
    } else {
      BeginsAdmitted(s, a);
      if Admitted(s, a.r, a.id) {
        RunningNow(s, a);
        var streams, ctx, info, job := StreamOpLaunch(s, a.co, a.r, a.id, a.op);
        LaunchedCo(s, Apply(s, a), s.conns, streams, a.id, ctx, info, job, a, co);
      } else {
        StreamOpRefused(s, a.co, a.r, a.id, a.op);
        SameCo(s, Apply(s, a), a, co);
      }
    }
  }

  lemma OpensAlways(s: State, a: Step)
    requires a.DoNewStream?
    ensures Begins(s, a)
  {
  }

  lemma RunningNow(s: State, a: Step)
    requires Enabled(s, a) && (a.DoNewStream? || a.DoStreamOp?)
    ensures CoOf(s, a.co).run.Running?
  {
    hide FrameHolds, FreshPtrs, ResultShape, CallsLeft, Offers;
  }

  lemma CoStep(s: State, a: Step, co: Co)
    requires Inv(s) && Enabled(s, a)
    ensures CoOf(Apply(s, a), co).run == CoNext(CoOf(s, co).run, s, a, co)
  {
    hide Inv, NewStream, NewStreamRefused, StreamOp, CloseConn, FinalizeConn, CloseStream, FinalizeStream, Connect, Report,
      RunJob, MakeCall, CallsLeft, WaitCheck, ThreadEvent, DrainOne, OpTimeout, Abort, Transit, CoNext, CoOf,
      FrameHolds, FullWire, FreshPtrs, Q.TimerExpire, Q.TimerFire, Q.WaitStart, ResultShape, Offers;
    match a {
      case DoNewStream(_, _, _, _, _, _) => KickCo(s, a, co);
      case DoStreamOp(_, _, _, _) => KickCo(s, a, co);
      case DoDrainOne(decodes) => DrainCo(s, decodes, co);
      case DoOpTimeout(x) => TimeoutCo(s, x, co);
      case DoAbort(x) => AbortCo(s, x, co);
      case _ =>
        OtherCos(s, a);
        SameCo(s, Apply(s, a), a, co);
    }
  }

  lemma OtherCos(s: State, a: Step)
    requires Inv(s) && Enabled(s, a)
    requires !a.DoNewStream? && !a.DoStreamOp? && !a.DoDrainOne? && !a.DoOpTimeout? && !a.DoAbort?
    ensures Apply(s, a).cos == s.cos
  {
    hide Inv, NewStream, NewStreamRefused, StreamOp, CloseConn, FinalizeConn, CloseStream, FinalizeStream, Connect,
      RunJob, MakeCall, CallsLeft, WaitCheck, ThreadEvent, DrainOne, OpTimeout, Abort, Transit, CoOf,
      FrameHolds, FullWire, FreshPtrs, Q.TimerExpire, Q.TimerFire, Q.WaitStart, ResultShape, Offers;
    if Aside(a) {
      AsideFrame(s, a);
    } else if Moving(a) {
      InvWaiter(s);
      MovingFrame(s, a);
    } else {
      match a {
        case DoCall(j) => MakeCallFrame(s, j);
        case DoRunJob(j, result, err) => RunJobFrame(s, j, result, err);
        case _ =>
      }
    }
  }

  lemma {:induction false} CoTrace(s: State, run: seq<Step>, co: Co)
    requires Inv(s) && Runs(s, run)
    ensures CoOf(After(s, run), co).run == CoRunOf(CoOf(s, co).run, s, run, co)
    decreases |run|
  {
    hide Inv, Apply, Enabled, CoOf, CoNext;
    if run != [] {
      CoStep(s, run[0], co);
      StepInv(s, run[0]);
      CoTrace(Apply(s, run[0]), run[1..], co);
    }
  }

  // ---------------------------------------------------------------- signals

  /** The condition of the waiter: set by a report or a timer's callback, cleared by collecting. */
  function DoneNext(was: bool, a: Step): bool {
    if a.DoReport? || a.DoTimerFire? then true else if a.DoWaitCheck? then false else was
  }

  function DoneOf(was: bool, run: seq<Step>): bool
    decreases |run|
  {
    if run == [] then was else DoneOf(DoneNext(was, run[0]), run[1..])
  }

  /** Only the timer of a wait in progress is armed. */
  predicate TimersStopped(q: Q.Queue) {
    forall t :: t in q.armed ==> t == q.own && (q.phase == Q.Entering || q.phase == Q.Parked || q.phase == Q.Woken)
  }

  lemma StillQueue(s: State, a: Step)
    requires Inv(s) && Enabled(s, a) && !a.DoReport? && !Moving(a)
    ensures Apply(s, a).q == s.q.(phase := Apply(s, a).q.phase)
    ensures Apply(s, a).q.phase == s.q.phase || (s.q.phase == Q.Off && Apply(s, a).q.phase == Q.Queued)
  {
    hide Inv, NewStream, NewStreamRefused, StreamOp, CloseConn, FinalizeConn, CloseStream, FinalizeStream, Connect, CleanId, Admitted,
      RunJob, MakeCall, CallsLeft, WaitCheck, ThreadEvent, DrainOne, OpTimeout, Abort, Transit, Q.Live,
      FrameHolds, FullWire, FreshPtrs, Q.TimerExpire, Q.TimerFire, Q.WaitStart, ResultShape, Offers;
    if Aside(a) {
      AsideFrame(s, a);
    } else {
      match a {
        case DoNewStream(_, _, _, _, _, _) => KickQueue(s, a);
        case DoStreamOp(_, _, _, _) => KickQueue(s, a);
        case DoCall(j) => MakeCallFrame(s, j);
        case DoRunJob(j, result, err) => RunJobFrame(s, j, result, err);
        case DoDrainOne(decodes) => DrainQueue(s, decodes);
        case DoOpTimeout(co) => TimeoutQueue(s, co);
        case DoAbort(co) => AbortQueue(s, co);
        case _ =>
      }
    }
  }

  lemma KickQueue(s: State, a: Step)
    requires Inv(s) && Enabled(s, a) && (a.DoNewStream? || a.DoStreamOp?)
    ensures Apply(s, a).q == s.q || (s.q.phase == Q.Off && Apply(s, a).q == s.q.(phase := Q.Queued))
  {
    hide Inv, NewStream, NewStreamRefused, StreamOp, CloseConn, FinalizeConn, CloseStream, FinalizeStream, Connect, CleanId, Admitted, Launch,
      RunJob, MakeCall, CallsLeft, WaitCheck, ThreadEvent, DrainOne, OpTimeout, Abort, Transit, Q.Live, KickedOn, Draws,
      FrameHolds, FullWire, FreshPtrs, ResultShape, Offers;
    InvWaiter(s);
    if a.DoNewStream? {
      var conns, id, ctx, info, job := NewStreamLaunch(s, a.co, a.r, a.c, a.typ, a.req, a.alloc);
      LaunchQueue(s, Apply(s, a), conns, s.streams, a.co, id, ctx, info, job);
    } else if Admitted(s, a.r, a.id) {
      var streams, ctx, info, job := StreamOpLaunch(s, a.co, a.r, a.id, a.op);
      LaunchQueue(s, Apply(s, a), s.conns, streams, a.co, a.id, ctx, info, job);
    } else {
      StreamOpRefused(s, a.co, a.r, a.id, a.op);
    }
  }

  lemma LaunchQueue(s: State, s': State, conns: map<ConnId, Conn>, streams: map<JobId, Stream>,
                    co: Co, id: Id, ctx: StreamCtx, info: OpInfo, job: Job)
    requires Launch(s, s', conns, streams, co, id, ctx, info, job)
    ensures s'.q == if s.active then s.q else s.q.(phase := Q.Queued)
  {
    hide CleanId;
  }

  lemma DrainQueue(s: State, decodes: bool)
    requires Inv(s) && s.posted != []
    ensures DrainOne(s, decodes).q == s.q
  {
    hide Placed, Registry, Handled, Delayed, ConnRefsAgree, Books, Conserved, OwnJobs, Completions, Waiters,
      Attributed, WaiterSound, Owned, LostReason, Wholes, ConnHandled, JobStreams, Transit, DrainOne, Unsettled, Resume, Prepared, Resumed,
      Delivery;
    Head(s);
    if s.posted[0].id in s.ongoing {
      DeliveryAttributed(s, decodes);
      var cause := Delivery(s, decodes);
      DeliverShape(s, decodes);
      PreparedResume(s, cause);
      TakeResumedFrame(s, cause);
    } else {
      DiscardShape(s, decodes);
    }
  }

  lemma TimeoutQueue(s: State, co: Co)
    requires Inv(s) && CoOf(s, co).timer
    ensures OpTimeout(s, co).q == s.q
  {
    hide Placed, Registry, Handled, Delayed, ConnRefsAgree, Books, Conserved, OwnJobs, Completions, Waiters,
      Attributed, WaiterSound, Owned, LostReason, Wholes, ConnHandled, JobStreams, OpTimeout, ConnsAfter, PlaceAfter;
    WaitingKept(s, co);
    Kept(s, s.cos[co].data);
    OpTimeoutShape(s, co);
  }

  lemma AbortQueue(s: State, co: Co)
    requires Inv(s) && CoOf(s, co).cleanup
    ensures Abort(s, co).q == s.q
  {
    hide Placed, Registry, Handled, Delayed, ConnRefsAgree, Books, Conserved, OwnJobs, Completions, Waiters,
      Attributed, WaiterSound, Owned, LostReason, Wholes, ConnHandled, JobStreams;
    WaitingKept(s, co);
  }

  /** The critical sections of the queue, one by one. */
  lemma QueueTimers(q: Q.Queue, t: nat, res: TaskResult)
    requires TimersStopped(q)
    ensures TimersStopped(Q.Done(q, res)) && Q.Done(q, res).done
    ensures TimersStopped(Q.TimerExpire(q, t)) && Q.TimerExpire(q, t).done == q.done
    ensures TimersStopped(Q.TimerFire(q, t)) && Q.TimerFire(q, t).done
    ensures q.phase == Q.Queued ==> TimersStopped(Q.WaitStart(q)) && Q.WaitStart(q).done == q.done
    ensures q.phase == Q.Entering || q.phase == Q.Woken ==> TimersStopped(Q.WaitCheck(q)) && !Q.WaitCheck(q).done
    ensures q.phase == Q.Finished ==> TimersStopped(q.(phase := Q.Off)) && TimersStopped(q.(phase := Q.Queued))
    ensures q.phase == Q.Off ==> TimersStopped(q.(phase := Q.Queued))
  {
  }

  lemma ThreadEventQueue(s: State)
    requires Inv(s) && s.q.phase == Q.Finished
    ensures ThreadEvent(s).q == s.q.(phase := Q.Off) || ThreadEvent(s).q == s.q.(phase := Q.Queued)
  {
    hide Inv, ThreadEvent;
    InvWaiter(s);
    ThreadEventShape(s);
  }

  lemma WaitCheckQueue(s: State, ptrs: seq<Ptr>)
    requires |ptrs| == |s.q.tasks|
    ensures WaitCheck(s, ptrs).q == Q.WaitCheck(s.q)
  {
    hide StoreAll, PackAll, Q.WaitCheck;
  }

  /** Steps of goroutines, timers and the waiter. */
  lemma BusyQueue(s: State, a: Step)
    requires Inv(s) && Enabled(s, a) && (a.DoReport? || Moving(a)) && TimersStopped(s.q)
    ensures Apply(s, a).q.done == DoneNext(s.q.done, a) && TimersStopped(Apply(s, a).q)
  {
    hide NewStream, NewStreamRefused, StreamOp, CloseConn, FinalizeConn, CloseStream, FinalizeStream, Connect,
      RunJob, MakeCall, CallsLeft, DrainOne, OpTimeout, Abort, FrameHolds, FullWire, FreshPtrs, ResultShape,
      ThreadEvent, WaitCheck, Inv, TimersStopped, Q.Done, Q.TimerExpire, Q.TimerFire, Q.WaitStart, Q.WaitCheck, Offers;
    match a {
      case DoReport(j) => QueueTimers(s.q, 0, s.jobs[j].ran.value);
      case DoTimerExpire(t) => QueueTimers(s.q, t, NO_RESULT);
      case DoTimerFire(t) => QueueTimers(s.q, t, NO_RESULT);
      case DoWaitStart => QueueTimers(s.q, 0, NO_RESULT);
      case DoWaitCheck(ptrs) =>
        WaitCheckQueue(s, ptrs);
        QueueTimers(s.q, 0, NO_RESULT);
      case DoThreadEvent =>
        ThreadEventQueue(s);
        QueueTimers(s.q, 0, NO_RESULT);
    }
  }

  const NO_RESULT := TaskResult(0, None, None, 0)

  lemma SignalStep(s: State, a: Step)
    requires Inv(s) && Enabled(s, a) && TimersStopped(s.q)
    ensures Apply(s, a).q.done == DoneNext(s.q.done, a) && TimersStopped(Apply(s, a).q)
  {
    hide Inv, Enabled, Apply, TimersStopped;
    if a.DoReport? || Moving(a) {
      BusyQueue(s, a);
    } else {
      StillQueue(s, a);
      QueueTimers(s.q, 0, NO_RESULT);
      assert s.q.(phase := s.q.phase) == s.q;
    }
  }

  lemma {:induction false} SignalRun(s: State, run: seq<Step>)
    requires Inv(s) && Runs(s, run) && TimersStopped(s.q)
    ensures After(s, run).q.done == DoneOf(s.q.done, run) && TimersStopped(After(s, run).q)
    decreases |run|
  {
    hide Inv, Apply, Enabled, TimersStopped, DoneNext;
    if run != [] {
      SignalStep(s, run[0]);
      StepInv(s, run[0]);
      SignalRun(Apply(s, run[0]), run[1..]);
    }
  }
}
