/** The invariant over every run. */
module Reachability {
  import opened Base
  import opened Buffers
  import opened Machine
  import opened Invariants
  import opened KickOffs
  import opened Destruction
  import opened Completion
  import opened Draining
  import opened Engine
  import Q = FinishedQueue

  lemma InitInv()
    ensures Inv(INIT)
  {
    assert Transit(INIT) == [];
  }

  lemma StepInv(s: State, a: Step)
    requires Inv(s) && Enabled(s, a)
    ensures Inv(Apply(s, a))
  {
    hide Inv, NewStream, NewStreamRefused, StreamOp, CloseConn, FinalizeConn, CloseStream, FinalizeStream,
      RunJob, MakeCall, CallsLeft, Report, WaitCheck, ThreadEvent, DrainOne, OpTimeout, Abort,
      FrameHolds, FullWire, FreshPtrs, Q.TimerExpire, Q.TimerFire, Q.WaitStart, ResultShape;
    match a {
      case DoConnect(c, e) => ConnectInv(s, c, e);
      case DoNewStream(co, r, c, typ, req, alloc) => NewStreamInv(s, co, r, c, typ, req, alloc);
      case DoNewStreamRefused(co, r, c, typ, alloc) => NewStreamRefusedInv(s, r, c, typ, alloc);
      case DoStreamOp(co, r, id, op) =>
        HandleOffers(s, id, op);
        StreamOpInv(s, co, r, id, op);
      case DoCloseConn(c) => CloseConnInv(s, c);
      case DoFinalizeConn(c) => FinalizeConnInv(s, c);
      case DoCloseStream(id) => CloseStreamInv(s, id);
      case DoFinalizeStream(id) => FinalizeStreamInv(s, id);
      case DoCall(j) => MakeCallInv(s, j);
      case DoRunJob(j, result, err) => RunJobInv(s, j, result, err);
      case DoReport(j) => ReportInv(s, j);
      case DoTimerExpire(t) => TimerInv(s, t);
      case DoTimerFire(t) => TimerInv(s, t);
      case DoWaitStart => WaitStartInv(s);
      case DoWaitCheck(ptrs) => WaitCheckInv(s, ptrs);
      case DoThreadEvent => ThreadEventInv(s);
      case DoDrainOne(decodes) => DrainOneInv(s, decodes);
      case DoOpTimeout(co) => OpTimeoutInv(s, co);
      case DoAbort(co) => AbortInv(s, co);
    }
  }

  /** The Lua methods are the stream operations. */
  lemma HandleOffers(s: State, id: Id, op: Op)
    requires Inv(s) && id in s.handles && (id in s.sctxs ==> Offers(s.sctxs[id].typ, op))
    ensures StreamJob(op)
  {
    hide Placed, Registry, Waiters, Delayed, ConnRefsAgree, Books, Conserved, OwnJobs, Completions,
      Attributed, Owned, LostReason, Wholes, ConnHandled, JobStreams, WaiterSound;
  }

  /** Every reachable state satisfies the invariant. */
  lemma {:induction false} RunInv(s: State, run: seq<Step>)
    requires Inv(s) && Runs(s, run)
    ensures Inv(After(s, run))
    decreases |run|
  {
    hide Inv, Apply, Enabled;
    if run != [] {
      StepInv(s, run[0]);
      RunInv(Apply(s, run[0]), run[1..]);
    }
  }
}
