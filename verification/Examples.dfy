/** Concrete runs from the initial state on which the unconditional claims fail. */
module Examples {
  import opened Base
  import opened Buffers
  import opened Machine
  import opened Invariants
  import opened Reachability
  import opened Undisturbed
  import opened Wakeups
  import opened Attribution
  import Q = FinishedQueue

  /** The one connection of these runs, with `free` on its free queue. */
  function Linked(free: seq<Id>): Conn { Conn(Some(1), [], free, false) }

  /** A unary context waited on by coroutine `co`. */
  function Calling(co: Co): StreamCtx {
    StreamCtx(Some(0), Some(co), false, true, 1, Unary, InFlight)
  }

  const EXPIRED := StreamCtx(Some(0), None, true, false, 1, Unary, Free)

  function WaitingCo(op: JobId, id: Id): CoCtx { CoCtx(Waiting(op), true, true, id) }

  function CallJob(id: Id, j: JobId): Job { Job(id, CallOp([]), Unary, j, None) }

  function Called(id: Id, co: Co, clean: bool): OpInfo { OpInfo(id, co, CallOp([]), clean) }

  function CallStepOf(co: Co, alloc: Id): Step { DoNewStream(co, 0, 1, Unary, [], alloc) }

  const CONNECTED := INIT.(conns := map[1 := Linked([])], connRefs := map[1 := 1], connHandles := map[1 := true])

  const ONE_CALL := CONNECTED.(
    sctxs := map[8 := Calling(1)], ongoing := {8}, ongoingNum := 1, cos := map[1 := WaitingCo(0, 8)],
    ops := [Called(8, 1, true)], jobs := map[0 := CallJob(8, 0)],
    active := true, q := Q.EMPTY.(phase := Q.Queued))

  lemma Connects()
    ensures Enabled(INIT, DoConnect(1, 1)) && Apply(INIT, DoConnect(1, 1)) == CONNECTED
  {
    ConnectStep(INIT, 1, 1);
  }

  lemma FirstCall()
    ensures Enabled(CONNECTED, CallStepOf(1, 8)) && Apply(CONNECTED, CallStepOf(1, 8)) == ONE_CALL
  {
    hide Enabled, Apply;
    CallStep(CONNECTED, 1, 1, Unary, 8);
    var s := NewStream(CONNECTED, 1, 0, 1, Unary, [], 8);
    assert s.conns == ONE_CALL.conns;
    assert s.sctxs == ONE_CALL.sctxs;
    assert s.cos == ONE_CALL.cos;
    assert s.jobs == ONE_CALL.jobs;
  }

  lemma TimeoutStep(s: State, co: Co)
    requires s.faults == {} && CoOf(s, co).timer
    ensures Enabled(s, DoOpTimeout(co)) && Apply(s, DoOpTimeout(co)) == OpTimeout(s, co)
  {
    hide NewStream, NewStreamRefused, StreamOp, CloseConn, FinalizeConn, CloseStream, FinalizeStream, RunJob, MakeCall, CallsLeft, Report,
      WaitCheck, ThreadEvent, DrainOne, OpTimeout, Abort, FrameHolds, FullWire, FreshPtrs, ResultShape, Offers;
  }

  // ---------------------------------------------------------------- an id reissued too early

  const TIMED_OUT := ONE_CALL.(
    conns := map[1 := Linked([8])], sctxs := map[8 := EXPIRED], ongoing := {}, ongoingNum := 0,
    cos := map[1 := CoCtx(Running, false, false, 8)], events := [Event(0, Timeout)])

  lemma CallTimesOut()
    ensures Enabled(ONE_CALL, DoOpTimeout(1)) && Apply(ONE_CALL, DoOpTimeout(1)) == TIMED_OUT
  {
    hide Enabled, Apply;
    TimeoutStep(ONE_CALL, 1);
    var s := OpTimeout(ONE_CALL, 1);
    assert s.conns[1].free == [8];
    assert s.conns == TIMED_OUT.conns;
    assert s.sctxs == TIMED_OUT.sctxs;
    assert s.cos == TIMED_OUT.cos;
    assert s.ongoing == TIMED_OUT.ongoing;
  }

  /** After a timed-out call the very next call on the connection reuses its id while the
      first job is still running, and can be answered with the first job's result. */
  lemma ReissuedCallIsMisled() returns (run: seq<Step>)
    ensures Runs(INIT, run) && Misled(After(INIT, run), 1)
  {
    Connects();
    FirstCall();
    CallTimesOut();
    InitInv();
    hide Enabled, Apply, Inv, Misled;
    StepInv(INIT, DoConnect(1, 1));
    StepInv(CONNECTED, CallStepOf(1, 8));
    StepInv(ONE_CALL, DoOpTimeout(1));
    SecondCall();
    var rest := UncleanMisleads(TIMED_OUT, CallStepOf(1, 16));
    Prepend(TIMED_OUT, CallStepOf(1, 16), rest);
    var r3 := [CallStepOf(1, 16)] + rest;
    Prepend(ONE_CALL, DoOpTimeout(1), r3);
    var r2 := [DoOpTimeout(1)] + r3;
    Prepend(CONNECTED, CallStepOf(1, 8), r2);
    var r1 := [CallStepOf(1, 8)] + r2;
    Prepend(INIT, DoConnect(1, 1), r1);
    run := [DoConnect(1, 1)] + r1;
  }

  lemma SecondCall()
    ensures Enabled(TIMED_OUT, CallStepOf(1, 16)) && KicksOff(TIMED_OUT, CallStepOf(1, 16))
    ensures KickedId(TIMED_OUT, CallStepOf(1, 16)) == 8 && !CleanId(TIMED_OUT, 8)
  {
    assert Outstanding(TIMED_OUT, 0);
    hide CleanId, NewStreamRefused, StreamOp, CloseConn, FinalizeConn, CloseStream, FinalizeStream, RunJob, MakeCall, CallsLeft, Report,
      WaitCheck, ThreadEvent, DrainOne, OpTimeout, Abort, FrameHolds, FullWire, FreshPtrs, ResultShape, Offers;
    assert PickCtx(TIMED_OUT.conns[1], 16) == (8, []);
  }

  // ---------------------------------------------------------------- a lost wake-up

  const TWO_CALLS := ONE_CALL.(
    sctxs := map[8 := Calling(1), 16 := Calling(2)], ongoing := {8, 16}, ongoingNum := 2,
    cos := map[1 := WaitingCo(0, 8), 2 := WaitingCo(1, 16)],
    ops := [Called(8, 1, true), Called(16, 2, true)], jobs := map[0 := CallJob(8, 0), 1 := CallJob(16, 1)])

  lemma AnotherCall()
    ensures Enabled(ONE_CALL, CallStepOf(2, 16)) && Apply(ONE_CALL, CallStepOf(2, 16)) == TWO_CALLS
  {
    hide Enabled, Apply;
    CallStep(ONE_CALL, 2, 1, Unary, 16);
    var s := NewStream(ONE_CALL, 2, 0, 1, Unary, [], 16);
    assert s.conns == TWO_CALLS.conns;
    assert s.sctxs == TWO_CALLS.sctxs;
    assert s.cos == TWO_CALLS.cos;
    assert s.jobs == TWO_CALLS.jobs;
    assert s.ongoing == TWO_CALLS.ongoing;
  }

  const FIRST_EXPIRED := TWO_CALLS.(
    conns := map[1 := Linked([8])], sctxs := map[8 := EXPIRED, 16 := Calling(2)], ongoing := {16}, ongoingNum := 1,
    cos := map[1 := CoCtx(Running, false, false, 8), 2 := WaitingCo(1, 16)], events := [Event(0, Timeout)])

  lemma FirstExpires()
    ensures Enabled(TWO_CALLS, DoOpTimeout(1)) && Apply(TWO_CALLS, DoOpTimeout(1)) == FIRST_EXPIRED
  {
    hide Enabled, Apply;
    TimeoutStep(TWO_CALLS, 1);
    var s := OpTimeout(TWO_CALLS, 1);
    assert s.conns[1].free == [8];
    assert s.conns == FIRST_EXPIRED.conns;
    assert s.sctxs == FIRST_EXPIRED.sctxs;
    assert s.cos == FIRST_EXPIRED.cos;
    assert s.ongoing == FIRST_EXPIRED.ongoing;
  }

  const LATE := TaskResult(8, None, Some([]), 0)

  const FIRST_RAN := FIRST_EXPIRED.(jobs := map[0 := CallJob(8, 0).(ran := Some(LATE)), 1 := CallJob(16, 1)])

  const FIRST_REPORTED := FIRST_EXPIRED.(
    jobs := map[1 := CallJob(16, 1)], reported := [LATE], q := Q.EMPTY.(phase := Q.Queued, done := true, tasks := [LATE]))

  lemma FirstRuns()
    ensures Enabled(FIRST_EXPIRED, DoRunJob(0, None, Some([])))
    ensures Apply(FIRST_EXPIRED, DoRunJob(0, None, Some([]))) == FIRST_RAN
  {
    hide Enabled, Apply;
    FailStep(FIRST_EXPIRED, 0);
    assert RunJob(FIRST_EXPIRED, 0, None, Some([])).jobs == FIRST_RAN.jobs;
  }

  lemma FirstReports()
    ensures Enabled(FIRST_RAN, DoReport(0)) && Apply(FIRST_RAN, DoReport(0)) == FIRST_REPORTED
  {
    hide Enabled, Apply;
    ReportStep(FIRST_RAN, 0);
    assert Report(FIRST_RAN, 0).jobs == FIRST_REPORTED.jobs;
  }

  const ENTERED := FIRST_REPORTED.(
    q := Q.Queue(true, [LATE], Q.Entering, {0}, {}, 0, 1))

  const COLLECTED := FIRST_REPORTED.(
    q := Q.Queue(false, [], Q.Finished, {}, {}, 0, 1), batch := [CRes(8, 0, 9, LATE)], heap := map[8 := []])

  lemma WaiterEnters()
    ensures Enabled(FIRST_REPORTED, DoWaitStart) && Apply(FIRST_REPORTED, DoWaitStart) == ENTERED
  {
    hide NewStream, NewStreamRefused, StreamOp, CloseConn, FinalizeConn, CloseStream, FinalizeStream, RunJob, MakeCall, CallsLeft, Report,
      WaitCheck, ThreadEvent, DrainOne, OpTimeout, Abort, FrameHolds, FullWire, FreshPtrs, ResultShape, Offers;
  }

  lemma WaiterCollects()
    ensures Enabled(ENTERED, DoWaitCheck([8])) && Apply(ENTERED, DoWaitCheck([8])) == COLLECTED
  {
    Packed();
    hide NewStream, NewStreamRefused, StreamOp, CloseConn, FinalizeConn, CloseStream, FinalizeStream, RunJob, MakeCall, CallsLeft, Report,
      ThreadEvent, DrainOne, OpTimeout, Abort, FrameHolds, FullWire, ResultShape, Offers, StoreAll, PackAll;
    assert WaitCheck(ENTERED, [8]).q == COLLECTED.q;
  }

  lemma Packed()
    ensures StoreAll(map[], [LATE], [8]) == map[8 := []]
    ensures PackAll([LATE], [8]) == [CRes(8, 0, 9, LATE)]
  {
    assert [LATE][..0] == [] && [8][..0] == [];
    assert StoreAll(map[], [LATE][..0], [8][..0]) == map[];
  }

  /** The second call is still awaited, its job is still running, and nobody will collect it. */
  lemma EventStrands()
    ensures var s := ThreadEvent(COLLECTED);
            !s.active && 1 in s.jobs && Awaited(s.cos, s.ops, 1) && Stranded(s)
  {
    var s := ThreadEvent(COLLECTED);
    assert s == COLLECTED.(active := false, q := COLLECTED.q.(phase := Q.Off), posted := COLLECTED.batch, batch := []);
    assert 1 in AwaitedOps(s);
    assert 1 in Unposted(s);
  }

  const LOST_WAKE_UP: seq<Step> :=
    [DoConnect(1, 1), CallStepOf(1, 8), CallStepOf(2, 16), DoOpTimeout(1), DoRunJob(0, None, Some([])),
     DoReport(0), DoWaitStart, DoWaitCheck([8]), DoThreadEvent]

  /** One timeout is enough to lose a wake-up. */
  lemma TimeoutLosesWakeUp()
    ensures Runs(INIT, LOST_WAKE_UP) && Stranded(After(INIT, LOST_WAKE_UP))
  {
    hide Enabled, Apply, Stranded, ThreadEvent, INIT, CONNECTED, ONE_CALL, TWO_CALLS, FIRST_EXPIRED, FIRST_RAN,
      FIRST_REPORTED, ENTERED, COLLECTED;
    Connects();
    FirstCall();
    AnotherCall();
    FirstExpires();
    FirstRuns();
    FirstReports();
    WaiterEnters();
    WaiterCollects();
    EventStrands();
    EventStep();
    var r := LOST_WAKE_UP;
    assert r[9..] == [];
    Unroll(COLLECTED, r, 8);
    Unroll(ENTERED, r, 7);
    Unroll(FIRST_REPORTED, r, 6);
    Unroll(FIRST_RAN, r, 5);
    Unroll(FIRST_EXPIRED, r, 4);
    Unroll(TWO_CALLS, r, 3);
    Unroll(ONE_CALL, r, 2);
    Unroll(CONNECTED, r, 1);
    Unroll(INIT, r, 0);
    assert r[0..] == r;
  }

  lemma Unroll(s: State, run: seq<Step>, i: nat)
    requires i < |run| && Enabled(s, run[i]) && Runs(Apply(s, run[i]), run[i + 1..])
    ensures Runs(s, run[i..]) && After(s, run[i..]) == After(Apply(s, run[i]), run[i + 1..])
  {
    hide Enabled, Apply;
    Prepend(s, run[i], run[i + 1..]);
    assert run[i..] == [run[i]] + run[i + 1..];
  }

  lemma EventStep()
    ensures Enabled(COLLECTED, DoThreadEvent) && Apply(COLLECTED, DoThreadEvent) == ThreadEvent(COLLECTED)
  {
    hide NewStream, NewStreamRefused, StreamOp, CloseConn, FinalizeConn, CloseStream, FinalizeStream, RunJob, MakeCall, CallsLeft, Report,
      WaitCheck, ThreadEvent, DrainOne, OpTimeout, Abort, FrameHolds, FullWire, FreshPtrs, ResultShape, Offers;
  }
}
