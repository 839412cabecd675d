/** Concrete runs in which an id is reissued early: a coroutine is aborted while its `recv` is at
    work, its stream is finalized, and the context is opened anew. Two jobs then meet on one
    stream, a reference is missed, and a server stream is sent a second message. */
module Interleaving {
  import opened Base
  import opened Buffers
  import opened Machine
  import opened Invariants
  import opened KickOffs
  import opened Engine
  import opened Reachability
  import opened Undisturbed
  import opened Attribution
  import opened Serialisation
  import opened CallOrder
  import opened HalfClose
  import opened Examples
  import Q = FinishedQueue

  function OnConn(opening: seq<Id>, free: seq<Id>): Conn { Conn(Some(1), opening, free, false) }

  function Ctx(typ: StreamType, r: Option<Req>, waitCo: Option<Co>, node: bool, place: Place): StreamCtx {
    StreamCtx(r, waitCo, false, node, 1, typ, place)
  }

  function OpenJob(typ: StreamType, j: JobId): Job { Job(8, OpenOp([]), typ, j, None) }

  function OpenInfo(co: Co, clean: bool): OpInfo { OpInfo(8, co, OpenOp([]), clean) }

  function Ok(j: JobId): TaskResult { TaskResult(8, None, None, j) }

  function Handed(j: JobId, k: JobId): Event { Event(j, Result(Ok(k), LuaValue(true, None), false)) }

  function OpenStep(typ: StreamType, co: Co, alloc: Id): Step { DoNewStream(co, 0, 1, typ, [], alloc) }

  // ---------------------------------------------------------------- one result from goroutine to coroutine

  /** A job that opened its stream. */
  function RanOpen(s: State, typ: StreamType, j: JobId): State {
    s.(jobs := s.jobs[j := OpenJob(typ, j).(ran := Some(Ok(j)))], streams := s.streams[j := Born(j, OpenJob(typ, j))],
       streamRefs := s.streamRefs[8 := j])
  }

  lemma Opens(s: State, typ: StreamType, j: JobId)
    requires s.faults == {} && j in s.jobs && s.jobs[j] == OpenJob(typ, j)
    ensures Enabled(s, DoRunJob(j, None, None)) && Apply(s, DoRunJob(j, None, None)) == RanOpen(s, typ, j)
  {
    hide NewStream, NewStreamRefused, StreamOp, CloseConn, FinalizeConn, CloseStream, FinalizeStream, RunJob, MakeCall, Report,
      WaitCheck, ThreadEvent, DrainOne, OpTimeout, Abort, FrameHolds, FullWire, FreshPtrs, Offers, Born;
    RunOpenShape(s, j, None);
  }

  function Reported(s: State, k: JobId): State {
    s.(jobs := s.jobs - {k}, q := Q.Done(s.q, Ok(k)), reported := s.reported + [Ok(k)])
  }

  /** The waiter collects the one result and the completion event posts it; it was all there was
      to wait for, so the waiter rests. */
  function PostedBy(s: State, k: JobId): State {
    Reported(s, k).(
      q := s.q.(phase := Q.Off, done := false, tasks := [], own := s.q.nextTimer, nextTimer := s.q.nextTimer + 1),
      active := false, posted := [CRes(8, 0, 2, Ok(k))])
  }

  /** Nothing on its way, the waiter posted and one operation registered. */
  predicate Quiet(s: State) {
    && s.faults == {} && s.active && s.q.phase == Q.Queued && s.q.tasks == [] && !s.q.done && s.posted == [] && s.batch == []
    && s.q.armed == {} && s.q.firing == {} && s.heap == map[] && s.ongoingNum == 1
  }

  lemma Enters(s: State)
    requires s.faults == {} && s.q.phase == Q.Queued
    ensures Enabled(s, DoWaitStart) && Apply(s, DoWaitStart) == s.(q := Q.WaitStart(s.q))
  {
    hide NewStream, NewStreamRefused, StreamOp, CloseConn, FinalizeConn, CloseStream, FinalizeStream, RunJob, MakeCall, CallsLeft, Report,
      WaitCheck, ThreadEvent, DrainOne, OpTimeout, Abort, FrameHolds, FullWire, FreshPtrs, ResultShape, Offers;
  }

  lemma CollectsOne(s: State, k: JobId)
    requires s.faults == {} && s.q.phase == Q.Entering && s.q.done && s.q.tasks == [Ok(k)] && s.heap == map[]
    ensures Enabled(s, DoWaitCheck([8])) && Apply(s, DoWaitCheck([8])) == s.(q := Q.WaitCheck(s.q), batch := [CRes(8, 0, 2, Ok(k))])
  {
    hide NewStream, NewStreamRefused, StreamOp, CloseConn, FinalizeConn, CloseStream, FinalizeStream, RunJob, MakeCall, CallsLeft, Report,
      ThreadEvent, DrainOne, OpTimeout, Abort, FrameHolds, FullWire, ResultShape, Offers;
    assert StoreAll(map[], [Ok(k)], [8]) == map[] by {
      assert [Ok(k)][..0] == [] && [8][..0] == [];
    }
    assert PackAll([Ok(k)], [8]) == [CRes(8, 0, 2, Ok(k))];
  }

  lemma PostsAll(s: State)
    requires s.faults == {} && s.q.phase == Q.Finished && s.ongoingNum <= |s.batch|
    ensures Enabled(s, DoThreadEvent)
    ensures Apply(s, DoThreadEvent) == s.(active := false, q := s.q.(phase := Q.Off), posted := s.posted + s.batch, batch := [])
  {
    hide NewStream, NewStreamRefused, StreamOp, CloseConn, FinalizeConn, CloseStream, FinalizeStream, RunJob, MakeCall, CallsLeft, Report,
      WaitCheck, DrainOne, OpTimeout, Abort, FrameHolds, FullWire, FreshPtrs, ResultShape, Offers;
  }

  lemma Collects(s: State, k: JobId)
    requires Quiet(s)
    ensures var t := Reported(s, k);
            && Runs(t, [DoWaitStart, DoWaitCheck([8]), DoThreadEvent])
            && After(t, [DoWaitStart, DoWaitCheck([8]), DoThreadEvent]) == PostedBy(s, k)
  {
    hide Enabled, Apply, Runs, After;
    var t := Reported(s, k);
    var t1 := t.(q := Q.WaitStart(t.q));
    var t2 := t1.(q := Q.WaitCheck(t1.q), batch := [CRes(8, 0, 2, Ok(k))]);
    assert t.q.tasks == [Ok(k)];
    Enters(t);
    CollectsOne(t1, k);
    PostsAll(t2);
    assert t2.q.armed == {};
    Three(t, t1, t2, DoWaitStart, DoWaitCheck([8]), DoThreadEvent);
  }

  lemma Three(s: State, s1: State, s2: State, a: Step, b: Step, c: Step)
    requires Enabled(s, a) && Apply(s, a) == s1 && Enabled(s1, b) && Apply(s1, b) == s2 && Enabled(s2, c)
    ensures Runs(s, [a, b, c]) && After(s, [a, b, c]) == Apply(s2, c)
  {
    hide Enabled, Apply;
    Prepend(s2, c, []);
    assert [c] + [] == [c] && [b] + [c] == [b, c] && [a] + [b, c] == [a, b, c];
    Prepend(s1, b, [c]);
    Prepend(s, a, [b, c]);
  }

  /** Opening `j` is awaited by `co` and the next result for its id is job `k`'s success. */
  predicate AboutToOpen(s: State, typ: StreamType, j: JobId, k: JobId, co: Co) {
    && s.faults == {} && s.heap == map[] && s.posted == [CRes(8, 0, 2, Ok(k))] && 8 in s.ongoing && !typ.Unary?
    && 8 in s.sctxs && s.sctxs[8] == Ctx(typ, Some(0), Some(co), true, Pending)
    && co in s.cos && s.cos[co] == WaitingCo(j, 8) && j < |s.ops| && s.ops[j].op == OpenOp([])
  }

  /** The opening `j` is registered and awaited by `co`, with nothing on its way. */
  predicate Expected(s: State, typ: StreamType, j: JobId, co: Co) {
    && Quiet(s) && 8 in s.ongoing && !typ.Unary? && 8 in s.sctxs && s.sctxs[8] == Ctx(typ, Some(0), Some(co), true, Pending)
    && co in s.cos && s.cos[co] == WaitingCo(j, 8) && j < |s.ops| && s.ops[j].op == OpenOp([])
  }

  lemma PostedReady(s: State, typ: StreamType, j: JobId, k: JobId, co: Co)
    requires Expected(s, typ, j, co)
    ensures AboutToOpen(PostedBy(s, k), typ, j, k, co)
  {
  }

  function HandedOver(s: State, typ: StreamType, j: JobId, k: JobId, co: Co): State {
    s.(posted := [], processed := s.processed + [Ok(k)], ongoing := s.ongoing - {8}, ongoingNum := s.ongoingNum - 1,
       sctxs := s.sctxs[8 := Ctx(typ, Some(0), None, false, Held)], cos := s.cos[co := CoCtx(Running, false, false, 8)],
       events := s.events + [Handed(j, k)], handles := s.handles[8 := true])
  }

  lemma Drains(s: State, typ: StreamType, j: JobId, k: JobId, co: Co)
    requires AboutToOpen(s, typ, j, k, co)
    ensures Enabled(s, DoDrainOne(false)) && Apply(s, DoDrainOne(false)) == HandedOver(s, typ, j, k, co)
  {
    hide Enabled, Apply;
    DrainStep(s, false);
    var x := CRes(8, 0, 2, Ok(k));
    var s1 := s.(posted := [], processed := s.processed + [Ok(k)]);
    assert DrainOne(s, false) == Deliver(s1, x, false);
    var s2 := Disarm(s1, co);
    assert Unpack(map[], x) == LuaValue(true, None);
    assert FreeBuf(s2, 2) == s2;
    assert Deliver(s1, x, false) == Resume(s2, 8, Result(Ok(k), LuaValue(true, None), false));
    Overwrite(s.cos, co, CoCtx(Waiting(j), false, false, 8), CoCtx(Running, false, false, 8));
  }

  const ROUND: seq<Step> := [DoWaitStart, DoWaitCheck([8]), DoThreadEvent]

  function DeliveryRun(k: JobId): seq<Step> { [DoReport(k)] + (ROUND + [DoDrainOne(false)]) }

  /** Job `k` reports its success and opening `j` takes it for its own. */
  lemma Delivers(s: State, typ: StreamType, j: JobId, k: JobId, co: Co)
    requires Expected(s, typ, j, co) && k in s.jobs && s.jobs[k].ran == Some(Ok(k))
    ensures Runs(s, DeliveryRun(k)) && After(s, DeliveryRun(k)) == HandedOver(PostedBy(s, k), typ, j, k, co) && Untimed(DeliveryRun(k))
  {
    hide Enabled, Apply, AboutToOpen, HandedOver, PostedBy, Runs, After;
    PostedReady(s, typ, j, k, co);
    ReportStep(s, k);
    Collects(s, k);
    Drains(PostedBy(s, k), typ, j, k, co);
    Extend(Reported(s, k), ROUND, DoDrainOne(false));
    Prepend(s, DoReport(k), ROUND + [DoDrainOne(false)]);
  }

  // ---------------------------------------------------------------- runs without timeouts

  /** A run without timeouts from the initial state to `t`. */
  predicate Reaches(run: seq<Step>, t: State) {
    Runs(INIT, run) && Untimed(run) && After(INIT, run) == t
  }

  lemma ReachesStep(run: seq<Step>, t: State, a: Step)
    requires Reaches(run, t) && Enabled(t, a) && !a.DoOpTimeout?
    ensures Reaches(run + [a], Apply(t, a))
  {
    hide Enabled, Apply, INIT;
    Extend(INIT, run, a);
  }

  lemma ReachesRun(run: seq<Step>, t: State, more: seq<Step>)
    requires Reaches(run, t) && Runs(t, more) && Untimed(more)
    ensures Reaches(run + more, After(t, more))
  {
    hide Enabled, Apply, INIT;
    Concatenate(INIT, run, more);
  }

  lemma ReachesInv(run: seq<Step>, t: State)
    requires Reaches(run, t)
    ensures Inv(t)
  {
    hide Enabled, Apply, Inv, INIT;
    InitInv();
    RunInv(INIT, run);
  }

  // ---------------------------------------------------------------- a first stream

  function Opening(typ: StreamType): State {
    CONNECTED.(
      conns := map[1 := OnConn([8], [])], sctxs := map[8 := Ctx(typ, Some(0), Some(1), true, Pending)],
      ongoing := {8}, ongoingNum := 1, cos := map[1 := WaitingCo(0, 8)],
      ops := [OpenInfo(1, true)], jobs := map[0 := OpenJob(typ, 0)], active := true, q := Q.EMPTY.(phase := Q.Queued))
  }

  lemma Begins(typ: StreamType)
    requires !typ.Unary?
    ensures Enabled(CONNECTED, OpenStep(typ, 1, 8)) && Apply(CONNECTED, OpenStep(typ, 1, 8)) == Opening(typ)
  {
    hide Enabled, Apply;
    CallStep(CONNECTED, 1, 1, typ, 8);
    var s, t := NewStream(CONNECTED, 1, 0, 1, typ, [], 8), Opening(typ);
    assert s.conns[1].opening == [8];
    assert s.conns == t.conns;
    assert s.sctxs == t.sctxs;
    assert s.cos == t.cos;
    assert s.jobs == t.jobs;
  }

  function HeldBy(typ: StreamType): State {
    CONNECTED.(
      conns := map[1 := OnConn([8], [])], sctxs := map[8 := Ctx(typ, Some(0), None, false, Held)], handles := map[8 := true],
      cos := map[1 := CoCtx(Running, false, false, 8)], ops := [OpenInfo(1, true)], streams := map[0 := Born(0, OpenJob(typ, 0))],
      streamRefs := map[8 := 0], q := Q.Queue(false, [], Q.Off, {}, {}, 0, 1),
      reported := [Ok(0)], processed := [Ok(0)], events := [Handed(0, 0)])
  }

  lemma FirstDelivery(typ: StreamType)
    requires !typ.Unary?
    ensures var s := RanOpen(Opening(typ), typ, 0);
            && Runs(s, DeliveryRun(0)) && After(s, DeliveryRun(0)) == HeldBy(typ) && Untimed(DeliveryRun(0))
  {
    hide Runs, After, DeliveryRun, Born, HandedOver, PostedBy, HeldBy;
    Delivers(RanOpen(Opening(typ), typ, 0), typ, 0, 0, 1);
    FirstHandedOver(typ);
  }

  lemma FirstHandedOver(typ: StreamType)
    requires !typ.Unary?
    ensures HandedOver(PostedBy(RanOpen(Opening(typ), typ, 0), 0), typ, 0, 0, 1) == HeldBy(typ)
  {
    hide Born;
    var t, h := HandedOver(PostedBy(RanOpen(Opening(typ), typ, 0), 0), typ, 0, 0, 1), HeldBy(typ);
    assert t.jobs == h.jobs;
    assert t.sctxs == h.sctxs;
    assert t.cos == h.cos;
    assert t.ongoing == h.ongoing;
  }

  lemma ReachesHeld(typ: StreamType) returns (run: seq<Step>)
    requires !typ.Unary?
    ensures Reaches(run, HeldBy(typ))
  {
    hide Enabled, Apply, Runs, After, CONNECTED, HeldBy, INIT, DeliveryRun, RanOpen;
    Start();
    Connects();
    ReachesStep([], INIT, DoConnect(1, 1));
    Begins(typ);
    ReachesStep([] + [DoConnect(1, 1)], CONNECTED, OpenStep(typ, 1, 8));
    run := [] + [DoConnect(1, 1)] + [OpenStep(typ, 1, 8)];
    OpeningReady(typ);
    Opens(Opening(typ), typ, 0);
    ReachesStep(run, Opening(typ), DoRunJob(0, None, None));
    run := run + [DoRunJob(0, None, None)];
    FirstDelivery(typ);
    ReachesRun(run, RanOpen(Opening(typ), typ, 0), DeliveryRun(0));
    run := run + DeliveryRun(0);
  }

  lemma OpeningReady(typ: StreamType)
    ensures var s := Opening(typ); s.faults == {} && 0 in s.jobs && s.jobs[0] == OpenJob(typ, 0)
  {
  }

  lemma Start()
    ensures Reaches([], INIT)
  {
  }

  // ---------------------------------------------------------------- a receive at work

  function RecvJob(typ: StreamType): Job { Job(8, RecvOp, typ, 0, None) }

  function Receiving(typ: StreamType): State {
    HeldBy(typ).(
      sctxs := map[8 := Ctx(typ, Some(0), Some(1), true, Held)], ongoing := {8}, ongoingNum := 1, cos := map[1 := WaitingCo(1, 8)],
      ops := [OpenInfo(1, true), OpInfo(8, 1, RecvOp, true)], jobs := map[1 := RecvJob(typ)],
      streams := map[0 := Born(0, OpenJob(typ, 0)).(kicks := [0, 1])], active := true, q := Q.Queue(false, [], Q.Queued, {}, {}, 0, 1))
  }

  lemma StreamOpStep(s: State, co: Co, id: Id, op: Op)
    requires s.faults == {} && CoOf(s, co).run.Running? && id in s.handles && s.handles[id]
    requires id in s.sctxs && Offers(s.sctxs[id].typ, op)
    ensures Enabled(s, DoStreamOp(co, 0, id, op)) && Apply(s, DoStreamOp(co, 0, id, op)) == StreamOp(s, co, 0, id, op)
  {
    hide NewStream, NewStreamRefused, StreamOp, CloseConn, FinalizeConn, CloseStream, FinalizeStream, RunJob, MakeCall, CallsLeft, Report,
      WaitCheck, ThreadEvent, DrainOne, OpTimeout, Abort, FrameHolds, FullWire, FreshPtrs, ResultShape, Offers, CoOf;
  }

  /** An admitted method, on a worker at rest. */
  lemma UseShape(s: State, co: Co, op: Op, u: JobId, clean: bool)
    requires 8 in s.sctxs && s.sctxs[8].r == Some(0) && s.sctxs[8].waitCo.None? && Refers(s, 8, u) && u in s.streams
    requires !s.active && s.q.phase == Q.Off && clean == CleanId(s, 8)
    ensures StreamOp(s, co, 0, 8, op) == s.(
              streams := s.streams[u := s.streams[u].(kicks := s.streams[u].kicks + [|s.ops|])],
              ongoingNum := s.ongoingNum + 1, ongoing := s.ongoing + {8},
              sctxs := s.sctxs[8 := s.sctxs[8].(node := true, timedOut := false, waitCo := Some(co))],
              cos := s.cos[co := WaitingCo(|s.ops|, 8)], ops := s.ops + [OpInfo(8, co, op, clean)],
              jobs := s.jobs[|s.ops| := Job(8, op, s.streams[u].typ, u, None)], active := true, q := s.q.(phase := Q.Queued))
  {
    hide CleanId;
  }

  lemma HeldClean(typ: StreamType)
    ensures CleanId(HeldBy(typ), 8)
  {
    hide Born;
    assert Transit(HeldBy(typ)) == [];
  }

  lemma Receives(typ: StreamType)
    requires !typ.Unary?
    ensures Enabled(HeldBy(typ), DoStreamOp(1, 0, 8, RecvOp)) && Apply(HeldBy(typ), DoStreamOp(1, 0, 8, RecvOp)) == Receiving(typ)
  {
    hide Enabled, Apply, FullWire, StreamOp, CleanId;
    StreamOpStep(HeldBy(typ), 1, 8, RecvOp);
    HeldClean(typ);
    UseShape(HeldBy(typ), 1, RecvOp, 0, true);
    assert HeldBy(typ).streams[0].kicks + [1] == [0, 1];
  }

  // ---------------------------------------------------------------- a retried recv_close

  /** The first `recv_close` timed out and left the handle open. */
  const RETRY := Receiving(ClientStream).(
    sctxs := map[8 := StreamCtx(Some(0), None, true, false, 1, ClientStream, Held)], ongoing := {}, ongoingNum := 0,
    cos := map[1 := CoCtx(Running, false, false, 8)], events := [Handed(0, 0), Event(1, Timeout)])

  lemma TimesOut()
    ensures Enabled(Receiving(ClientStream), DoOpTimeout(1)) && Apply(Receiving(ClientStream), DoOpTimeout(1)) == RETRY
  {
    hide Enabled, Apply, FullWire;
    TimeoutStep(Receiving(ClientStream), 1);
    var s := OpTimeout(Receiving(ClientStream), 1);
    assert s.sctxs == RETRY.sctxs;
    assert s.cos == RETRY.cos;
    assert s.ongoing == RETRY.ongoing;
  }

  lemma Retries()
    ensures Enabled(RETRY, DoStreamOp(1, 0, 8, RecvOp)) && KicksOn(RETRY, DoStreamOp(1, 0, 8, RecvOp), 0)
    ensures RETRY.faults == {} && 0 in RETRY.streams && |RETRY.ops| == 2 && Busy(RETRY, 0, 1)
    ensures CallsLeft(RETRY, 1) == [HalfClose, Read] && RETRY.streams[0].typ == ClientStream
    ensures RETRY.streams[0].log == [Call(0, Msg([]))]
  {
    hide Enabled, Apply, FullWire, CallsLeft, CallsOf;
    OpeningLog();
    RetryCalls();
    StreamOpStep(RETRY, 1, 8, RecvOp);
    var s := StreamOp(RETRY, 1, 0, 8, RecvOp);
    assert |s.ops| == 3;
  }

  lemma OpeningLog()
    ensures Born(0, OpenJob(ClientStream, 0)).log == [Call(0, Msg([]))]
  {
  }

  lemma RetryCalls()
    ensures CallsLeft(RETRY, 1) == [HalfClose, Read]
  {
    OpeningLog();
    assert CallsOf([Call(0, Msg([]))], 1) == [] by {
      assert [Call(0, Msg([]))][..0] == [];
    }
  }

  /** A job's next call, and what it then has left. */
  lemma OneCall(s: State, u: JobId, k: JobId)
    requires Inv(s) && s.faults == {} && Busy(s, u, k)
    ensures Enabled(s, DoCall(k)) && Inv(Apply(s, DoCall(k))) && Apply(s, DoCall(k)).faults == {}
    ensures var s' := Apply(s, DoCall(k));
            && s'.jobs == s.jobs && u in s.streams && u in s'.streams
            && s'.streams[u].log == s.streams[u].log + [Call(k, CallsLeft(s, k)[0])]
            && CallsLeft(s', k) == CallsLeft(s, k)[1..]
            && (forall x :: x in s.jobs && x != k && s.jobs[x].uid == u ==> CallsLeft(s', x) == CallsLeft(s, x))
  {
    hide Inv, Enabled, Apply, CallsLeft, MakeCall;
    CallNow(s, u, k);
    StepInv(s, DoCall(k));
    CallsShift(s, k);
    forall x | x in s.jobs && x != k && s.jobs[x].uid == u ensures CallsLeft(MakeCall(s, k), x) == CallsLeft(s, x) {
      CallElse(s, k, x);
    }
  }

  /** Four calls of two jobs, alternating. */
  lemma Alternate(s: State, u: JobId, a: JobId, b: JobId) returns (run: seq<Step>)
    requires Inv(s) && s.faults == {} && Busy(s, u, a) && Busy(s, u, b) && a != b
    requires |CallsLeft(s, a)| == 2 && |CallsLeft(s, b)| == 2
    ensures Runs(s, run) && u in s.streams && u in After(s, run).streams
    ensures var ca, cb := CallsLeft(s, a), CallsLeft(s, b);
            After(s, run).streams[u].log == s.streams[u].log + [Call(a, ca[0]), Call(b, cb[0]), Call(a, ca[1]), Call(b, cb[1])]
  {
    hide Inv, Enabled, Apply, CallsLeft;
    OneCall(s, u, a);
    var s1 := Apply(s, DoCall(a));
    OneCall(s1, u, b);
    var s2 := Apply(s1, DoCall(b));
    OneCall(s2, u, a);
    var s3 := Apply(s2, DoCall(a));
    OneCall(s3, u, b);
    Prepend(s3, DoCall(b), []);
    Prepend(s2, DoCall(a), [DoCall(b)] + []);
    Prepend(s1, DoCall(b), [DoCall(a)] + ([DoCall(b)] + []));
    Prepend(s, DoCall(a), [DoCall(b)] + ([DoCall(a)] + ([DoCall(b)] + [])));
    run := [DoCall(a)] + ([DoCall(b)] + ([DoCall(a)] + ([DoCall(b)] + [])));
  }

  /** A retried `recv_close` interleaves with the one that timed out: the peer sees two half-closes
      and a read that does not come right after one. */
  lemma ReadsApart() returns (run: seq<Step>)
    ensures Runs(INIT, run) && 0 in After(INIT, run).streams && After(INIT, run).streams[0].typ.ClientStream?
    ensures Wires(After(INIT, run).streams[0].log) == [Msg([]), HalfClose, HalfClose, Read, Read]
    ensures !ReadsNext(After(INIT, run).streams[0].log)
  {
    hide Enabled, Apply, Runs, After, INIT, Inv, RETRY, HeldBy, Receiving, Reaches, KicksOn, Busy, CallsLeft, FullWire, Joined;
    var first := ReachesHeld(ClientStream);
    Receives(ClientStream);
    ReachesStep(first, HeldBy(ClientStream), DoStreamOp(1, 0, 8, RecvOp));
    var second := first + [DoStreamOp(1, 0, 8, RecvOp)];
    TimesOut();
    ReachesPlain(second, Receiving(ClientStream), DoOpTimeout(1));
    Retries();
    var a := DoStreamOp(1, 0, 8, RecvOp);
    KickedBusy(RETRY, a, 0);
    var s := Apply(RETRY, a);
    Extend(INIT, second + [DoOpTimeout(1)], a);
    RetryJoined(s);
    var rest := Alternate(s, 0, 1, 2);
    run := ((second + [DoOpTimeout(1)]) + [a]) + rest;
    Concatenate(INIT, (second + [DoOpTimeout(1)]) + [a], rest);
    TypeRun(s, rest, 0);
    var log := After(INIT, run).streams[0].log;
    assert log == [Call(0, Msg([])), Call(1, HalfClose), Call(2, HalfClose), Call(1, Read), Call(2, Read)];
    assert log[4].wire.Read? && log[3].wire.Read?;
  }

  lemma RetryJoined(s: State)
    requires Joined(RETRY, s, 0, RecvOp) && 0 in RETRY.streams && |RETRY.ops| == 2 && Busy(RETRY, 0, 1)
    requires CallsLeft(RETRY, 1) == [HalfClose, Read] && RETRY.streams[0].typ == ClientStream && RETRY.streams[0].log == [Call(0, Msg([]))]
    ensures 0 in s.streams && s.streams[0].log == [Call(0, Msg([]))] && s.streams[0].typ == ClientStream
    ensures Busy(s, 0, 1) && Busy(s, 0, 2) && CallsLeft(s, 1) == [HalfClose, Read] && CallsLeft(s, 2) == [HalfClose, Read]
  {
    hide RETRY, CallsLeft;
  }

  lemma ReachesPlain(run: seq<Step>, t: State, a: Step)
    requires Reaches(run, t) && Enabled(t, a)
    ensures Runs(INIT, run + [a]) && After(INIT, run + [a]) == Apply(t, a) && Inv(Apply(t, a))
  {
    hide Enabled, Apply, INIT, Inv;
    ReachesInv(run, t);
    StepInv(t, a);
    Extend(INIT, run, a);
  }

  // ---------------------------------------------------------------- aborted, finalized, reopened

  const ABORTED := Receiving(BidirectionalStream).(
    sctxs := map[8 := Ctx(BidirectionalStream, Some(0), Some(1), false, Held)], ongoing := {}, ongoingNum := 0,
    cos := map[1 := CoCtx(Dead, false, false, 8)], events := [Handed(0, 0), Event(1, Aborted)])

  lemma Aborts()
    ensures Enabled(Receiving(BidirectionalStream), DoAbort(1)) && Apply(Receiving(BidirectionalStream), DoAbort(1)) == ABORTED
  {
    hide Enabled, Apply, FullWire, Born;
    AbortStep(Receiving(BidirectionalStream), 1);
    var s := Abort(Receiving(BidirectionalStream), 1);
    assert s.sctxs == ABORTED.sctxs;
    assert s.cos == ABORTED.cos;
    assert s.ongoing == ABORTED.ongoing;
  }

  lemma AbortStep(s: State, co: Co)
    requires s.faults == {} && CoOf(s, co).cleanup
    ensures Enabled(s, DoAbort(co)) && Apply(s, DoAbort(co)) == Abort(s, co)
  {
    hide NewStream, NewStreamRefused, StreamOp, CloseConn, FinalizeConn, CloseStream, FinalizeStream, RunJob, MakeCall, CallsLeft, Report,
      WaitCheck, ThreadEvent, DrainOne, OpTimeout, Abort, FrameHolds, FullWire, FreshPtrs, ResultShape, Offers, CoOf;
  }

  lemma FinalizeStep(s: State)
    requires s.faults == {} && 8 in s.handles && 8 !in s.ongoing
    ensures Enabled(s, DoFinalizeStream(8)) && Apply(s, DoFinalizeStream(8)) == FinalizeStream(s, 8)
  {
    hide NewStream, NewStreamRefused, StreamOp, CloseConn, FinalizeConn, CloseStream, FinalizeStream, RunJob, MakeCall, CallsLeft, Report,
      WaitCheck, ThreadEvent, DrainOne, OpTimeout, Abort, FrameHolds, FullWire, FreshPtrs, ResultShape, Offers;
  }

  /** The finalizer of the only stream handle. */
  function Shelved(s: State): State
    requires 8 in s.sctxs
  {
    s.(conns := map[1 := OnConn([], [8])], sctxs := map[8 := s.sctxs[8].(r := None, place := Free)], handles := map[], streamRefs := map[])
  }

  lemma Finalizes(s: State)
    requires s.faults == {} && 8 !in s.ongoing && s.conns == map[1 := OnConn([8], [])] && s.sctxs.Keys == {8} && s.sctxs[8].parent == 1
    requires s.handles == map[8 := true] && s.streamRefs.Keys <= {8}
    ensures Enabled(s, DoFinalizeStream(8)) && Apply(s, DoFinalizeStream(8)) == Shelved(s)
  {
    hide Enabled, Apply, FreeConn;
    FinalizeStep(s);
    var t := FinalizeStream(s, 8);
    assert Remove([8], 8) == [];
    assert t.conns[1].free == [8];
    assert t.conns == Shelved(s).conns;
    assert t.sctxs == Shelved(s).sctxs;
    assert t.handles == Shelved(s).handles;
    assert t.streamRefs == Shelved(s).streamRefs;
  }

  /** The context is taken from the free queue for a new opening by coroutine 2, while an earlier
      job under its id is still running. */
  function Reopening(s: State, typ: StreamType): State {
    s.(conns := map[1 := OnConn([8], [])], sctxs := map[8 := Ctx(typ, Some(0), Some(2), true, Pending)],
       ongoing := s.ongoing + {8}, ongoingNum := s.ongoingNum + 1, cos := s.cos[2 := WaitingCo(|s.ops|, 8)],
       ops := s.ops + [OpenInfo(2, false)], jobs := s.jobs[|s.ops| := OpenJob(typ, |s.ops|)],
       active := true, q := if s.active then s.q else s.q.(phase := Q.Queued))
  }

  predicate Reusable(s: State, k: JobId) {
    && s.faults == {} && s.conns == map[1 := OnConn([], [8])] && s.sctxs.Keys == {8} && s.connRefs == map[1 := 1]
    && s.connHandles == map[1 := true] && CoOf(s, 2).run.Running? && (s.active || s.q.phase == Q.Off)
    && k in s.jobs && k < |s.ops| && s.ops[k].id == 8
  }

  lemma Reopens(s: State, typ: StreamType, k: JobId)
    requires Reusable(s, k) && !typ.Unary?
    ensures Enabled(s, OpenStep(typ, 2, 16)) && Apply(s, OpenStep(typ, 2, 16)) == Reopening(s, typ)
  {
    hide CleanId, Enabled, Apply, NewStream, CoOf, Schedule;
    Unclean(s, k);
    ReopenStep(s, typ);
    assert PickCtx(s.conns[1], 16) == (8, []);
    assert [8] + s.conns[1].opening == [8];
    var ctx := Ctx(typ, Some(0), Some(2), true, Pending);
    NewStreamShape(s, 2, 0, 1, typ, [], 16, 8, [], OnConn([8], []), ctx, OpenInfo(2, false), OpenJob(typ, |s.ops|));
    assert s.conns[1 := OnConn([8], [])] == map[1 := OnConn([8], [])];
    assert s.sctxs[8 := ctx] == map[8 := ctx];
    ScheduleNow(s.(
      conns := s.conns[1 := OnConn([8], [])], ongoingNum := s.ongoingNum + 1, ongoing := s.ongoing + {8},
      sctxs := s.sctxs[8 := ctx], cos := s.cos[2 := WaitingCo(|s.ops|, 8)],
      ops := s.ops + [OpenInfo(2, false)], jobs := s.jobs[|s.ops| := OpenJob(typ, |s.ops|)]));
  }

  lemma ScheduleNow(s: State)
    requires s.active || s.q.phase == Q.Off
    ensures Schedule(s) == s.(active := true, q := if s.active then s.q else s.q.(phase := Q.Queued))
  {
  }

  lemma Unclean(s: State, k: JobId)
    requires k in s.jobs && k < |s.ops| && s.ops[k].id == 8
    ensures !CleanId(s, 8)
  {
    assert Outstanding(s, k);
  }

  lemma ReopenStep(s: State, typ: StreamType)
    requires s.faults == {} && CoOf(s, 2).run.Running? && 1 in s.connHandles && s.connHandles[1] && 16 !in s.sctxs
    ensures Enabled(s, OpenStep(typ, 2, 16)) && Apply(s, OpenStep(typ, 2, 16)) == NewStream(s, 2, 0, 1, typ, [], 16)
  {
    hide NewStream, NewStreamRefused, StreamOp, CloseConn, FinalizeConn, CloseStream, FinalizeStream, RunJob, MakeCall, CallsLeft, Report,
      WaitCheck, ThreadEvent, DrainOne, OpTimeout, Abort, FrameHolds, FullWire, FreshPtrs, ResultShape, Offers, CoOf;
  }

  /** Reopened as a server stream, with the aborted `recv` still at work on the old stream. */
  const REOPENED := Reopening(Shelved(ABORTED), ServerStream)

  lemma ReachesReopened() returns (run: seq<Step>)
    ensures Reaches(run, REOPENED)
  {
    hide Enabled, Apply, Runs, After, HeldBy, Receiving, ABORTED, Reaches, Reopening, Shelved;
    run := ReachesHeld(BidirectionalStream);
    Receives(BidirectionalStream);
    ReachesStep(run, HeldBy(BidirectionalStream), DoStreamOp(1, 0, 8, RecvOp));
    run := run + [DoStreamOp(1, 0, 8, RecvOp)];
    Aborts();
    ReachesStep(run, Receiving(BidirectionalStream), DoAbort(1));
    run := run + [DoAbort(1)];
    AbortedReady();
    Finalizes(ABORTED);
    ReachesStep(run, ABORTED, DoFinalizeStream(8));
    run := run + [DoFinalizeStream(8)];
    ShelvedReady();
    Reopens(Shelved(ABORTED), ServerStream, 1);
    ReachesStep(run, Shelved(ABORTED), OpenStep(ServerStream, 2, 16));
    run := run + [OpenStep(ServerStream, 2, 16)];
  }

  lemma AbortedReady()
    ensures var s := ABORTED;
            && s.faults == {} && 8 !in s.ongoing && s.conns == map[1 := OnConn([8], [])] && s.sctxs.Keys == {8} && s.sctxs[8].parent == 1
            && s.handles == map[8 := true] && s.streamRefs.Keys <= {8}
  {
  }

  lemma ShelvedReady()
    ensures 8 in ABORTED.sctxs && Reusable(Shelved(ABORTED), 1)
  {
  }

  // ---------------------------------------------------------------- two jobs on one stream

  const REHELD := HandedOver(PostedBy(RanOpen(REOPENED, ServerStream, 2), 2), ServerStream, 2, 2, 2)

  lemma SecondDelivery()
    ensures var s := RanOpen(REOPENED, ServerStream, 2);
            && Runs(s, DeliveryRun(2)) && After(s, DeliveryRun(2)) == REHELD && Untimed(DeliveryRun(2))
  {
    hide Runs, After, DeliveryRun, Born, HandedOver, PostedBy;
    Delivers(RanOpen(REOPENED, ServerStream, 2), ServerStream, 2, 2, 2);
  }

  /** The next `recv` on the new stream is kicked off while the aborted one is still running. */
  lemma ReceivesAgain()
    ensures Enabled(REHELD, DoStreamOp(2, 0, 8, RecvOp)) && KicksOff(REHELD, DoStreamOp(2, 0, 8, RecvOp))
    ensures !CleanId(REHELD, 8) && |REHELD.ops| == 3 && 8 in REHELD.streamRefs && REHELD.streamRefs[8] == 2
  {
    hide Enabled, Apply, KicksOff, CleanId, Born;
    assert 1 in REHELD.jobs && REHELD.ops[1].id == 8;
    Unclean(REHELD, 1);
    RecvKicks(REHELD, 2, 8, 2);
  }

  /** A `recv` on an open, idle stream handle starts an operation. */
  lemma RecvKicks(s: State, co: Co, id: Id, u: JobId)
    requires s.faults == {} && CoOf(s, co).run.Running? && id in s.handles && s.handles[id]
    requires id in s.sctxs && s.sctxs[id].r == Some(0) && s.sctxs[id].waitCo.None? && !s.sctxs[id].typ.Unary?
    requires Refers(s, id, u) && u in s.streams && !s.active && s.q.phase == Q.Off
    ensures Enabled(s, DoStreamOp(co, 0, id, RecvOp)) && KicksOff(s, DoStreamOp(co, 0, id, RecvOp))
  {
    hide CleanId, Enabled, Apply;
    StreamOpStep(s, co, id, RecvOp);
    assert StreamOp(s, co, 0, id, RecvOp).ops == s.ops + [OpInfo(id, co, RecvOp, CleanId(s, id))];
  }

  lemma ReachesReheld() returns (run: seq<Step>)
    ensures Reaches(run, REHELD)
  {
    hide Enabled, Apply, Runs, After, REOPENED, REHELD, Reaches, RanOpen, DeliveryRun;
    run := ReachesReopened();
    ReopenedReady();
    Opens(REOPENED, ServerStream, 2);
    ReachesStep(run, REOPENED, DoRunJob(2, None, None));
    run := run + [DoRunJob(2, None, None)];
    SecondDelivery();
    ReachesRun(run, RanOpen(REOPENED, ServerStream, 2), DeliveryRun(2));
    run := run + DeliveryRun(2);
  }

  lemma ReopenedReady()
    ensures REOPENED.faults == {} && 2 in REOPENED.jobs && REOPENED.jobs[2] == OpenJob(ServerStream, 2)
    ensures 1 in REOPENED.jobs && REOPENED.jobs[1] == RecvJob(BidirectionalStream) && 0 in REOPENED.streams && Quiet(REOPENED)
  {
  }

  /** Excluding timeouts alone does not serialise a stream: two jobs end up at work on one. */
  lemma OverlapWithoutTimeouts() returns (run: seq<Step>)
    ensures Runs(INIT, run) && Untimed(run) && Overlap(After(INIT, run), 2, 3)
  {
    hide Enabled, Apply, Inv, Runs, After, Overlap, CleanId, KicksOff, REHELD, INIT;
    ReceivesAgain();
    var a := DoStreamOp(2, 0, 8, RecvOp);
    var first := ReachesReheld();
    ReachesInv(first, REHELD);
    var rest := UncleanOverlaps(REHELD, a);
    ReachesStep(first, REHELD, a);
    ReachesRun(first + [a], Apply(REHELD, a), rest);
    run := (first + [a]) + rest;
  }

  // ---------------------------------------------------------------- a missed reference

  /** The aborted `recv` has read its message and ended. */
  const RECEIVED := REOPENED.(
    streams := map[0 := REOPENED.streams[0].(log := REOPENED.streams[0].log + [Call(1, Read)])],
    jobs := REOPENED.jobs[1 := RecvJob(BidirectionalStream).(ran := Some(Ok(1)))])

  /** Its success handed out the handle of the server stream that is still being opened. */
  const USURPED := HandedOver(PostedBy(RECEIVED, 1), ServerStream, 2, 1, 2)

  lemma ReceiveEnds()
    ensures Enabled(REOPENED, DoCall(1)) && Enabled(MakeCall(REOPENED, 1), DoRunJob(1, None, None))
    ensures Apply(REOPENED, DoCall(1)) == MakeCall(REOPENED, 1)
    ensures Apply(MakeCall(REOPENED, 1), DoRunJob(1, None, None)) == RECEIVED
  {
    hide Enabled, Apply;
    ReceiveCalls();
    CallStepOn(REOPENED, 1);
    var s := MakeCall(REOPENED, 1);
    assert s.streams == RECEIVED.streams;
    assert s == REOPENED.(streams := RECEIVED.streams);
    CallsShift(REOPENED, 1);
    SucceedStep(s, 1);
    RunQuietShape(s, 1, None, None);
  }

  lemma ReceiveCalls()
    ensures 1 in REOPENED.jobs && CallsLeft(REOPENED, 1) == [Read] && REOPENED.jobs[1] == RecvJob(BidirectionalStream)
  {
    assert Born(0, OpenJob(BidirectionalStream, 0)).log == [Call(0, Msg([]))];
    assert CallsOf([Call(0, Msg([]))], 1) == [] by {
      assert [Call(0, Msg([]))][..0] == [];
    }
  }

  lemma CallStepOn(s: State, k: JobId)
    requires s.faults == {} && k in s.jobs && s.jobs[k].ran.None? && CallsLeft(s, k) != []
    ensures Enabled(s, DoCall(k)) && Apply(s, DoCall(k)) == MakeCall(s, k)
  {
    hide NewStream, NewStreamRefused, StreamOp, CloseConn, FinalizeConn, CloseStream, FinalizeStream, RunJob, MakeCall, CallsLeft, Report,
      WaitCheck, ThreadEvent, DrainOne, OpTimeout, Abort, FrameHolds, FullWire, FreshPtrs, ResultShape, Offers;
  }

  lemma ThirdDelivery()
    ensures Runs(RECEIVED, DeliveryRun(1)) && After(RECEIVED, DeliveryRun(1)) == USURPED && Untimed(DeliveryRun(1))
  {
    hide Runs, After, DeliveryRun, Born, HandedOver, PostedBy;
    Delivers(RECEIVED, ServerStream, 2, 1, 2);
  }

  lemma ReachesUsurped() returns (run: seq<Step>)
    ensures Reaches(run, USURPED)
  {
    hide Enabled, Apply, Runs, After, REOPENED, RECEIVED, USURPED, Reaches, DeliveryRun, MakeCall;
    run := ReachesReopened();
    ReceiveCalls();
    ReceiveEnds();
    ReachesStep(run, REOPENED, DoCall(1));
    run := run + [DoCall(1)];
    ReachesStep(run, MakeCall(REOPENED, 1), DoRunJob(1, None, None));
    run := run + [DoRunJob(1, None, None)];
    ThirdDelivery();
    ReachesRun(run, RECEIVED, DeliveryRun(1));
    run := run + DeliveryRun(1);
  }

  lemma UsurpedFields()
    ensures var s := USURPED;
            && s.faults == {} && 8 !in s.ongoing && s.conns == map[1 := OnConn([8], [])] && s.sctxs == map[8 := Ctx(ServerStream, Some(0), None, false, Held)]
            && s.handles == map[8 := true] && s.streamRefs == map[] && CoOf(s, 2).run.Running? && s.connRefs == map[1 := 1]
            && s.connHandles == map[1 := true] && !s.active && s.q == Q.Queue(false, [], Q.Off, {}, {}, 1, 2)
            && 2 in s.jobs && s.jobs[2] == OpenJob(ServerStream, 2) && |s.ops| == 3 && s.ops[2].id == 8 && s.ongoingNum == 0
            && s.heap == map[] && s.posted == [] && s.batch == []
  {
    hide Born;
    assert USURPED.q.armed == {};
  }

  /** A method called on a handle that a foreign success handed out panics in `mustFind`: the stream
      has not been stored yet. */
  lemma ReferenceMissed() returns (run: seq<Step>)
    ensures Runs(INIT, run) && Untimed(run) && MissingRef in After(INIT, run).faults
  {
    hide Enabled, Apply, Runs, After, USURPED, INIT, Reaches;
    var a := DoStreamOp(2, 0, 8, RecvOp);
    MissStep();
    run := ReachesUsurped();
    ReachesStep(run, USURPED, a);
    run := run + [a];
    ReachesOpen(run, Apply(USURPED, a));
  }

  lemma MissStep()
    ensures Enabled(USURPED, DoStreamOp(2, 0, 8, RecvOp)) && MissingRef in Apply(USURPED, DoStreamOp(2, 0, 8, RecvOp)).faults
  {
    hide Enabled, Apply, USURPED, CoOf, StreamOp;
    UsurpedFields();
    StreamOpStep(USURPED, 2, 8, RecvOp);
    Misses(USURPED);
  }

  lemma Misses(s: State)
    requires 8 in s.sctxs && s.sctxs[8].r == Some(0) && s.sctxs[8].waitCo.None? && 8 !in s.streamRefs
    ensures MissingRef in StreamOp(s, 2, 0, 8, RecvOp).faults
  {
  }

  // ---------------------------------------------------------------- a second message on a server stream

  const CROSSING := Reopening(Shelved(USURPED), BidirectionalStream)

  /** Both openings have stored their streams, the server's last. */
  const STORED := RanOpen(RanOpen(CROSSING, BidirectionalStream, 3), ServerStream, 2)

  const CROSSED := HandedOver(PostedBy(STORED, 3), BidirectionalStream, 3, 3, 2)

  lemma Crosses()
    ensures Enabled(USURPED, DoFinalizeStream(8)) && 8 in USURPED.sctxs && Apply(USURPED, DoFinalizeStream(8)) == Shelved(USURPED)
    ensures Enabled(Shelved(USURPED), OpenStep(BidirectionalStream, 2, 16))
    ensures Apply(Shelved(USURPED), OpenStep(BidirectionalStream, 2, 16)) == CROSSING
  {
    hide Enabled, Apply, USURPED;
    UsurpedFields();
    Finalizes(USURPED);
    Reopens(Shelved(USURPED), BidirectionalStream, 2);
  }

  lemma CrossingFields()
    ensures var s := CROSSING;
            && Quiet(s) && 8 in s.ongoing && s.sctxs == map[8 := Ctx(BidirectionalStream, Some(0), Some(2), true, Pending)]
            && 2 in s.cos && s.cos[2] == WaitingCo(3, 8) && |s.ops| == 4 && s.ops[3].op == OpenOp([])
            && 2 in s.jobs && s.jobs[2] == OpenJob(ServerStream, 2) && 3 in s.jobs && s.jobs[3] == OpenJob(BidirectionalStream, 3)
  {
    hide USURPED;
    UsurpedFields();
  }

  lemma Stores()
    ensures Enabled(CROSSING, DoRunJob(3, None, None)) && Apply(CROSSING, DoRunJob(3, None, None)) == RanOpen(CROSSING, BidirectionalStream, 3)
    ensures Enabled(RanOpen(CROSSING, BidirectionalStream, 3), DoRunJob(2, None, None))
    ensures Apply(RanOpen(CROSSING, BidirectionalStream, 3), DoRunJob(2, None, None)) == STORED
  {
    hide Enabled, Apply, CROSSING, Born;
    CrossingFields();
    Opens(CROSSING, BidirectionalStream, 3);
    Opens(RanOpen(CROSSING, BidirectionalStream, 3), ServerStream, 2);
  }

  lemma FourthDelivery()
    ensures Runs(STORED, DeliveryRun(3)) && After(STORED, DeliveryRun(3)) == CROSSED && Untimed(DeliveryRun(3))
  {
    hide Runs, After, DeliveryRun, STORED, HandedOver, PostedBy;
    StoredFields();
    Delivers(STORED, BidirectionalStream, 3, 3, 2);
  }

  lemma StoredFields()
    ensures var s := STORED;
            && Quiet(s) && 8 in s.ongoing && s.sctxs == map[8 := Ctx(BidirectionalStream, Some(0), Some(2), true, Pending)]
            && 2 in s.cos && s.cos[2] == WaitingCo(3, 8) && |s.ops| == 4 && s.ops[3].op == OpenOp([])
            && 3 in s.jobs && s.jobs[3].ran == Some(Ok(3)) && Refers(s, 8, 2) && 2 in s.streams
            && s.streams[2] == Born(2, OpenJob(ServerStream, 2))
  {
    hide Born, CROSSING, RanOpen;
    CrossingFields();
    RanFields(CROSSING, BidirectionalStream, 3);
    RanFields(RanOpen(CROSSING, BidirectionalStream, 3), ServerStream, 2);
  }

  lemma RanFields(s: State, typ: StreamType, j: JobId)
    ensures var t := RanOpen(s, typ, j);
            && t == s.(jobs := t.jobs, streams := t.streams, streamRefs := t.streamRefs)
            && j in t.jobs && t.jobs[j].ran == Some(Ok(j)) && (forall k :: k in s.jobs && k != j ==> k in t.jobs && t.jobs[k] == s.jobs[k])
            && Refers(t, 8, j) && j in t.streams && t.streams[j] == Born(j, OpenJob(typ, j))
  {
    hide Born;
  }

  lemma ReachesCrossed() returns (run: seq<Step>)
    ensures Reaches(run, CROSSED)
  {
    hide Enabled, Apply, Runs, After, USURPED, CROSSING, STORED, CROSSED, Reaches, DeliveryRun, RanOpen, Shelved, Reopening;
    run := ReachesUsurped();
    Crosses();
    ReachesStep(run, USURPED, DoFinalizeStream(8));
    run := run + [DoFinalizeStream(8)];
    ReachesStep(run, Shelved(USURPED), OpenStep(BidirectionalStream, 2, 16));
    run := run + [OpenStep(BidirectionalStream, 2, 16)];
    Stores();
    ReachesStep(run, CROSSING, DoRunJob(3, None, None));
    run := run + [DoRunJob(3, None, None)];
    ReachesStep(run, RanOpen(CROSSING, BidirectionalStream, 3), DoRunJob(2, None, None));
    run := run + [DoRunJob(2, None, None)];
    FourthDelivery();
    ReachesRun(run, STORED, DeliveryRun(3));
    run := run + DeliveryRun(3);
  }

  lemma CrossedFields()
    ensures var s := CROSSED;
            && s.faults == {} && CoOf(s, 2).run.Running? && 8 in s.handles && s.handles[8]
            && 8 in s.sctxs && s.sctxs[8] == Ctx(BidirectionalStream, Some(0), None, false, Held)
            && Refers(s, 8, 2) && 2 in s.streams && s.streams[2] == Born(2, OpenJob(ServerStream, 2)) && !s.active && s.q.phase == Q.Off
  {
    hide Born, STORED;
    StoredFields();
  }

  lemma SendKicks(s: State, m: Bytes)
    requires s.faults == {} && CoOf(s, 2).run.Running? && 8 in s.handles && s.handles[8]
    requires 8 in s.sctxs && s.sctxs[8] == Ctx(BidirectionalStream, Some(0), None, false, Held)
    requires Refers(s, 8, 2) && 2 in s.streams && !s.active && s.q.phase == Q.Off
    ensures Enabled(s, DoStreamOp(2, 0, 8, SendOp(m))) && KicksOn(s, DoStreamOp(2, 0, 8, SendOp(m)), 2)
  {
    hide CleanId, Enabled, Apply;
    StreamOpStep(s, 2, 8, SendOp(m));
    assert StreamOp(s, 2, 0, 8, SendOp(m)).ops == s.ops + [OpInfo(8, 2, SendOp(m), CleanId(s, 8))];
  }

  /** A bidirectional handle that resolves to a server stream: a send reaches the wire after the
      half-close. */
  lemma ServerSentTwice(m: Bytes) returns (run: seq<Step>)
    ensures Runs(INIT, run) && Untimed(run) && 2 in After(INIT, run).streams
    ensures After(INIT, run).streams[2].typ.ServerStream?
    ensures Outbound(Wires(After(INIT, run).streams[2].log)) == [Msg([]), HalfClose, Msg(m)]
  {
    hide Enabled, Apply, Inv, Runs, After, CROSSED, INIT, KicksOn, Busy, CallsLeft, Joined, Reaches, Outbound;
    CrossedFields();
    SendKicks(CROSSED, m);
    var a := DoStreamOp(2, 0, 8, SendOp(m));
    var first := ReachesCrossed();
    ReachesInv(first, CROSSED);
    KickedBusy(CROSSED, a, 2);
    var s, j := Apply(CROSSED, a), |CROSSED.ops|;
    SentJoined(s, m);
    CallNow(s, 2, j);
    ReachesStep(first, CROSSED, a);
    ReachesStep(first + [a], s, DoCall(j));
    run := (first + [a]) + [DoCall(j)];
    ReachesOpen(run, Apply(s, DoCall(j)));
    CalledType(s, j);
    ThreeOut(Apply(s, DoCall(j)).streams[2].log, j, m);
  }

  lemma ReachesOpen(run: seq<Step>, t: State)
    requires Reaches(run, t)
    ensures Runs(INIT, run) && Untimed(run) && After(INIT, run) == t
  {
  }

  lemma CalledType(s: State, j: JobId)
    requires j in s.jobs && CallsLeft(s, j) != [] && 2 in s.streams
    ensures 2 in MakeCall(s, j).streams && MakeCall(s, j).streams[2].typ == s.streams[2].typ
  {
    hide CallsLeft;
  }

  lemma SentJoined(s: State, m: Bytes)
    requires Joined(CROSSED, s, 2, SendOp(m)) && 2 in CROSSED.streams && CROSSED.streams[2] == Born(2, OpenJob(ServerStream, 2))
    ensures 2 in s.streams && s.streams[2].log == [Call(2, Msg([])), Call(2, HalfClose)] && s.streams[2].typ.ServerStream?
    ensures |CROSSED.ops| in s.jobs && Busy(s, 2, |CROSSED.ops|) && CallsLeft(s, |CROSSED.ops|) == [Msg(m)]
  {
    hide CROSSED, CallsLeft, Busy, FullWire;
    ServerOpening();
    SendScript(m);
  }

  lemma ServerOpening()
    ensures var st := Born(2, OpenJob(ServerStream, 2));
            st.log == [Call(2, Msg([])), Call(2, HalfClose)] && st.typ.ServerStream?
  {
  }

  lemma SendScript(m: Bytes)
    ensures FullWire(ServerStream, SendOp(m)) == [Msg(m)]
  {
  }

  lemma ThreeOut(log: seq<Call>, j: JobId, m: Bytes)
    requires log == [Call(2, Msg([])), Call(2, HalfClose)] + [Call(j, Msg(m))]
    ensures Outbound(Wires(log)) == [Msg([]), HalfClose, Msg(m)]
  {
    var w := [Msg([]), HalfClose];
    assert Wires(log) == w + [Msg(m)];
    OutboundConcat(w, [Msg(m)]);
    RequestThenHalfClose(w);
    OneOut(Msg(m));
  }
}
