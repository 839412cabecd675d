/** The worker as one transition system: event loop, Lua handles, engine goroutines,
    the finished-task queue, the background waiter and the posted queue. */
module Machine {
  import opened Base
  import opened Buffers
  import Q = FinishedQueue

  datatype StreamType = Unary | ClientStream | ServerStream | BidirectionalStream

  datatype Op = CallOp(req: Bytes) | OpenOp(req: Bytes) | RecvOp | SendOp(msg: Bytes) | CloseSendOp

  /** Where a stream context lives (history, tied to the queues by the invariants).
      `Pending`, `Held` and `Lost` contexts sit on the parent's `opening` queue: opening
      still awaited, owned by a Lua handle, or left behind by an opening that failed. */
  datatype Place = Free | InFlight | Abandoned | Pending | Held | Lost {
    predicate OnOpening() { Pending? || Held? || Lost? }
  }

  datatype StreamCtx = StreamCtx(
    r: Option<Req>, waitCo: Option<Co>, timedOut: bool, node: bool,
    parent: ConnId, typ: StreamType, place: Place)

  datatype Conn = Conn(engine: Option<Ref>, opening: seq<Id>, free: seq<Id>, freeDelayed: bool)

  datatype CoRun = Running | Waiting(op: JobId) | Dead

  /** The parts of a coroutine context the module uses: the `sleep` timer, the cleanup hook
      and the data pointer shared by both. */
  datatype CoCtx = CoCtx(run: CoRun, timer: bool, cleanup: bool, data: Id)

  const IDLE_CO := CoCtx(Running, false, false, 0)

  /** A goroutine; `uid` is the stream object it captured, named by the job that opened it. */
  datatype Job = Job(id: Id, op: Op, typ: StreamType, uid: JobId, ran: Option<TaskResult>)

  datatype Wire = Msg(m: Bytes) | HalfClose | Read

  /** One call on an underlying stream and the job that made it. */
  datatype Call = Call(job: JobId, wire: Wire)

  /** A `conn.Stream`: the jobs started on it, in Lua call order, and every call made on it. */
  datatype Stream = Stream(id: Id, typ: StreamType, kicks: seq<JobId>, log: seq<Call>)

  /** History of one kick-off; `clean` says that no earlier job under the id was outstanding. */
  datatype OpInfo = OpInfo(id: Id, co: Co, op: Op, clean: bool)

  datatype Cause = Result(origin: TaskResult, val: LuaValue, closed: bool) | Timeout | Aborted

  datatype Event = Event(op: JobId, cause: Cause)

  datatype Fault = UseAfterFree | DoubleFree | MissingRef | DoublePost | NullBuffer

  /** `connHandles` and `handles` are the Lua connection and stream handles not yet finalized;
      the value says whether the handle still holds its pointer. */
  datatype State = State(
    conns: map<ConnId, Conn>, sctxs: map<Id, StreamCtx>, connHandles: map<ConnId, bool>, handles: map<Id, bool>,
    ongoing: set<Id>, ongoingNum: int, cos: map<Co, CoCtx>,
    jobs: map<JobId, Job>, connRefs: map<Ref, ConnId>, streamRefs: map<Id, JobId>, streams: map<JobId, Stream>,
    q: Q.Queue, active: bool, batch: seq<CRes>, posted: seq<CRes>, heap: Heap,
    reported: seq<TaskResult>, processed: seq<TaskResult>, events: seq<Event>, ops: seq<OpInfo>,
    faults: set<Fault>)

  const INIT := State(
    map[], map[], map[], map[], {}, 0, map[], map[], map[], map[], map[],
    Q.EMPTY, false, [], [], map[], [], [], [], [], {})

  // ---------------------------------------------------------------- derived views

  function CoOf(s: State, co: Co): CoCtx {
    if co in s.cos then s.cos[co] else IDLE_CO
  }

  function Origins(xs: seq<CRes>): (r: seq<TaskResult>)
    ensures |r| == |xs|
    ensures forall i :: 0 <= i < |xs| ==> r[i] == xs[i].origin
  {
    seq(|xs|, i requires 0 <= i < |xs| => xs[i].origin)
  }

  /** Reported by a goroutine and not yet handled by the posted-event loop, oldest first. */
  function Transit(s: State): seq<TaskResult> {
    Origins(s.posted) + Origins(s.batch) + s.q.tasks
  }

  /** Job `j` is still running or its result has not been handled. */
  predicate Unsettled(jobs: map<JobId, Job>, transit: seq<TaskResult>, j: JobId) {
    j in jobs || exists i :: 0 <= i < |transit| && transit[i].job == j
  }

  predicate Outstanding(s: State, j: JobId) {
    Unsettled(s.jobs, Transit(s), j)
  }

  /** No job started under this id is still unreported or in transit. */
  predicate CleanId(s: State, id: Id) {
    forall j :: 0 <= j < |s.ops| && s.ops[j].id == id ==> !Outstanding(s, j)
  }

  // ---------------------------------------------------------------- C functions

  /** The process dies here; nothing else is claimed about what follows. */
  function Crash(s: State, f: Fault): State {
    s.(faults := s.faults + {f})
  }

  /** `ngx_thread_task_post`: refused when the thread task is already active. */
  function Post(s: State): State {
    if s.active || s.q.phase != Q.Off then Crash(s, DoublePost)
    else s.(active := true, q := s.q.(phase := Q.Queued))
  }

  function Schedule(s: State): State {
    if s.active then s else Post(s)
  }

  /** `kick_off_task` on a context with contents `ctx`, followed by the start of the goroutine. */
  function KickOff(s: State, co: Co, id: Id, ctx: StreamCtx, info: OpInfo, job: Job): State {
    Schedule(s.(
      ongoingNum := s.ongoingNum + 1,
      ongoing := s.ongoing + {id},
      sctxs := s.sctxs[id := ctx.(node := true, timedOut := false, waitCo := Some(co))],
      cos := s.cos[co := CoCtx(Waiting(|s.ops|), true, true, id)],
      ops := s.ops + [info],
      jobs := s.jobs[|s.ops| := job]))
  }

  /** The context `new_stream` works on: the last one on the free queue, or a newly allocated one. */
  function PickCtx(conn: Conn, alloc: Id): (Id, seq<Id>) {
    if conn.free != [] then (conn.free[|conn.free| - 1], conn.free[..|conn.free| - 1])
    else (alloc, [])
  }

  function NewStream(s: State, co: Co, r: Req, c: ConnId, typ: StreamType, req: Bytes, alloc: Id): State {
    if c !in s.conns then Crash(s, UseAfterFree)
    else
      var conn := s.conns[c];
      if conn.engine.None? then s
      else if conn.engine.value !in s.connRefs then Crash(s, MissingRef)
      else
        var (id, rest) := PickCtx(conn, alloc);
        if conn.free != [] && id !in s.sctxs then Crash(s, UseAfterFree)
        else
          var ctx := StreamCtx(Some(r), None, false, false, c, typ, if typ.Unary? then InFlight else Pending);
          var conn' := conn.(free := rest, opening := if typ.Unary? then conn.opening else [id] + conn.opening);
          var op := if typ.Unary? then CallOp(req) else OpenOp(req);
          KickOff(s.(conns := s.conns[c := conn']), co, id, ctx,
                  OpInfo(id, co, op, CleanId(s, id)), Job(id, op, typ, |s.ops|, None))
  }

  /** `new_stream` when `kick_off_task` refuses the phase: the context goes to the free queue. */
  function NewStreamRefused(s: State, r: Req, c: ConnId, typ: StreamType, alloc: Id): State {
    if c !in s.conns then Crash(s, UseAfterFree)
    else
      var conn := s.conns[c];
      if conn.engine.None? then s
      else
        var (id, rest) := PickCtx(conn, alloc);
        if conn.free != [] && id !in s.sctxs then Crash(s, UseAfterFree)
        else
          var ctx := StreamCtx(Some(r), None, false, false, c, typ, Free);
          s.(conns := s.conns[c := conn.(free := [id] + rest)], sctxs := s.sctxs[id := ctx])
  }

  /** `check_stream_status`: closed, foreign request or busy. */
  predicate StreamReady(ctx: StreamCtx, r: Req) {
    ctx.r == Some(r) && ctx.waitCo.None?
  }

  function StreamOp(s: State, co: Co, r: Req, id: Id, op: Op): State {
    if id !in s.sctxs then Crash(s, UseAfterFree)
    else if !StreamReady(s.sctxs[id], r) then s
    else if id !in s.streamRefs || s.streamRefs[id] !in s.streams then Crash(s, MissingRef)
    else
      var u := s.streamRefs[id];
      var st := s.streams[u];
      KickOff(s.(streams := s.streams[u := st.(kicks := st.kicks + [|s.ops|])]), co, id, s.sctxs[id],
              OpInfo(id, co, op, CleanId(s, id)), Job(id, op, st.typ, u, None))
  }

  /** `ngx_grpc_cli_connect`: a new connection, its engine reference and its Lua handle. */
  function Connect(s: State, c: ConnId, e: Ref): State {
    s.(conns := s.conns[c := Conn(Some(e), [], [], false)], connRefs := s.connRefs[e := c],
       connHandles := s.connHandles[c := true])
  }

  predicate Releasable(sctxs: map<Id, StreamCtx>, ids: seq<Id>) {
    NoDup(ids) && forall i :: 0 <= i < |ids| ==> ids[i] in sctxs
  }

  /** `free_conn`: every context on the free queue, then the connection. */
  function FreeConn(s: State, c: ConnId): State
    requires c in s.conns
  {
    if !Releasable(s.sctxs, s.conns[c].free) then Crash(s, DoubleFree)
    else s.(sctxs := s.sctxs - Elements(s.conns[c].free), conns := s.conns - {c})
  }

  /** The engine connection is closed and forgotten at most once. */
  function Unlink(s: State, c: ConnId): State
    requires c in s.conns
  {
    var conn := s.conns[c];
    s.(connRefs := if conn.engine.Some? then s.connRefs - {conn.engine.value} else s.connRefs,
       conns := s.conns[c := conn.(engine := None)])
  }

  /** Lua `Conn:close`: the handle is emptied before `ngx_grpc_cli_close`. */
  function CloseConn(s: State, c: ConnId): State {
    if c !in s.conns then Crash(s, UseAfterFree)
    else Unlink(s.(connHandles := s.connHandles[c := false]), c)
  }

  /** The finalizer of a connection handle. */
  function FinalizeConn(s: State, c: ConnId): State {
    if c !in s.conns then Crash(s, UseAfterFree)
    else
      var s1 := Unlink(s.(connHandles := s.connHandles - {c}), c);
      if s1.conns[c].opening != [] then s1.(conns := s1.conns[c := s1.conns[c].(freeDelayed := true)])
      else FreeConn(s1, c)
  }

  /** Lua `stream_close`: the handle is emptied before the engine forgets the stream. */
  function CloseStream(s: State, id: Id): State {
    s.(handles := s.handles[id := false], streamRefs := s.streamRefs - {id})
  }

  function FinalizeStream(s: State, id: Id): State {
    if id !in s.sctxs || s.sctxs[id].parent !in s.conns then Crash(s, UseAfterFree)
    else
      var c := s.sctxs[id].parent;
      var conn := s.conns[c];
      var conn' := conn.(opening := Remove(conn.opening, id), free := [id] + conn.free);
      var s1 := s.(handles := s.handles - {id}, streamRefs := s.streamRefs - {id},
                   sctxs := s.sctxs[id := s.sctxs[id].(r := None, place := Free)],
                   conns := s.conns[c := conn']);
      if conn'.freeDelayed && conn'.opening == [] then FreeConn(s1, c) else s1
  }

  // ---------------------------------------------------------------- resuming

  /** Where a context goes when its operation ends in a resume: a unary one back to the free
      queue; a successful opening gets a Lua handle, a failed one is left on `opening`. */
  function PlaceAfter(ctx: StreamCtx, op: Op, ok: bool): Place {
    if ctx.typ.Unary? then Free
    else if op.OpenOp? then (if ok then Held else Lost)
    else ctx.place
  }

  function ConnsAfter(conns: map<ConnId, Conn>, id: Id, ctx: StreamCtx): map<ConnId, Conn>
    requires ctx.typ.Unary? ==> ctx.parent in conns
  {
    if !ctx.typ.Unary? then conns
    else conns[ctx.parent := conns[ctx.parent].(free := [id] + conns[ctx.parent].free)]
  }

  predicate Succeeded(cause: Cause) {
    cause.Result? && cause.val.LuaValue? && cause.val.ok
  }

  /** `to_resume`, the tail of `put_res`, and what the Lua library does right after the yield:
      a new stream handle, or the close that ends a successful `recv_close`. */
  function Resume(s: State, id: Id, cause: Cause): State
    requires id in s.sctxs
  {
    var ctx := s.sctxs[id];
    if ctx.waitCo.None? || !CoOf(s, ctx.waitCo.value).run.Waiting? || CoOf(s, ctx.waitCo.value).run.op >= |s.ops|
    then Crash(s, UseAfterFree)
    else if ctx.typ.Unary? && ctx.parent !in s.conns then Crash(s, UseAfterFree)
    else
      var co := ctx.waitCo.value;
      var j := CoOf(s, co).run.op;
      var op := s.ops[j].op;
      var handed := !ctx.typ.Unary? && op.OpenOp? && Succeeded(cause);
      var closes := cause.Result? && cause.closed && id in s.handles && s.handles[id];
      s.(ongoingNum := if ctx.node then s.ongoingNum - 1 else s.ongoingNum,
         ongoing := if ctx.node then s.ongoing - {id} else s.ongoing,
         sctxs := s.sctxs[id := ctx.(node := false, waitCo := None, place := PlaceAfter(ctx, op, Succeeded(cause)))],
         conns := ConnsAfter(s.conns, id, ctx),
         cos := s.cos[co := CoOf(s, co).(run := Running)],
         events := s.events + [Event(j, cause)],
         handles := if handed then s.handles[id := true] else if closes then s.handles[id := false] else s.handles,
         streamRefs := if closes then s.streamRefs - {id} else s.streamRefs)
  }

  /** Deleting the timer and clearing the hook of the coroutine a context waits for. */
  function Disarm(s: State, co: Co): State {
    s.(cos := s.cos[co := CoOf(s, co).(timer := false, cleanup := false)])
  }

  function FreeBuf(s: State, word: nat): State {
    var b := Base8(word);
    if b == 0 then s
    else if b !in s.heap then Crash(s, DoubleFree)
    else s.(heap := s.heap - {b})
  }

  predicate Readable(s: State, x: CRes) {
    x.word != 0 && (TypeOf(x.word) == TYPE_OK_NOT_RES || (Base8(x.word) in s.heap && x.size <= |s.heap[Base8(x.word)]|))
  }

  /** Does this resume end a successful `recv_close`? `decodes` is the protobuf decoder's verdict. */
  predicate ClosesOn(s: State, id: Id, val: LuaValue, decodes: bool)
    requires id in s.sctxs
  {
    var ctx := s.sctxs[id];
    && ctx.typ.ClientStream? && decodes && val.LuaValue? && val.ok
    && ctx.waitCo.Some? && CoOf(s, ctx.waitCo.value).run.Waiting? && CoOf(s, ctx.waitCo.value).run.op < |s.ops|
    && s.ops[CoOf(s, ctx.waitCo.value).run.op].op.RecvOp?
  }

  /** The branch of the posted-event loop for a record whose id is registered. */
  function Deliver(s: State, x: CRes, decodes: bool): State {
    if x.id !in s.sctxs || s.sctxs[x.id].waitCo.None? then Crash(s, UseAfterFree)
    else
      var s1 := Disarm(s, s.sctxs[x.id].waitCo.value);
      if s1.sctxs[x.id].timedOut then Resume(s1, x.id, Result(x.origin, TimedOut, false))
      else if !Readable(s1, x) then Crash(s, NullBuffer)
      else
        var val := Unpack(s1.heap, x);
        Resume(FreeBuf(s1, x.word), x.id, Result(x.origin, val, ClosesOn(s1, x.id, val, decodes)))
  }

  /** One iteration of the posted-event loop. */
  function DrainOne(s: State, decodes: bool): State
    requires s.posted != []
  {
    var x := s.posted[0];
    var s1 := s.(posted := s.posted[1..], processed := s.processed + [x.origin]);
    if x.id !in s.ongoing then FreeBuf(s1, x.word) else Deliver(s1, x, decodes)
  }

  /** `timeout_handler`; nginx has cleared `timer_set` already. */
  function OpTimeout(s: State, co: Co): State {
    var id := CoOf(s, co).data;
    if id !in s.sctxs || s.sctxs[id].waitCo.None? then Crash(s, UseAfterFree)
    else
      var s1 := s.(cos := s.cos[co := CoOf(s, co).(timer := false)],
                   sctxs := s.sctxs[id := s.sctxs[id].(timedOut := true)]);
      var w := s.sctxs[id].waitCo.value;
      Resume(s1.(cos := s1.cos[w := CoOf(s1, w).(cleanup := false)]), id, Timeout)
  }

  /** The cleanup hook of an aborted coroutine; ngx_lua clears the hook as it runs it. */
  function Abort(s: State, co: Co): State {
    var id := CoOf(s, co).data;
    if id !in s.sctxs || !CoOf(s, co).run.Waiting? then Crash(s, UseAfterFree)
    else
      var j := CoOf(s, co).run.op;
      var ctx := s.sctxs[id];
      var place := if ctx.place.InFlight? then Abandoned else if ctx.place.Pending? then Lost else ctx.place;
      s.(ongoingNum := if ctx.node then s.ongoingNum - 1 else s.ongoingNum,
         ongoing := if ctx.node then s.ongoing - {id} else s.ongoing,
         sctxs := s.sctxs[id := ctx.(node := false, place := place)],
         cos := s.cos[co := CoCtx(Dead, false, false, id)],
         events := s.events + [Event(j, Aborted)])
  }

  // ---------------------------------------------------------------- engine

  /** The calls a goroutine makes on the underlying stream when nothing fails. */
  function FullWire(typ: StreamType, op: Op): seq<Wire> {
    match op
    case CallOp(_) => []
    case OpenOp(req) => if typ.ServerStream? then [Msg(req), HalfClose] else [Msg(req)]
    case RecvOp => if typ.ClientStream? then [HalfClose, Read] else [Read]
    case SendOp(m) => [Msg(m)]
    case CloseSendOp => [HalfClose]
  }

  /** Operations on a stream that is already open. */
  predicate StreamJob(op: Op) { op.RecvOp? || op.SendOp? || op.CloseSendOp? }

  /** The calls of job `j` in a log, in order. */
  function CallsOf(log: seq<Call>, j: JobId): seq<Wire> {
    if log == [] then []
    else CallsOf(log[..|log| - 1], j) + (if log[|log| - 1].job == j then [log[|log| - 1].wire] else [])
  }

  function Tagged(j: JobId, wire: seq<Wire>): (r: seq<Call>)
    ensures |r| == |wire|
    ensures forall i :: 0 <= i < |wire| ==> r[i] == Call(j, wire[i])
  {
    seq(|wire|, i requires 0 <= i < |wire| => Call(j, wire[i]))
  }

  /** The calls a stream job still has to make. */
  function CallsLeft(s: State, j: JobId): seq<Wire>
    requires j in s.jobs
  {
    var job := s.jobs[j];
    if job.uid !in s.streams || !StreamJob(job.op) then []
    else
      var n := |CallsOf(s.streams[job.uid].log, j)|;
      if n <= |FullWire(job.typ, job.op)| then FullWire(job.typ, job.op)[n..] else []
  }

  /** One call of a goroutine on its stream; other goroutines may call in between. */
  function MakeCall(s: State, j: JobId): State
    requires j in s.jobs && CallsLeft(s, j) != []
  {
    var u := s.jobs[j].uid;
    var st := s.streams[u];
    s.(streams := s.streams[u := st.(log := st.log + [Call(j, CallsLeft(s, j)[0])])])
  }

  /** Only calls and receives produce a result, and never together with an error. */
  predicate ResultShape(op: Op, result: Option<Bytes>, err: Option<Bytes>) {
    result.Some? ==> err.None? && (op.CallOp? || op.RecvOp?)
  }

  /** The end of a goroutine's remote work. A successful opening, whose stream nobody else could
      reach before, is stored in `StreamRef` before it is reported. */
  function RunJob(s: State, j: JobId, result: Option<Bytes>, err: Option<Bytes>): State
    requires j in s.jobs
  {
    var job := s.jobs[j];
    var s1 := s.(jobs := s.jobs[j := job.(ran := Some(TaskResult(job.id, result, err, j)))]);
    if job.op.OpenOp? && err.None? then
      s1.(streams := s1.streams[j := Stream(job.id, job.typ, [j], Tagged(j, FullWire(job.typ, job.op)))],
          streamRefs := s1.streamRefs[job.id := j])
    else s1
  }

  function Report(s: State, j: JobId): State
    requires j in s.jobs && s.jobs[j].ran.Some?
  {
    var t := s.jobs[j].ran.value;
    s.(jobs := s.jobs - {j}, q := Q.Done(s.q, t), reported := s.reported + [t])
  }

  // ---------------------------------------------------------------- background waiter

  function WaitCheck(s: State, ptrs: seq<Ptr>): State
    requires |ptrs| == |s.q.tasks|
  {
    if !s.q.done then s.(q := Q.WaitCheck(s.q))
    else s.(q := Q.WaitCheck(s.q), batch := PackAll(s.q.tasks, ptrs), heap := StoreAll(s.heap, s.q.tasks, ptrs))
  }

  /** `thread_event_handler`; nginx has cleared `active` already. */
  function ThreadEvent(s: State): State {
    var s1 := s.(active := false, q := s.q.(phase := Q.Off), posted := s.posted + s.batch, batch := []);
    if s.ongoingNum <= |s.batch| then s1 else Post(s1)
  }

  // ---------------------------------------------------------------- steps and runs

  datatype Step =
    | DoConnect(c: ConnId, e: Ref)
    | DoNewStream(co: Co, r: Req, c: ConnId, typ: StreamType, req: Bytes, alloc: Id)
    | DoNewStreamRefused(co: Co, r: Req, c: ConnId, typ: StreamType, alloc: Id)
    | DoStreamOp(co: Co, r: Req, id: Id, op: Op)
    | DoCloseConn(c: ConnId)
    | DoFinalizeConn(c: ConnId)
    | DoCloseStream(id: Id)
    | DoFinalizeStream(id: Id)
    | DoCall(j: JobId)
    | DoRunJob(j: JobId, result: Option<Bytes>, err: Option<Bytes>)
    | DoReport(j: JobId)
    | DoTimerExpire(t: nat)
    | DoTimerFire(t: nat)
    | DoWaitStart
    | DoWaitCheck(ptrs: seq<Ptr>)
    | DoThreadEvent
    | DoDrainOne(decodes: bool)
    | DoOpTimeout(co: Co)
    | DoAbort(co: Co)

  /** The Lua methods each kind of stream offers. */
  predicate Offers(typ: StreamType, op: Op) {
    match typ
    case Unary => false
    case ServerStream => op.RecvOp?
    case ClientStream => op.SendOp? || op.RecvOp?
    case BidirectionalStream => op.SendOp? || op.RecvOp? || op.CloseSendOp?
  }

  /** A live frame holds a connection handle while its `call` or `new_stream` waits. */
  predicate FrameHolds(s: State, c: ConnId) {
    exists co :: co in s.cos && s.cos[co].run.Waiting? && s.cos[co].run.op < |s.ops|
      && (s.ops[s.cos[co].run.op].op.CallOp? || s.ops[s.cos[co].run.op].op.OpenOp?)
      && s.cos[co].data in s.sctxs && s.sctxs[s.cos[co].data].parent == c
  }

  /** What nginx, ngx_lua, malloc and the Lua library guarantee about each step. */
  predicate Enabled(s: State, a: Step) {
    s.faults == {} &&
    match a
    case DoConnect(c, e) => c !in s.conns && e !in s.connRefs
    case DoNewStream(co, r, c, typ, req, alloc) =>
      CoOf(s, co).run.Running? && c in s.connHandles && s.connHandles[c] && alloc !in s.sctxs
    case DoNewStreamRefused(co, r, c, typ, alloc) =>
      CoOf(s, co).run.Running? && c in s.connHandles && s.connHandles[c] && alloc !in s.sctxs
    case DoStreamOp(co, r, id, op) =>
      CoOf(s, co).run.Running? && id in s.handles && s.handles[id] && (id in s.sctxs ==> Offers(s.sctxs[id].typ, op))
    case DoCloseConn(c) => c in s.connHandles && s.connHandles[c]
    case DoFinalizeConn(c) => c in s.connHandles && !FrameHolds(s, c)
    case DoCloseStream(id) => id in s.handles && s.handles[id]
    case DoFinalizeStream(id) => id in s.handles && id !in s.ongoing
    case DoCall(j) => j in s.jobs && s.jobs[j].ran.None? && CallsLeft(s, j) != []
    case DoRunJob(j, result, err) =>
      && j in s.jobs && s.jobs[j].ran.None? && ResultShape(s.jobs[j].op, result, err)
      && (err.None? ==> CallsLeft(s, j) == [])
    case DoReport(j) => j in s.jobs && s.jobs[j].ran.Some?
    case DoTimerExpire(t) => t in s.q.armed
    case DoTimerFire(t) => t in s.q.firing
    case DoWaitStart => s.q.phase == Q.Queued
    case DoWaitCheck(ptrs) =>
      (s.q.phase == Q.Entering || s.q.phase == Q.Woken) && |ptrs| == |s.q.tasks| && FreshPtrs(s.heap, ptrs)
    case DoThreadEvent => s.q.phase == Q.Finished
    case DoDrainOne(_) => s.posted != []
    case DoOpTimeout(co) => CoOf(s, co).timer
    case DoAbort(co) => CoOf(s, co).cleanup
  }

  function Apply(s: State, a: Step): State
    requires Enabled(s, a)
  {
    match a
    case DoConnect(c, e) =>
      Connect(s, c, e)
    case DoNewStream(co, r, c, typ, req, alloc) => NewStream(s, co, r, c, typ, req, alloc)
    case DoNewStreamRefused(co, r, c, typ, alloc) => NewStreamRefused(s, r, c, typ, alloc)
    case DoStreamOp(co, r, id, op) => StreamOp(s, co, r, id, op)
    case DoCloseConn(c) => CloseConn(s, c)
    case DoFinalizeConn(c) => FinalizeConn(s, c)
    case DoCloseStream(id) => CloseStream(s, id)
    case DoFinalizeStream(id) => FinalizeStream(s, id)
    case DoCall(j) => MakeCall(s, j)
    case DoRunJob(j, result, err) => RunJob(s, j, result, err)
    case DoReport(j) => Report(s, j)
    case DoTimerExpire(t) => s.(q := Q.TimerExpire(s.q, t))
    case DoTimerFire(t) => s.(q := Q.TimerFire(s.q, t))
    case DoWaitStart => s.(q := Q.WaitStart(s.q))
    case DoWaitCheck(ptrs) => WaitCheck(s, ptrs)
    case DoThreadEvent => ThreadEvent(s)
    case DoDrainOne(decodes) => DrainOne(s, decodes)
    case DoOpTimeout(co) => OpTimeout(s, co)
    case DoAbort(co) => Abort(s, co)
  }

  /** `run` is a list of steps each enabled where it is taken. */
  predicate Runs(s: State, run: seq<Step>)
    decreases |run|
  {
    run == [] || (Enabled(s, run[0]) && Runs(Apply(s, run[0]), run[1..]))
  }

  function After(s: State, run: seq<Step>): State
    requires Runs(s, run)
    decreases |run|
  {
    if run == [] then s else After(Apply(s, run[0]), run[1..])
  }
}
