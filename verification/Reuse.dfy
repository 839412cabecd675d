/** Free contexts are a queue: they are reused in the order they were released. */
module Reuse {
  import opened Base
  import opened Buffers
  import opened Machine
  import opened Invariants
  import opened KickOffs
  import opened Destruction
  import opened Completion
  import opened Draining
  import opened Engine
  import opened Frames
  import opened Reachability
  import opened Undisturbed
  import opened Attribution
  import opened Provenance
  import opened Effects
  import Q = FinishedQueue

  /** `call` or `new_stream` finds a free context on `c`. */
  predicate Recycles(s: State, a: Step, c: ConnId) {
    (a.DoNewStream? || a.DoNewStreamRefused?) && a.c == c && c in s.conns && s.conns[c].free != []
  }

  /** The free context a step takes: the one its operation is started under, or, if the start is
      refused, the one that is put back. */
  function Taken(s: State, s': State, a: Step, c: ConnId): seq<Id> {
    if !Recycles(s, a, c) then []
    else if a.DoNewStream? then (if |s.ops| < |s'.ops| then [s'.ops[|s.ops|].id] else [])
    else if c in s'.conns && s'.conns[c].free != [] then [s'.conns[c].free[0]] else []
  }

  /** A registered unary call on `c`, whose context is released when it ends. */
  predicate CallOn(s: State, id: Id, c: ConnId) {
    id in s.ongoing && id in s.sctxs && s.sctxs[id].typ.Unary? && s.sctxs[id].parent == c
  }

  /** The context a step releases to the free queue of `c`: a finalized stream's, that of a call which
      was answered or timed out, or that of a refused start. */
  function Put(s: State, s': State, a: Step, c: ConnId): seq<Id> {
    match a
    case DoFinalizeStream(id) => if id in s.sctxs && s.sctxs[id].parent == c then [id] else []
    case DoDrainOne(_) => if s.posted != [] && CallOn(s, s.posted[0].id, c) then [s.posted[0].id] else []
    case DoOpTimeout(co) => if CallOn(s, CoOf(s, co).data, c) then [CoOf(s, co).data] else []
    case DoNewStreamRefused(_, _, x, _, _) => if x == c && c in s'.conns && s'.conns[c].free != [] then [s'.conns[c].free[0]] else []
    case _ => []
  }

  /** What a step puts at the head and takes from the tail accounts for the queue. */
  predicate Balanced(s: State, s': State, a: Step, c: ConnId) {
    c in s.conns && c in s'.conns ==> Put(s, s', a, c) + s.conns[c].free == s'.conns[c].free + Taken(s, s', a, c)
  }

  /** Steps that neither release nor take a context. */
  predicate Idles(a: Step) {
    !a.DoNewStream? && !a.DoNewStreamRefused? && !a.DoFinalizeStream? && !a.DoDrainOne? && !a.DoOpTimeout?
  }

  lemma IdleBalance(s: State, s': State, a: Step, c: ConnId)
    requires Idles(a) && SameFree(s, s', c)
    ensures Balanced(s, s', a, c)
  {
  }

  /** The free queue of `c` is left alone. */
  predicate SameFree(s: State, s': State, c: ConnId) {
    c in s.conns && c in s'.conns ==> s'.conns[c].free == s.conns[c].free
  }

  lemma SameConns(s: State, s': State, c: ConnId)
    requires s'.conns == s.conns
    ensures SameFree(s, s', c)
  {
  }

  lemma ConnectFree(s: State, x: ConnId, e: Ref, c: ConnId)
    requires x !in s.conns
    ensures SameFree(s, Connect(s, x, e), c)
  {
  }

  lemma CloseFree(s: State, x: ConnId, c: ConnId)
    requires Inv(s) && x in s.connHandles
    ensures SameFree(s, CloseConn(s, x), c)
  {
    hide Inv, CloseConn;
    HandleAllocated(s, x);
    CloseConnEffect(s, x);
  }

  lemma FinalizeFree(s: State, x: ConnId, c: ConnId)
    requires Inv(s) && x in s.connHandles
    ensures SameFree(s, FinalizeConn(s, x), c)
  {
    hide Inv, FinalizeConn, FewerCtxs, SameSlots;
    HandleAllocated(s, x);
    FinalizeConnEffect(s, x);
  }

  lemma StreamOpFree(s: State, co: Co, r: Req, id: Id, op: Op, c: ConnId)
    requires Inv(s) && CoOf(s, co).run.Running? && id in s.handles
    ensures SameFree(s, StreamOp(s, co, r, id, op), c)
  {
    hide Inv, StreamOp, SameFree, Launch, Admitted, KickedOn;
    if Admitted(s, r, id) {
      var streams, ctx, info, job := StreamOpLaunch(s, co, r, id, op);
      LaunchLib(s, StreamOp(s, co, r, id, op), s.conns, streams, co, id, ctx, info, job);
    } else {
      StreamOpRefused(s, co, r, id, op);
    }
    SameConns(s, StreamOp(s, co, r, id, op), c);
  }

  lemma IdleQueue(s: State, a: Step, c: ConnId)
    requires Inv(s) && Enabled(s, a) && Idles(a)
    ensures SameFree(s, Apply(s, a), c)
  {
    hide Inv, NewStream, NewStreamRefused, StreamOp, CloseConn, FinalizeConn, FinalizeStream, Connect, SameFree, Forsaken, CoOf,
      RunJob, MakeCall, CallsLeft, Q.Done, Q.WaitCheck, WaitCheck, ThreadEvent, DrainOne, OpTimeout, Abort, Transit,
      FrameHolds, FullWire, FreshPtrs, Q.TimerExpire, Q.TimerFire, Q.WaitStart, ResultShape, Offers;
    var s' := Apply(s, a);
    match a {
      case DoConnect(x, e) => ConnectFree(s, x, e, c);
      case DoCloseConn(x) => CloseFree(s, x, c);
      case DoFinalizeConn(x) => FinalizeFree(s, x, c);
      case DoStreamOp(co, r, id, op) => StreamOpFree(s, co, r, id, op, c);
      case DoCall(j) =>
        MakeCallFrame(s, j);
        SameConns(s, s', c);
      case DoRunJob(j, result, err) =>
        RunJobFrame(s, j, result, err);
        SameConns(s, s', c);
      case DoAbort(co) =>
        AbortForsakes(s, co);
        ForsakenConns(s, s', CoOf(s, co).data);
        SameConns(s, s', c);
      case _ =>
        if Moving(a) {
          InvWaiter(s);
          MovingFrame(s, a);
        }
        SameConns(s, s', c);
    }
  }

  lemma ForsakenConns(s: State, s': State, id: Id)
    requires Forsaken(s, s', id)
    ensures s'.conns == s.conns
  {
  }

  /** An admitted `call` or `new_stream` on a connection with free contexts starts under the one that
      was released first and leaves the others in order; without free contexts, under a new one. */
  lemma OldestTaken(s: State, a: Step)
    requires Inv(s) && Enabled(s, a) && a.DoNewStream?
    ensures a.c in s.conns && a.c in Apply(s, a).conns
    ensures |Apply(s, a).ops| == |s.ops| + 1
    ensures var f, x := s.conns[a.c].free, Apply(s, a).ops[|s.ops|].id;
            if f == [] then x == a.alloc && Apply(s, a).conns[a.c].free == []
            else x == f[|f| - 1] && Apply(s, a).conns[a.c].free == f[..|f| - 1]
    ensures forall c :: c in s.conns && c != a.c ==> c in Apply(s, a).conns && Apply(s, a).conns[c] == s.conns[c]
  {
    hide Inv, NewStreamRefused, CloseConn, FinalizeConn, CloseStream, FinalizeStream, StreamOp, NewStream, Launch, FrameHolds, FullWire,
      RunJob, MakeCall, CallsLeft, Report, WaitCheck, ThreadEvent, DrainOne, OpTimeout, Abort, CleanId, Transit, Offers, FreshPtrs, ResultShape;
    var conns, id, ctx, info, job := NewStreamLaunch(s, a.co, a.r, a.c, a.typ, a.req, a.alloc);
    LaunchLib(s, Apply(s, a), conns, s.streams, a.co, id, ctx, info, job);
    LaunchedOps(s, Apply(s, a), conns, s.streams, a.co, id, ctx, info, job);
    LaunchedId(s, Apply(s, a), conns, s.streams, a.co, id, ctx, info, job);
  }

  lemma LaunchedId(s: State, s': State, conns: map<ConnId, Conn>, streams: map<JobId, Stream>,
                   co: Co, id: Id, ctx: StreamCtx, info: OpInfo, job: Job)
    requires Launch(s, s', conns, streams, co, id, ctx, info, job)
    ensures info.id == id
  {
    hide CleanId;
  }

  lemma NewStreamBalance(s: State, a: Step, c: ConnId)
    requires Inv(s) && Enabled(s, a) && a.DoNewStream?
    ensures Balanced(s, Apply(s, a), a, c)
  {
    hide Inv, Enabled, Apply;
    OldestTaken(s, a);
    if c == a.c && s.conns[c].free != [] {
      var f := s.conns[c].free;
      assert f == f[..|f| - 1] + [f[|f| - 1]];
    }
  }

  lemma RefusedBalance(s: State, s': State, a: Step, c: ConnId)
    requires a.DoNewStreamRefused? && Shelved(s, s', a.r, a.c, a.typ, a.alloc)
    ensures Balanced(s, s', a, c)
  {
    if c == a.c && s.conns[c].free != [] {
      var f := s.conns[c].free;
      assert f == f[..|f| - 1] + [f[|f| - 1]];
    }
  }

  lemma FinalizedBalance(s: State, s': State, id: Id, c: ConnId)
    requires StreamFinalized(s, s', id)
    ensures Balanced(s, s', DoFinalizeStream(id), c)
  {
  }

  lemma ReleasedBalance(s: State, s': State, id: Id, timedOut: bool, a: Step, c: ConnId)
    requires Released(s, s', id, timedOut) && id in s.ongoing
    requires (a.DoDrainOne? && s.posted != [] && s.posted[0].id == id) || (a.DoOpTimeout? && CoOf(s, a.co).data == id)
    ensures Balanced(s, s', a, c)
  {
    hide CoOf;
    assert Taken(s, s', a, c) == [];
    assert Put(s, s', a, c) == if CallOn(s, id, c) then [id] else [];
    if c in s.conns {
      assert s'.conns[c].free == if CallOn(s, id, c) then [id] + s.conns[c].free else s.conns[c].free;
    }
  }

  lemma DiscardBalance(s: State, s': State, a: Step, c: ConnId)
    requires a.DoDrainOne? && s.posted != [] && s.posted[0].id !in s.ongoing && SameLib(s, s')
    ensures Balanced(s, s', a, c)
  {
  }

  lemma TimerRegistered(s: State, co: Co)
    requires Inv(s) && CoOf(s, co).timer
    ensures CoOf(s, co).data in s.ongoing
  {
    hide Placed, Registry, Handled, Delayed, ConnRefsAgree, Books, Conserved, OwnJobs, Completions, Waiters,
      Attributed, WaiterSound, Owned, LostReason, Wholes, ConnHandled, JobStreams;
    WaitingKept(s, co);
  }

  lemma QueueStep(s: State, a: Step, c: ConnId)
    requires Inv(s) && Enabled(s, a)
    ensures Balanced(s, Apply(s, a), a, c)
  {
    hide Inv, NewStream, NewStreamRefused, StreamOp, CloseConn, FinalizeConn, CloseStream, FinalizeStream, Connect,
      RunJob, MakeCall, CallsLeft, Report, WaitCheck, ThreadEvent, DrainOne, OpTimeout, Abort, Balanced, Released, Shelved, SameLib, StreamFinalized,
      FrameHolds, FullWire, FreshPtrs, Q.TimerExpire, Q.TimerFire, Q.WaitStart, ResultShape, Offers;
    var s' := Apply(s, a);
    match a {
      case DoNewStream(_, _, _, _, _, _) => NewStreamBalance(s, a, c);
      case DoNewStreamRefused(_, r, x, typ, alloc) =>
        RefusedLib(s, r, x, typ, alloc);
        RefusedBalance(s, s', a, c);
      case DoFinalizeStream(id) =>
        FinalizeStreamEffect(s, id);
        FinalizedBalance(s, s', id, c);
      case DoDrainOne(decodes) =>
        DrainLib(s, decodes);
        if s.posted[0].id in s.ongoing {
          ReleasedBalance(s, s', s.posted[0].id, false, a, c);
        } else {
          DiscardBalance(s, s', a, c);
        }
      case DoOpTimeout(co) =>
        TimeoutLib(s, co);
        TimerRegistered(s, co);
        ReleasedBalance(s, s', CoOf(s, co).data, true, a, c);
      case _ =>
        IdleQueue(s, a, c);
        IdleBalance(s, s', a, c);
    }
  }

  // ---------------------------------------------------------------- whole runs

  /** The connection stays allocated throughout the run. */
  predicate Stays(s: State, run: seq<Step>, c: ConnId)
    requires Runs(s, run)
    decreases |run|
  {
    c in s.conns && (run == [] || Stays(Apply(s, run[0]), run[1..], c))
  }

  /** The contexts released to the free queue of `c` during a run, the last one first. */
  function Puts(s: State, run: seq<Step>, c: ConnId): seq<Id>
    requires Runs(s, run)
    decreases |run|
  {
    if run == [] then [] else Puts(Apply(s, run[0]), run[1..], c) + Put(s, Apply(s, run[0]), run[0], c)
  }

  /** The contexts taken from it, the last one first. */
  function Takings(s: State, run: seq<Step>, c: ConnId): seq<Id>
    requires Runs(s, run)
    decreases |run|
  {
    if run == [] then [] else Takings(Apply(s, run[0]), run[1..], c) + Taken(s, Apply(s, run[0]), run[0], c)
  }

  /** Conservation on the free queue: what was released during the run, in front of what was there,
      is what is there now, in front of what was taken. */
  lemma {:induction false} QueueRun(s: State, run: seq<Step>, c: ConnId)
    requires Inv(s) && Runs(s, run) && Stays(s, run, c)
    ensures c in After(s, run).conns
    ensures Puts(s, run, c) + s.conns[c].free == After(s, run).conns[c].free + Takings(s, run, c)
    decreases |run|
  {
    hide Inv, Apply, Enabled, Put, Taken;
    if run != [] {
      var s1, rest := Apply(s, run[0]), run[1..];
      QueueStep(s, run[0], c);
      StepInv(s, run[0]);
      QueueRun(s1, rest, c);
      Regroup(Puts(s1, rest, c), Put(s, s1, run[0], c), s.conns[c].free, s1.conns[c].free,
              Taken(s, s1, run[0], c), After(s, run).conns[c].free, Takings(s1, rest, c));
    }
  }

  lemma Regroup(puts: seq<Id>, put: seq<Id>, was: seq<Id>, now: seq<Id>, taken: seq<Id>, end: seq<Id>, takings: seq<Id>)
    requires put + was == now + taken && puts + now == end + takings
    ensures (puts + put) + was == end + (takings + taken)
  {
    assert (puts + put) + was == puts + (put + was);
    assert puts + (now + taken) == (puts + now) + taken;
    assert (end + takings) + taken == end + (takings + taken);
  }

  /** First released, first reused: the `k`-th context a run takes from the free queue is the `k`-th
      oldest of those that were on it and those released since. In particular nothing released during
      the run is reused before everything that was on the queue. */
  lemma FirstReleasedFirst(s: State, run: seq<Step>, c: ConnId, k: nat)
    requires Inv(s) && Runs(s, run) && Stays(s, run, c) && k < |Takings(s, run, c)|
    ensures c in s.conns && k < |Puts(s, run, c)| + |s.conns[c].free|
    ensures var taken, queue := Takings(s, run, c), Puts(s, run, c) + s.conns[c].free;
            taken[|taken| - 1 - k] == queue[|queue| - 1 - k]
    ensures var taken, free := Takings(s, run, c), s.conns[c].free;
            k < |free| ==> taken[|taken| - 1 - k] == free[|free| - 1 - k]
  {
    hide Inv, Apply, Enabled, Puts, Takings;
    QueueRun(s, run, c);
    var taken, queue, end := Takings(s, run, c), Puts(s, run, c) + s.conns[c].free, After(s, run).conns[c].free;
    assert queue == end + taken;
    assert queue[|queue| - 1 - k] == (end + taken)[|end| + (|taken| - 1 - k)];
  }
}
