/** When the repost rule leaves a waiting operation without a waiter. */
module Wakeups {
  import opened Base
  import opened Buffers
  import opened Machine
  import opened Invariants
  import opened Flow
  import opened KickOffs
  import opened Completion
  import opened Draining
  import opened Engine
  import opened Frames
  import opened Reachability
  import opened Undisturbed
  import Q = FinishedQueue

  predicate Listed(xs: seq<CRes>, j: JobId) {
    exists i :: 0 <= i < |xs| && xs[i].origin.job == j
  }

  /** Operations some coroutine is waiting for. */
  function AwaitedOps(s: State): set<JobId> {
    set j | 0 <= j < |s.ops| && Awaited(s.cos, s.ops, j)
  }

  /** Awaited operations whose own result is among the records `xs`. */
  function LiveIn(s: State, xs: seq<CRes>): set<JobId> {
    set j | j in AwaitedOps(s) && Listed(xs, j)
  }

  /** Awaited operations whose own result has reached neither the batch nor the posted queue. */
  function Unposted(s: State): set<JobId> {
    set j | j in AwaitedOps(s) && !Listed(s.posted + s.batch, j)
  }

  /** Nobody will collect the result of an operation that is still awaited. */
  predicate Stranded(s: State) {
    !s.active && Unposted(s) != {}
  }

  /** Records in the batch that no awaited operation owns: results of operations that timed
      out or were aborted. */
  function StaleInBatch(s: State): int {
    |s.batch| - |LiveIn(s, s.batch)|
  }

  /** The exact condition, checkable before the completion event is handled. */
  predicate Strands(s: State) {
    Unposted(s) != {} && |Unposted(s)| + |LiveIn(s, s.posted)| <= StaleInBatch(s)
  }

  // ---------------------------------------------------------------- counting

  lemma AwaitedCount(s: State)
    requires Registry(s.ongoing, s.ongoingNum, s.sctxs) && Waiters(s.ongoing, s.sctxs, s.cos, s.ops)
    ensures |AwaitedOps(s)| == s.ongoingNum
  {
    var js := AwaitedOps(s);
    forall j | j in js ensures s.ops[j].id in s.ongoing && s.sctxs[s.ops[j].id].waitCo == Some(s.ops[j].co) {
      assert CoSound(s.ongoing, s.sctxs, s.ops[j].co, s.cos[s.ops[j].co], s.ops);
    }
    IdsCard(js, s.ops);
    forall id | id in s.ongoing ensures id in IdsOf(js, s.ops) {
      var co := s.sctxs[id].waitCo.value;
      assert CoSound(s.ongoing, s.sctxs, co, s.cos[co], s.ops);
      assert s.cos[co].run.op in js;
    }
    assert IdsOf(js, s.ops) == s.ongoing;
  }

  /** A record in the batch is not also in the posted queue. */
  lemma ListedOnce(s: State, j: JobId)
    requires Books(s.jobs, s.ops, s.reported) && Conserved(s)
    ensures !(Listed(s.posted, j) && Listed(s.batch, j))
    ensures Listed(s.posted + s.batch, j) <==> Listed(s.posted, j) || Listed(s.batch, j)
  {
    TransitUnique(s);
    hide Books, Conserved;
    var t := Transit(s);
    assert forall i :: 0 <= i < |s.posted| ==> t[i] == s.posted[i].origin;
    assert forall i :: 0 <= i < |s.batch| ==> t[|s.posted| + i] == s.batch[i].origin;
    ListedConcat(s.posted, s.batch, j);
  }

  lemma ListedConcat(a: seq<CRes>, b: seq<CRes>, j: JobId)
    ensures Listed(a + b, j) <==> Listed(a, j) || Listed(b, j)
  {
    if Listed(a, j) {
      var i :| 0 <= i < |a| && a[i].origin.job == j;
      assert (a + b)[i].origin.job == j;
    }
    if Listed(b, j) {
      var i :| 0 <= i < |b| && b[i].origin.job == j;
      assert (a + b)[|a| + i].origin.job == j;
    }
  }

  /** Awaited operations split into those in the batch, those posted and the rest. */
  lemma AwaitedSplit(s: State)
    requires Books(s.jobs, s.ops, s.reported) && Conserved(s)
    ensures |AwaitedOps(s)| == |Unposted(s)| + |LiveIn(s, s.batch)| + |LiveIn(s, s.posted)|
  {
    forall j ensures !(Listed(s.posted, j) && Listed(s.batch, j))
                     && (Listed(s.posted + s.batch, j) <==> Listed(s.posted, j) || Listed(s.batch, j)) {
      ListedOnce(s, j);
    }
    hide Books, Conserved, Listed;
    var a, b, c := Unposted(s), LiveIn(s, s.batch), LiveIn(s, s.posted);
    assert AwaitedOps(s) == a + b + c;
    assert a !! b && (a + b) !! c;
  }

  // ---------------------------------------------------------------- the rule

  /** Handling the completion event strands an operation exactly when stale results in the
      batch are at least as many as the awaited operations not covered by it. */
  lemma RepostRule(s: State)
    requires Inv(s) && s.q.phase == Q.Finished
    ensures Stranded(ThreadEvent(s)) <==> Strands(s)
    ensures Unposted(ThreadEvent(s)) == Unposted(s)
  {
    hide Placed, Registry, Waiters, Handled, Delayed, ConnRefsAgree, Books, Conserved, OwnJobs, Completions,
      Attributed, Owned, LostReason, Wholes, ConnHandled, JobStreams, ThreadEvent, Listed, Q.Live;
    ThreadEventShape(s);
    AwaitedCount(s);
    AwaitedSplit(s);
    var s' := ThreadEvent(s);
    assert s'.posted + s'.batch == s.posted + s.batch;
    assert AwaitedOps(s') == AwaitedOps(s);
  }

  // ---------------------------------------------------------------- no other step strands

  lemma UnpostedSame(s: State, s': State)
    requires s'.cos == s.cos && s'.ops == s.ops && s'.posted == s.posted && s'.batch == s.batch
    ensures Unposted(s') == Unposted(s)
  {
    assert AwaitedOps(s') == AwaitedOps(s);
  }

  lemma UnpostedFewer(s: State, s': State)
    requires s'.ops == s.ops && s'.posted == s.posted && s'.batch == s.batch
    requires forall j :: 0 <= j < |s.ops| && Awaited(s'.cos, s.ops, j) ==> Awaited(s.cos, s.ops, j)
    ensures Unposted(s') <= Unposted(s)
  {
    hide Listed, Awaited;
  }

  lemma DropAwaited(cos: map<Co, CoCtx>, ops: seq<OpInfo>, co: Co, k: CoCtx, j: JobId)
    requires !k.run.Waiting? && j < |ops|
    ensures Awaited(cos[co := k], ops, j) ==> Awaited(cos, ops, j)
  {
  }

  /** Draining a record strands nobody: whoever awaited its job is resumed by it. */
  lemma DrainUnposted(s: State, decodes: bool)
    requires Inv(s) && s.posted != []
    ensures Unposted(DrainOne(s, decodes)) <= Unposted(s) && DrainOne(s, decodes).active == s.active
  {
    hide Placed, Registry, Handled, Delayed, ConnRefsAgree, Books, Conserved, OwnJobs, Completions, Waiters,
      Attributed, WaiterSound, Owned, LostReason, Wholes, ConnHandled, JobStreams, Transit, DrainOne, Unsettled, Take, Resume, Prepared,
      Listed, Awaited, Resumed;
    Head(s);
    var x := s.posted[0];
    if x.id in s.ongoing {
      DeliveryAttributed(s, decodes);
      var cause := Delivery(s, decodes);
      DeliverShape(s, decodes);
      PreparedResume(s, cause);
      TakeResumedFrame(s, cause);
      ResumedInv(s, x.id, false, cause);
      var s1 := Resumed(s, x.id, false, cause);
      ResumedQuiet(s, x.id, cause);
      NobodyWaits(s1, x.origin.job);
      TakeUnposted(s1);
      forall j | 0 <= j < |s.ops| ensures Awaited(s1.cos, s.ops, j) ==> Awaited(s.cos, s.ops, j) {
        DropAwaited(s.cos, s.ops, s.sctxs[x.id].waitCo.value, CoCtx(Running, false, false, x.id), j);
      }
      UnpostedFewer(s, s1);
      TakeActive(s1);
    } else {
      NobodyWaits(s, x.origin.job);
      DiscardShape(s, decodes);
      TakeUnposted(s);
      TakeActive(s);
    }
  }

  lemma TakeActive(s: State)
    requires s.posted != []
    ensures Take(s).active == s.active
  {
  }

  lemma ResumedQuiet(s: State, id: Id, cause: Cause)
    requires Deliverable(s) && id == s.posted[0].id
    ensures var s1 := Resumed(s, id, false, cause);
            && s1.ops == s.ops && s1.posted == s.posted && s1.batch == s.batch && id !in s1.ongoing && s1.active == s.active
  {
    hide PlaceAfter, ConnsAfter, Succeeded;
  }

  lemma TakeUnposted(s: State)
    requires s.posted != []
    requires forall c :: c in s.cos && s.cos[c].run.Waiting? ==> s.cos[c].run.op != s.posted[0].origin.job
    ensures Unposted(Take(s)) == Unposted(s)
  {
    var s' := Take(s);
    forall j | j in AwaitedOps(s) ensures Listed(s.posted + s.batch, j) <==> Listed(s'.posted + s'.batch, j) {
      assert s.posted + s.batch == [s.posted[0]] + (s'.posted + s'.batch);
      ListedConcat([s.posted[0]], s'.posted + s'.batch, j);
    }
    assert AwaitedOps(s') == AwaitedOps(s);
  }

  lemma TimeoutUnposted(s: State, co: Co)
    requires Inv(s) && CoOf(s, co).timer
    ensures Unposted(OpTimeout(s, co)) <= Unposted(s) && OpTimeout(s, co).active == s.active
  {
    hide Placed, Registry, Handled, Delayed, ConnRefsAgree, Books, Conserved, OwnJobs, Completions, Waiters,
      Attributed, WaiterSound, Owned, LostReason, Wholes, ConnHandled, JobStreams, OpTimeout, Unposted, Awaited, ConnsAfter;
    WaitingKept(s, co);
    Kept(s, s.cos[co].data);
    OpTimeoutShape(s, co);
    var s' := OpTimeout(s, co);
    forall j | 0 <= j < |s.ops| ensures Awaited(s'.cos, s.ops, j) ==> Awaited(s.cos, s.ops, j) {
      DropAwaited(s.cos, s.ops, co, s'.cos[co], j);
    }
    UnpostedFewer(s, s');
  }

  lemma AbortUnposted(s: State, co: Co)
    requires Inv(s) && CoOf(s, co).cleanup
    ensures Unposted(Abort(s, co)) <= Unposted(s) && Abort(s, co).active == s.active
  {
    hide Placed, Registry, Handled, Delayed, ConnRefsAgree, Books, Conserved, OwnJobs, Completions, Waiters,
      Attributed, WaiterSound, Owned, LostReason, Wholes, ConnHandled, JobStreams, Unposted, Awaited;
    WaitingKept(s, co);
    var s' := Abort(s, co);
    forall j | 0 <= j < |s.ops| ensures Awaited(s'.cos, s.ops, j) ==> Awaited(s.cos, s.ops, j) {
      DropAwaited(s.cos, s.ops, co, CoCtx(Dead, false, false, s.cos[co].data), j);
    }
    UnpostedFewer(s, s');
  }

  lemma EngineUnposted(s: State, a: Step)
    requires Inv(s) && Enabled(s, a) && (a.DoCall? || a.DoRunJob? || a.DoReport?)
    ensures Unposted(Apply(s, a)) == Unposted(s) && Apply(s, a).active == s.active
  {
    hide Placed, Registry, Handled, Delayed, ConnRefsAgree, Books, Conserved, OwnJobs, Completions, Waiters,
      Attributed, WaiterSound, Owned, LostReason, Wholes, ConnHandled, JobStreams, Unposted, RunJob, MakeCall, CallsLeft, FullWire, NewStream, NewStreamRefused, StreamOp,
      CloseConn, FinalizeConn, CloseStream, FinalizeStream, WaitCheck, ThreadEvent, DrainOne, OpTimeout, Abort, FreshPtrs, FrameHolds;
    if a.DoRunJob? {
      RunJobFrame(s, a.j, a.result, a.err);
    } else if a.DoCall? {
      MakeCallFrame(s, a.j);
    }
    UnpostedSame(s, Apply(s, a));
  }

  lemma MovingUnposted(s: State, a: Step)
    requires Inv(s) && Enabled(s, a) && Moving(a) && !a.DoThreadEvent?
    ensures Apply(s, a).active == s.active && (s.active || Unposted(Apply(s, a)) == Unposted(s))
  {
    hide Inv, Unposted, RunJob, MakeCall, CallsLeft, FullWire, NewStream, NewStreamRefused, StreamOp, Report,
      CloseConn, FinalizeConn, CloseStream, FinalizeStream, WaitCheck, ThreadEvent, DrainOne, OpTimeout, Abort, FreshPtrs, FrameHolds,
      Offers, ResultShape, Q.TimerExpire, Q.TimerFire, Q.WaitStart;
    if a.DoWaitCheck? {
      CollectingActive(s, a.ptrs);
    } else {
      UnpostedSame(s, Apply(s, a));
    }
  }

  lemma CollectingActive(s: State, ptrs: seq<Ptr>)
    requires Inv(s) && (s.q.phase == Q.Entering || s.q.phase == Q.Woken) && |ptrs| == |s.q.tasks|
    ensures s.active && WaitCheck(s, ptrs).active
  {
    hide Placed, Registry, Handled, Delayed, ConnRefsAgree, Books, Conserved, OwnJobs, Completions, Waiters,
      Attributed, Owned, LostReason, Wholes, ConnHandled, JobStreams, Q.Live, WaitCheck, StoreAll, PackAll, Transit;
    WaitCheckShape(s, ptrs);
  }

  /** Only the completion event can strand an operation, and only under the exact condition. */
  lemma StrandStep(s: State, a: Step)
    requires Inv(s) && Enabled(s, a) && !Stranded(s)
    ensures Stranded(Apply(s, a)) <==> a.DoThreadEvent? && Strands(s)
  {
    hide Inv, NewStream, NewStreamRefused, StreamOp, CloseConn, FinalizeConn, CloseStream, FinalizeStream,
      RunJob, MakeCall, CallsLeft, Report, WaitCheck, ThreadEvent, DrainOne, OpTimeout, Abort, Unposted, Strands, Launch,
      FrameHolds, FullWire, FreshPtrs, Q.TimerExpire, Q.TimerFire, Q.WaitStart, ResultShape, Transit, Offers;
    if Aside(a) {
      AsideFrame(s, a);
      UnpostedSame(s, Apply(s, a));
    } else if a.DoThreadEvent? {
      RepostRule(s);
    } else if Moving(a) {
      MovingUnposted(s, a);
    } else {
      match a {
        case DoNewStream(co, r, c, typ, req, alloc) =>
          var conns, id, ctx, info, job := NewStreamLaunch(s, co, r, c, typ, req, alloc);
          LaunchActive(s, Apply(s, a), conns, s.streams, co, id, ctx, info, job);
        case DoStreamOp(co, r, id, op) =>
          if Admitted(s, r, id) {
            var streams, ctx, info, job := StreamOpLaunch(s, co, r, id, op);
            LaunchActive(s, Apply(s, a), s.conns, streams, co, id, ctx, info, job);
          } else {
            StreamOpRefused(s, co, r, id, op);
            UnpostedSame(s, Apply(s, a));
          }
        case DoCall(_) => EngineUnposted(s, a);
        case DoRunJob(_, _, _) => EngineUnposted(s, a);
        case DoReport(_) => EngineUnposted(s, a);
        case DoDrainOne(decodes) => DrainUnposted(s, decodes);
        case DoOpTimeout(co) => TimeoutUnposted(s, co);
        case DoAbort(co) => AbortUnposted(s, co);
        case _ =>
      }
    }
  }

  lemma LaunchActive(s: State, s': State, conns: map<ConnId, Conn>, streams: map<JobId, Stream>,
                     co: Co, id: Id, ctx: StreamCtx, info: OpInfo, job: Job)
    requires Launch(s, s', conns, streams, co, id, ctx, info, job)
    ensures s'.active
  {
    hide CleanId;
  }
}
