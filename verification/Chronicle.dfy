/** Lua handles, engine references and stream contexts as a function of what happened to them:
    the state is exactly what its history says. */
module Chronicle {
  import opened Base
  import opened Buffers
  import opened Machine
  import opened Invariants
  import opened KickOffs
  import opened Destruction
  import opened Completion
  import opened Draining
  import opened Engine
  import opened Frames
  import opened Reachability
  import opened Undisturbed
  import opened Attribution
  import opened Provenance
  import opened Effects
  import Q = FinishedQueue

  // ---------------------------------------------------------------- connections

  /** A connection handle: none, emptied, or open with its engine connection. */
  datatype Link = Gone | Shut | Linked(e: Ref)

  function LinkNext(link: Link, a: Step, c: ConnId): Link {
    match a
    case DoConnect(x, e) => if x == c then Linked(e) else link
    case DoCloseConn(x) => if x == c then Shut else link
    case DoFinalizeConn(x) => if x == c then Gone else link
    case _ => link
  }

  function LinkOf(link: Link, run: seq<Step>, c: ConnId): Link
    decreases |run|
  {
    if run == [] then link else LinkOf(LinkNext(link, run[0], c), run[1..], c)
  }

  predicate LinkHolds(s: State, c: ConnId, link: Link) {
    match link
    case Gone => c !in s.connHandles && (c in s.conns ==> s.conns[c].engine.None?)
    case Shut => c in s.connHandles && !s.connHandles[c] && c in s.conns && s.conns[c].engine.None?
    case Linked(e) => c in s.connHandles && s.connHandles[c] && c in s.conns && s.conns[c].engine == Some(e)
  }

  /** The handle is left alone, and the engine connection of what remains. */
  predicate LinkKept(s: State, s': State, c: ConnId) {
    && (c in s'.connHandles <==> c in s.connHandles) && (c in s.connHandles ==> s'.connHandles[c] == s.connHandles[c])
    && (c in s'.conns ==> c in s.conns && s'.conns[c].engine == s.conns[c].engine)
  }

  lemma LinkStays(s: State, s': State, c: ConnId, link: Link)
    requires LinkHolds(s, c, link) && LinkKept(s, s', c) && Inv(s')
    ensures LinkHolds(s', c, link)
  {
    hide Placed, Registry, Waiters, Handled, Delayed, ConnRefsAgree, Books, Conserved, OwnJobs, Completions,
      Attributed, WaiterSound, Owned, LostReason, Wholes, JobStreams;
  }

  lemma AsideLink(s: State, a: Step, c: ConnId, link: Link)
    requires Inv(s) && Enabled(s, a) && Aside(a) && LinkHolds(s, c, link)
    ensures (LinkKept(s, Apply(s, a), c) && LinkNext(link, a, c) == link) || LinkHolds(Apply(s, a), c, LinkNext(link, a, c))
  {
    hide Inv, NewStream, NewStreamRefused, StreamOp, CloseConn, FinalizeConn, FinalizeStream, StreamFinalized, ConnFinalized,
      RunJob, MakeCall, CallsLeft, Report, WaitCheck, ThreadEvent, DrainOne, OpTimeout, Abort, Transit, LinkHolds, LinkKept,
      FrameHolds, FullWire, FreshPtrs, ResultShape, Offers, Connect;
    match a {
      case DoConnect(x, e) => ConnectLink(s, x, e, c, link);
      case DoNewStreamRefused(_, r, x, typ, alloc) => RefusedLink(s, r, x, typ, alloc, c);
      case DoCloseConn(x) => CloseLink(s, x, c, link);
      case DoFinalizeConn(x) =>
        HandleAllocated(s, x);
        FinalizeConnEffect(s, x);
        FinalizedLink(s, Apply(s, a), x, c);
      case DoCloseStream(id) => SameLinks(s, CloseStream(s, id), c);
      case DoFinalizeStream(id) =>
        FinalizeStreamEffect(s, id);
        ShelvedLink(s, Apply(s, a), id, c);
    }
  }

  lemma SameLinks(s: State, s': State, c: ConnId)
    requires s'.conns == s.conns && s'.connHandles == s.connHandles
    ensures LinkKept(s, s', c)
  {
  }

  lemma ConnectLink(s: State, x: ConnId, e: Ref, c: ConnId, link: Link)
    requires x !in s.conns && LinkHolds(s, c, link)
    ensures LinkHolds(Connect(s, x, e), c, if x == c then Linked(e) else link)
  {
  }

  lemma CloseLink(s: State, x: ConnId, c: ConnId, link: Link)
    requires Inv(s) && x in s.connHandles && LinkHolds(s, c, link)
    ensures LinkHolds(CloseConn(s, x), c, if x == c then Shut else link)
  {
    hide Inv, CloseConn;
    HandleAllocated(s, x);
    CloseConnEffect(s, x);
  }

  lemma FinalizedLink(s: State, s': State, x: ConnId, c: ConnId)
    requires ConnFinalized(s, s', x)
    ensures x != c ==> LinkKept(s, s', c)
    ensures x == c ==> LinkHolds(s', c, Gone)
  {
  }

  lemma ShelvedLink(s: State, s': State, id: Id, c: ConnId)
    requires StreamFinalized(s, s', id)
    ensures LinkKept(s, s', c)
  {
  }

  lemma ReleasedLink(s: State, s': State, id: Id, timedOut: bool, c: ConnId)
    requires Released(s, s', id, timedOut)
    ensures LinkKept(s, s', c)
  {
  }

  lemma DrawnLink(s: State, s': State, x: ConnId, id: Id, alloc: Id, c: ConnId)
    requires Draws(s.conns, s'.conns, x, id, alloc) && s'.connHandles == s.connHandles
    ensures LinkKept(s, s', c)
  {
  }

  lemma RefusedLink(s: State, r: Req, x: ConnId, typ: StreamType, alloc: Id, c: ConnId)
    requires Inv(s) && x in s.connHandles && s.connHandles[x] && alloc !in s.sctxs
    ensures LinkKept(s, NewStreamRefused(s, r, x, typ, alloc), c)
  {
    hide Inv, NewStreamRefused;
    RefusedLib(s, r, x, typ, alloc);
  }

  lemma KickLink(s: State, a: Step, c: ConnId)
    requires Inv(s) && Enabled(s, a) && (a.DoNewStream? || a.DoStreamOp?)
    ensures LinkKept(s, Apply(s, a), c)
  {
    hide Inv, NewStream, NewStreamRefused, StreamOp, CloseConn, FinalizeConn, CloseStream, FinalizeStream, CleanId, Admitted,
      RunJob, MakeCall, CallsLeft, WaitCheck, ThreadEvent, DrainOne, OpTimeout, Abort, Transit, LinkKept, Connect, Report,
      FrameHolds, FullWire, FreshPtrs, ResultShape, Offers, Draws, Launch;
    if a.DoNewStream? {
      var conns, id, ctx, info, job := NewStreamLaunch(s, a.co, a.r, a.c, a.typ, a.req, a.alloc);
      LaunchLib(s, Apply(s, a), conns, s.streams, a.co, id, ctx, info, job);
      DrawnLink(s, Apply(s, a), a.c, id, a.alloc, c);
    } else {
      if Admitted(s, a.r, a.id) {
        var streams, ctx, info, job := StreamOpLaunch(s, a.co, a.r, a.id, a.op);
        LaunchLib(s, Apply(s, a), s.conns, streams, a.co, a.id, ctx, info, job);
      } else {
        StreamOpRefused(s, a.co, a.r, a.id, a.op);
      }
      SameLinks(s, Apply(s, a), c);
    }
  }

  lemma BusyLink(s: State, a: Step, c: ConnId)
    requires Inv(s) && Enabled(s, a) && !Aside(a)
    ensures LinkKept(s, Apply(s, a), c)
  {
    hide Inv, NewStream, NewStreamRefused, StreamOp, CloseConn, FinalizeConn, CloseStream, FinalizeStream,
      RunJob, MakeCall, CallsLeft, WaitCheck, ThreadEvent, DrainOne, OpTimeout, Abort, Transit, LinkKept, Connect, Released, Forsaken,
      FrameHolds, FullWire, FreshPtrs, Q.TimerExpire, Q.TimerFire, Q.WaitStart, ResultShape, Offers;
    var s' := Apply(s, a);
    if Moving(a) {
      InvWaiter(s);
      MovingFrame(s, a);
      SameLinks(s, s', c);
    } else {
      match a {
        case DoNewStream(_, _, _, _, _, _) => KickLink(s, a, c);
        case DoStreamOp(_, _, _, _) => KickLink(s, a, c);
        case DoCall(j) =>
          MakeCallFrame(s, j);
          SameLinks(s, s', c);
        case DoRunJob(j, result, err) =>
          RunJobFrame(s, j, result, err);
          SameLinks(s, s', c);
        case DoReport(j) => SameLinks(s, s', c);
        case DoDrainOne(decodes) =>
          DrainLib(s, decodes);
          if s.posted[0].id in s.ongoing {
            ReleasedLink(s, s', s.posted[0].id, false, c);
          } else {
            SameLinks(s, s', c);
          }
        case DoOpTimeout(co) =>
          TimeoutLib(s, co);
          ReleasedLink(s, s', CoOf(s, co).data, true, c);
        case DoAbort(co) =>
          AbortForsakes(s, co);
          ForsakenLink(s, s', CoOf(s, co).data, c);
        case _ =>
      }
    }
  }

  lemma ForsakenLink(s: State, s': State, id: Id, c: ConnId)
    requires Forsaken(s, s', id)
    ensures LinkKept(s, s', c)
  {
  }

  lemma LinkStep(s: State, a: Step, c: ConnId, link: Link)
    requires Inv(s) && Enabled(s, a) && LinkHolds(s, c, link)
    ensures LinkHolds(Apply(s, a), c, LinkNext(link, a, c))
  {
    hide Inv, Apply, Enabled, LinkHolds, LinkKept;
    StepInv(s, a);
    if Aside(a) {
      AsideLink(s, a, c, link);
    } else {
      BusyLink(s, a, c);
    }
    if LinkKept(s, Apply(s, a), c) {
      LinkStays(s, Apply(s, a), c, link);
    }
  }

  lemma {:induction false} LinkRun(s: State, run: seq<Step>, c: ConnId, link: Link)
    requires Inv(s) && Runs(s, run) && LinkHolds(s, c, link)
    ensures LinkHolds(After(s, run), c, LinkOf(link, run, c))
    decreases |run|
  {
    hide Inv, Apply, Enabled, LinkHolds, LinkNext;
    if run != [] {
      LinkStep(s, run[0], c, link);
      StepInv(s, run[0]);
      LinkRun(Apply(s, run[0]), run[1..], c, LinkNext(link, run[0], c));
    }
  }

  // ---------------------------------------------------------------- stream handles and references

  /** The operation awaited on a registered context. */
  function OpOn(s: State, id: Id): Option<Op> {
    if id in s.ongoing && id in s.sctxs && s.sctxs[id].waitCo.Some? then
      var co := CoOf(s, s.sctxs[id].waitCo.value);
      if co.run.Waiting? && co.run.op < |s.ops| then Some(s.ops[co.run.op].op) else None
    else None
  }

  /** The step answers an awaited operation on `id` with a success. */
  predicate Answers(s: State, a: Step, id: Id) {
    a.DoDrainOne? && s.posted != [] && s.posted[0].id == id && s.posted[0].origin.err.None? && OpOn(s, id).Some?
  }

  /** A handle for `id` is handed out: an opening was answered with a success. */
  predicate HandsOut(s: State, a: Step, id: Id) {
    Answers(s, a, id) && OpOn(s, id).value.OpenOp?
  }

  /** The stream of `id` is closed by a `recv_close`: a receive on a client stream was answered with
      a success, and the answer decodes. */
  predicate EndsStream(s: State, a: Step, id: Id) {
    Answers(s, a, id) && OpOn(s, id).value.RecvOp? && a.decodes && id in s.sctxs && s.sctxs[id].typ.ClientStream?
  }

  /** Job `j` of the step has just opened the stream for `id`. */
  predicate StoresFor(s: State, a: Step, id: Id) {
    a.DoRunJob? && a.err.None? && a.j < |s.ops| && s.ops[a.j].op.OpenOp? && s.ops[a.j].id == id
  }

  /** An id as Lua and the engine see it: its handle, open or emptied, and the stream stored. */
  datatype Slot = Slot(handle: Option<bool>, stream: Option<JobId>)

  function SlotNext(was: Slot, s: State, a: Step, id: Id): Slot {
    if a == DoFinalizeStream(id) then Slot(None, None)
    else if a == DoCloseStream(id) then Slot(Some(false), None)
    else if EndsStream(s, a, id) then Slot(Some(false), if was.handle == Some(true) then None else was.stream)
    else if HandsOut(s, a, id) then was.(handle := Some(true))
    else if StoresFor(s, a, id) then was.(stream := Some(a.j))
    else was
  }

  function SlotOf(was: Slot, s: State, run: seq<Step>, id: Id): Slot
    requires Runs(s, run)
    decreases |run|
  {
    if run == [] then was else SlotOf(SlotNext(was, s, run[0], id), Apply(s, run[0]), run[1..], id)
  }

  function SlotIn(s: State, id: Id): Slot {
    Slot(if id in s.handles then Some(s.handles[id]) else None, if id in s.streamRefs then Some(s.streamRefs[id]) else None)
  }

  lemma RunJobSlot(s: State, j: JobId, result: Option<Bytes>, err: Option<Bytes>, id: Id)
    requires Inv(s) && j in s.jobs
    ensures j < |s.ops|
    ensures SlotIn(RunJob(s, j, result, err), id) ==
            if err.None? && s.ops[j].op.OpenOp? && s.ops[j].id == id then SlotIn(s, id).(stream := Some(j)) else SlotIn(s, id)
  {
    hide Inv, RunJob, SlotIn, SameSlots;
    BookedJob(s, j);
    RunJobRefs(s, j, result, err);
    if s.jobs[j].op.OpenOp? && err.None? {
      StoredSlot(s, RunJob(s, j, result, err), j, id);
    } else {
      EqualSlots(s, RunJob(s, j, result, err), id);
    }
  }

  lemma RunJobRefs(s: State, j: JobId, result: Option<Bytes>, err: Option<Bytes>)
    requires j in s.jobs
    ensures s.jobs[j].op.OpenOp? && err.None? ==>
              RunJob(s, j, result, err).handles == s.handles && RunJob(s, j, result, err).streamRefs == s.streamRefs[s.jobs[j].id := j]
    ensures !(s.jobs[j].op.OpenOp? && err.None?) ==> SameSlots(s, RunJob(s, j, result, err))
  {
    hide FullWire, Tagged;
  }

  lemma BookedJob(s: State, j: JobId)
    requires Inv(s) && j in s.jobs
    ensures j < |s.ops| && s.jobs[j].id == s.ops[j].id && s.jobs[j].op == s.ops[j].op
  {
    hide Placed, Registry, Waiters, Handled, Delayed, ConnRefsAgree, Conserved, OwnJobs, Completions,
      Attributed, WaiterSound, Owned, LostReason, Wholes, ConnHandled, JobStreams;
    assert JobSound(j, s.jobs[j], s.ops);
  }

  lemma StoredSlot(s: State, s': State, j: JobId, id: Id)
    requires j in s.jobs && s'.handles == s.handles && s'.streamRefs == s.streamRefs[s.jobs[j].id := j]
    ensures SlotIn(s', id) == if s.jobs[j].id == id then SlotIn(s, id).(stream := Some(j)) else SlotIn(s, id)
  {
  }

  lemma EqualSlots(s: State, s': State, id: Id)
    requires SameSlots(s, s')
    ensures SlotIn(s', id) == SlotIn(s, id)
  {
  }

  /** Handles and references after a record was drained. */
  lemma DrainSlot(s: State, decodes: bool, id: Id)
    requires Inv(s) && s.posted != []
    ensures SlotIn(DrainOne(s, decodes), id) == SlotNext(SlotIn(s, id), s, DoDrainOne(decodes), id)
  {
    hide Placed, Registry, Handled, Delayed, ConnRefsAgree, Books, Conserved, OwnJobs, Completions, Waiters,
      Attributed, WaiterSound, Owned, LostReason, Wholes, ConnHandled, JobStreams, Transit, DrainOne, Unsettled, Resume, Prepared, Resumed, Take;
    Head(s);
    if s.posted[0].id in s.ongoing {
      DeliveryAttributed(s, decodes);
      var cause := Delivery(s, decodes);
      DeliverShape(s, decodes);
      PreparedResume(s, cause);
      ResumedPosted(s, cause);
      TakeLib(Resumed(s, s.posted[0].id, false, cause));
      AnswerSlot(s, decodes, id);
    } else {
      DiscardShape(s, decodes);
      TakeLib(s);
    }
  }

  lemma AnswerSlot(s: State, decodes: bool, id: Id)
    requires Inv(s) && Deliverable(s)
    ensures SlotIn(Resumed(s, s.posted[0].id, false, Delivery(s, decodes)), id) == SlotNext(SlotIn(s, id), s, DoDrainOne(decodes), id)
  {
    hide Placed, Registry, Delayed, ConnRefsAgree, Books, Conserved, OwnJobs, Completions, Waiters,
      Attributed, WaiterSound, Owned, LostReason, Wholes, ConnHandled, JobStreams, Transit, ConnsAfter, PlaceAfter;
    Kept(s, s.posted[0].id);
  }

  /** Steps that concern no handle and no reference. */
  predicate Unrelated(a: Step) {
    !a.DoDrainOne? && !a.DoRunJob? && !a.DoCloseStream? && !a.DoFinalizeStream?
  }

  lemma UnrelatedSlots(s: State, a: Step)
    requires Inv(s) && Enabled(s, a) && Unrelated(a)
    ensures SameSlots(s, Apply(s, a))
  {
    hide Inv, NewStream, NewStreamRefused, StreamOp, CloseConn, FinalizeConn, FinalizeStream, Launch, Admitted,
      RunJob, MakeCall, CallsLeft, WaitCheck, ThreadEvent, DrainOne, OpTimeout, Abort, Transit, Unlink, OnlyConn, FewerCtxs,
      FrameHolds, FullWire, FreshPtrs, Q.TimerExpire, Q.TimerFire, Q.WaitStart, ResultShape, Offers, Released, Draws;
    if Moving(a) {
      InvWaiter(s);
      MovingFrame(s, a);
    } else {
      match a {
        case DoNewStreamRefused(_, r, x, typ, alloc) => RefusedLib(s, r, x, typ, alloc);
        case DoCloseConn(c) =>
          HandleAllocated(s, c);
          CloseConnEffect(s, c);
        case DoFinalizeConn(c) =>
          HandleAllocated(s, c);
          FinalizeConnEffect(s, c);
        case DoNewStream(co, r, x, typ, req, alloc) =>
          var conns, y, ctx, info, job := NewStreamLaunch(s, co, r, x, typ, req, alloc);
          LaunchLib(s, Apply(s, a), conns, s.streams, co, y, ctx, info, job);
        case DoStreamOp(co, r, x, op) =>
          if Admitted(s, r, x) {
            var streams, ctx, info, job := StreamOpLaunch(s, co, r, x, op);
            LaunchLib(s, Apply(s, a), s.conns, streams, co, x, ctx, info, job);
          } else {
            StreamOpRefused(s, co, r, x, op);
          }
        case DoCall(j) => MakeCallFrame(s, j);
        case DoOpTimeout(co) => TimeoutLib(s, co);
        case DoAbort(co) => AbortForsakes(s, co);
        case _ =>
      }
    }
  }

  lemma SlotStep(s: State, a: Step, id: Id)
    requires Inv(s) && Enabled(s, a)
    ensures SlotIn(Apply(s, a), id) == SlotNext(SlotIn(s, id), s, a, id)
  {
    hide Inv, NewStream, NewStreamRefused, StreamOp, CloseConn, FinalizeConn, FinalizeStream,
      RunJob, MakeCall, CallsLeft, Report, WaitCheck, ThreadEvent, DrainOne, OpTimeout, Abort, Connect, OpOn,
      FrameHolds, FullWire, FreshPtrs, Q.TimerExpire, Q.TimerFire, Q.WaitStart, ResultShape, Offers, SlotIn, SlotNext,
      StreamFinalized, SameSlots;
    match a {
      case DoFinalizeStream(x) =>
        FinalizeStreamEffect(s, x);
        FinalizedSlot(s, Apply(s, a), x, id);
      case DoCloseStream(x) => ClosedSlot(s, x, id);
      case DoRunJob(j, result, err) =>
        RunJobSlot(s, j, result, err, id);
        StoringSlot(s, a, id);
      case DoDrainOne(decodes) => DrainSlot(s, decodes, id);
      case _ =>
        UnrelatedSlots(s, a);
        UnrelatedSlot(s, Apply(s, a), a, id);
    }
  }

  lemma FinalizedSlot(s: State, s': State, x: Id, id: Id)
    requires StreamFinalized(s, s', x)
    ensures SlotIn(s', id) == SlotNext(SlotIn(s, id), s, DoFinalizeStream(x), id)
  {
  }

  lemma ClosedSlot(s: State, x: Id, id: Id)
    ensures SlotIn(CloseStream(s, x), id) == SlotNext(SlotIn(s, id), s, DoCloseStream(x), id)
  {
  }

  lemma StoringSlot(s: State, a: Step, id: Id)
    requires a.DoRunJob? && a.j < |s.ops|
    ensures SlotNext(SlotIn(s, id), s, a, id) ==
            if a.err.None? && s.ops[a.j].op.OpenOp? && s.ops[a.j].id == id then SlotIn(s, id).(stream := Some(a.j)) else SlotIn(s, id)
  {
  }

  lemma UnrelatedSlot(s: State, s': State, a: Step, id: Id)
    requires Unrelated(a) && SameSlots(s, s')
    ensures SlotIn(s', id) == SlotNext(SlotIn(s, id), s, a, id)
  {
  }

  lemma {:induction false} SlotRun(s: State, run: seq<Step>, id: Id)
    requires Inv(s) && Runs(s, run)
    ensures SlotIn(After(s, run), id) == SlotOf(SlotIn(s, id), s, run, id)
    decreases |run|
  {
    hide Inv, Apply, Enabled, SlotIn, SlotNext;
    if run != [] {
      SlotStep(s, run[0], id);
      StepInv(s, run[0]);
      SlotRun(Apply(s, run[0]), run[1..], id);
    }
  }

  // ---------------------------------------------------------------- stream contexts

  /** Who a context belongs to: the request and the stream type it was opened for, its connection,
      and the coroutine of the call under way on it. */
  datatype Owner = Owner(r: Option<Req>, co: Option<Co>, typ: StreamType, c: ConnId)

  function OwnerNext(was: Owner, s: State, a: Step, id: Id): Owner {
    if Takes(s, a, id) then Owner(Some(a.r), if a.DoNewStream? then Some(a.co) else None, a.typ, a.c)
    else if a.DoStreamOp? && a.id == id && Begins(s, a) then was.(co := Some(a.co))
    else if a.DoDrainOne? && s.posted != [] && s.posted[0].id == id && id in s.ongoing then was.(co := None)
    else if a.DoOpTimeout? && CoOf(s, a.co).data == id then was.(co := None)
    else if a == DoFinalizeStream(id) then was.(r := None)
    else was
  }

  function OwnerOf(was: Owner, s: State, run: seq<Step>, id: Id): Owner
    requires Runs(s, run)
    decreases |run|
  {
    if run == [] then was else OwnerOf(OwnerNext(was, s, run[0], id), Apply(s, run[0]), run[1..], id)
  }

  predicate OwnerHolds(s: State, id: Id, who: Owner) {
    id in s.sctxs ==> who == Owner(s.sctxs[id].r, s.sctxs[id].waitCo, s.sctxs[id].typ, s.sctxs[id].parent)
  }

  lemma NewStreamOwner(s: State, a: Step, id: Id, who: Owner)
    requires Inv(s) && Enabled(s, a) && a.DoNewStream? && OwnerHolds(s, id, who)
    ensures OwnerHolds(Apply(s, a), id, OwnerNext(who, s, a, id))
  {
    hide Inv, NewStreamRefused, CloseConn, FinalizeConn, CloseStream, FinalizeStream, StreamOp, NewStream,
      RunJob, MakeCall, CallsLeft, Report, WaitCheck, ThreadEvent, DrainOne, OpTimeout, Abort, CleanId, Transit, Offers;
    var conns, y, ctx, info, job := NewStreamLaunch(s, a.co, a.r, a.c, a.typ, a.req, a.alloc);
    assert Takes(s, a, y);
    assert Apply(s, a).sctxs == s.sctxs[y := ctx];
  }

  lemma StreamOpOwner(s: State, a: Step, id: Id, who: Owner)
    requires Inv(s) && Enabled(s, a) && a.DoStreamOp? && OwnerHolds(s, id, who)
    ensures OwnerHolds(Apply(s, a), id, OwnerNext(who, s, a, id))
  {
    hide Inv, FrameHolds, FreshPtrs, ResultShape, NewStreamRefused, CloseConn, FinalizeConn, CloseStream, FinalizeStream, StreamOp, NewStream,
      RunJob, MakeCall, CallsLeft, Report, WaitCheck, ThreadEvent, DrainOne, OpTimeout, Abort, CleanId, Transit, Offers, Launch, Admitted,
      OwnerHolds, OwnerNext, Begins, FewerCtxs, SameSlots, KickedOn;
    BeginsAdmitted(s, a);
    if Admitted(s, a.r, a.id) {
      var streams, ctx, info, job := StreamOpLaunch(s, a.co, a.r, a.id, a.op);
      LaunchLib(s, Apply(s, a), s.conns, streams, a.co, a.id, ctx, info, job);
      UsedOwner(s, Apply(s, a), a, id, who);
    } else {
      StreamOpRefused(s, a.co, a.r, a.id, a.op);
      SameCtxs(s, Apply(s, a));
      SameOwner(s, Apply(s, a), a, id, who);
    }
  }

  lemma BeginsAdmitted(s: State, a: Step)
    requires Inv(s) && a.DoStreamOp?
    ensures Begins(s, a) <==> Admitted(s, a.r, a.id)
  {
    hide Inv, Admitted;
    AdmittedExact(s, a.r, a.id);
  }

  lemma SameCtxs(s: State, s': State)
    requires s'.sctxs == s.sctxs
    ensures FewerCtxs(s, s')
  {
  }

  lemma UsedOwner(s: State, s': State, a: Step, id: Id, who: Owner)
    requires a.DoStreamOp? && Begins(s, a) && OwnerHolds(s, id, who)
    requires s'.sctxs == s.sctxs[a.id := s.sctxs[a.id].(node := true, timedOut := false, waitCo := Some(a.co))]
    ensures OwnerHolds(s', id, OwnerNext(who, s, a, id))
  {
  }

  /** Contexts that only go change no owner. */
  lemma SameOwner(s: State, s': State, a: Step, id: Id, who: Owner)
    requires OwnerHolds(s, id, who) && FewerCtxs(s, s') && !a.DoNewStream? && !a.DoNewStreamRefused? && !a.DoOpTimeout? && !a.DoFinalizeStream?
    requires a.DoDrainOne? ==> s.posted == [] || s.posted[0].id !in s.ongoing
    requires a.DoStreamOp? ==> !Begins(s, a)
    ensures OwnerHolds(s', id, OwnerNext(who, s, a, id))
  {
    hide Begins;
  }

  lemma ReleasedOwner(s: State, s': State, x: Id, timedOut: bool, a: Step, id: Id, who: Owner)
    requires Released(s, s', x, timedOut) && OwnerHolds(s, id, who)
    requires (a.DoDrainOne? && s.posted != [] && s.posted[0].id == x && x in s.ongoing) || (a.DoOpTimeout? && CoOf(s, a.co).data == x)
    ensures OwnerHolds(s', id, OwnerNext(who, s, a, id))
  {
  }

  lemma ForsakenOwner(s: State, s': State, x: Id, a: Step, id: Id, who: Owner)
    requires Forsaken(s, s', x) && OwnerHolds(s, id, who) && a.DoAbort?
    ensures OwnerHolds(s', id, OwnerNext(who, s, a, id))
  {
  }

  lemma FinalizedOwner(s: State, s': State, x: Id, id: Id, who: Owner)
    requires StreamFinalized(s, s', x) && OwnerHolds(s, id, who)
    ensures OwnerHolds(s', id, OwnerNext(who, s, DoFinalizeStream(x), id))
  {
  }

  lemma ShelvedOwner(s: State, s': State, a: Step, id: Id, who: Owner)
    requires a.DoNewStreamRefused? && Shelved(s, s', a.r, a.c, a.typ, a.alloc) && OwnerHolds(s, id, who)
    ensures OwnerHolds(s', id, OwnerNext(who, s, a, id))
  {
  }

  /** The three ways an operation ends. */
  lemma EndOwner(s: State, a: Step, id: Id, who: Owner)
    requires Inv(s) && Enabled(s, a) && OwnerHolds(s, id, who) && (a.DoDrainOne? || a.DoOpTimeout? || a.DoAbort?)
    ensures OwnerHolds(Apply(s, a), id, OwnerNext(who, s, a, id))
  {
    hide Inv, NewStream, NewStreamRefused, StreamOp, CloseConn, FinalizeConn, CloseStream, FinalizeStream, OwnerHolds, OwnerNext,
      RunJob, MakeCall, CallsLeft, Report, WaitCheck, ThreadEvent, DrainOne, OpTimeout, Abort, Begins, Released, Forsaken,
      FewerCtxs, Connect, SameSlots, FrameHolds, FullWire, FreshPtrs, ResultShape, Offers;
    var s' := Apply(s, a);
    match a {
      case DoDrainOne(decodes) =>
        DrainLib(s, decodes);
        if s.posted[0].id in s.ongoing {
          ReleasedOwner(s, s', s.posted[0].id, false, a, id, who);
        } else {
          SameCtxs(s, s');
          SameOwner(s, s', a, id, who);
        }
      case DoOpTimeout(co) =>
        TimeoutLib(s, co);
        ReleasedOwner(s, s', CoOf(s, co).data, true, a, id, who);
      case DoAbort(co) =>
        AbortForsakes(s, co);
        ForsakenOwner(s, s', CoOf(s, co).data, a, id, who);
    }
  }

  lemma OwnerStep(s: State, a: Step, id: Id, who: Owner)
    requires Inv(s) && Enabled(s, a) && OwnerHolds(s, id, who)
    ensures OwnerHolds(Apply(s, a), id, OwnerNext(who, s, a, id))
  {
    hide Inv, NewStream, NewStreamRefused, StreamOp, CloseConn, FinalizeConn, CloseStream, FinalizeStream, OwnerHolds, OwnerNext,
      RunJob, MakeCall, CallsLeft, Report, WaitCheck, ThreadEvent, DrainOne, OpTimeout, Abort, Transit, Begins, Shelved,
      StreamFinalized, FewerCtxs, Connect, FrameHolds, FullWire, FreshPtrs, Q.TimerExpire, Q.TimerFire, Q.WaitStart, ResultShape, Offers;
    var s' := Apply(s, a);
    if Moving(a) {
      InvWaiter(s);
      MovingFrame(s, a);
      SameCtxs(s, s');
      SameOwner(s, s', a, id, who);
    } else if a.DoDrainOne? || a.DoOpTimeout? || a.DoAbort? {
      EndOwner(s, a, id, who);
    } else {
      match a {
        case DoNewStreamRefused(_, r, x, typ, alloc) =>
          RefusedLib(s, r, x, typ, alloc);
          ShelvedOwner(s, s', a, id, who);
        case DoFinalizeStream(x) =>
          FinalizeStreamEffect(s, x);
          FinalizedOwner(s, s', x, id, who);
        case DoNewStream(_, _, _, _, _, _) => NewStreamOwner(s, a, id, who);
        case DoStreamOp(_, _, _, _) => StreamOpOwner(s, a, id, who);
        case _ =>
          OtherCtxs(s, a);
          SameOwner(s, s', a, id, who);
      }
    }
  }

  lemma OtherCtxs(s: State, a: Step)
    requires Inv(s) && Enabled(s, a)
    requires a.DoConnect? || a.DoCloseConn? || a.DoFinalizeConn? || a.DoCloseStream? || a.DoCall? || a.DoRunJob? || a.DoReport?
    ensures FewerCtxs(s, Apply(s, a))
  {
    hide Inv, NewStream, NewStreamRefused, StreamOp, CloseConn, FinalizeConn, FinalizeStream, WaitCheck, ThreadEvent, DrainOne, OpTimeout, Abort,
      RunJob, MakeCall, CallsLeft, FullWire, ResultShape, FrameHolds, FewerCtxs, OnlyConn, FreshPtrs, Offers;
    match a {
      case DoCall(j) => MakeCallFrame(s, j);
      case DoRunJob(j, result, err) => RunJobFrame(s, j, result, err);
      case DoCloseConn(c) =>
        HandleAllocated(s, c);
        CloseConnEffect(s, c);
      case DoFinalizeConn(c) =>
        HandleAllocated(s, c);
        FinalizeConnEffect(s, c);
      case _ =>
    }
    if !a.DoFinalizeConn? {
      SameCtxs(s, Apply(s, a));
    }
  }

  lemma {:induction false} OwnerRun(s: State, run: seq<Step>, id: Id, who: Owner)
    requires Inv(s) && Runs(s, run) && OwnerHolds(s, id, who)
    ensures OwnerHolds(After(s, run), id, OwnerOf(who, s, run, id))
    decreases |run|
  {
    hide Inv, Apply, Enabled, OwnerHolds, OwnerNext;
    if run != [] {
      OwnerStep(s, run[0], id, who);
      StepInv(s, run[0]);
      OwnerRun(Apply(s, run[0]), run[1..], id, OwnerNext(who, s, run[0], id));
    }
  }

  // ---------------------------------------------------------------- admission

  /** The stream types whose handles have the method. */
  predicate HasMethod(typ: StreamType, op: Op) {
    match op
    case RecvOp => !typ.Unary?
    case SendOp(_) => typ.ClientStream? || typ.BidirectionalStream?
    case CloseSendOp => typ.BidirectionalStream?
    case _ => false
  }

  lemma Callable(s: State, co: Co, r: Req, id: Id, op: Op)
    requires Inv(s)
    ensures id in s.handles ==> id in s.sctxs
    ensures Enabled(s, DoStreamOp(co, r, id, op)) <==>
            && s.faults == {} && CoOf(s, co).run.Running? && id in s.handles && s.handles[id]
            && HasMethod(s.sctxs[id].typ, op)
  {
    hide Placed, Registry, Waiters, Delayed, ConnRefsAgree, Books, Conserved, OwnJobs, Completions,
      Attributed, WaiterSound, Owned, LostReason, Wholes, ConnHandled, JobStreams, FrameHolds, FreshPtrs, ResultShape, CallsLeft;
  }

  lemma Admits(s: State, a: Step)
    requires Inv(s) && Enabled(s, a) && a.DoStreamOp? && a.id in s.sctxs && s.faults == {}
    ensures Begins(s, a) ==> |Apply(s, a).ops| == |s.ops| + 1 && Starts(a, Apply(s, a).ops[|s.ops|])
    ensures !Begins(s, a) ==> Apply(s, a) == s.(faults := Apply(s, a).faults)
    ensures Apply(s, a).faults != {} <==>
            s.sctxs[a.id].r == Some(a.r) && s.sctxs[a.id].waitCo.None? && a.id !in s.streamRefs
  {
    hide Inv, FrameHolds, FreshPtrs, ResultShape, NewStreamRefused, CloseConn, FinalizeConn, CloseStream, FinalizeStream, StreamOp, NewStream,
      RunJob, MakeCall, CallsLeft, Report, WaitCheck, ThreadEvent, DrainOne, OpTimeout, Abort, CleanId, Transit, Offers, Launch, Admitted;
    AdmittedExact(s, a.r, a.id);
    if Admitted(s, a.r, a.id) {
      var streams, ctx, info, job := StreamOpLaunch(s, a.co, a.r, a.id, a.op);
      LaunchedOps(s, Apply(s, a), s.conns, streams, a.co, a.id, ctx, info, job);
      LaunchedInfo(s, Apply(s, a), streams, a.co, a.id, ctx, info, job);
    } else {
      StreamOpRefused(s, a.co, a.r, a.id, a.op);
      RefusedFaults(s, a.co, a.r, a.id, a.op);
    }
  }

  lemma LaunchedInfo(s: State, s': State, streams: map<JobId, Stream>, co: Co, id: Id, ctx: StreamCtx, info: OpInfo, job: Job)
    requires Launch(s, s', s.conns, streams, co, id, ctx, info, job)
    ensures info.id == id && info.co == co && info.op == job.op
  {
    hide CleanId;
  }

  lemma RefusedFaults(s: State, co: Co, r: Req, id: Id, op: Op)
    requires Inv(s) && id in s.sctxs && !Admitted(s, r, id) && s.faults == {}
    ensures StreamOp(s, co, r, id, op).faults != {} <==> s.sctxs[id].r == Some(r) && s.sctxs[id].waitCo.None? && id !in s.streamRefs
  {
    hide Inv, Admitted;
    AdmittedExact(s, r, id);
    if StreamReady(s.sctxs[id], r) {
      assert StreamOp(s, co, r, id, op) == Crash(s, MissingRef);
    } else {
      assert StreamOp(s, co, r, id, op) == s;
    }
  }
}
