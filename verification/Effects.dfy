/** What each step does to connections, contexts, handles and references. */
module Effects {
  import opened Base
  import opened Buffers
  import opened Machine
  import opened Invariants
  import opened KickOffs
  import opened Destruction
  import opened Completion
  import opened Draining
  import opened Engine
  import opened Frames
  import opened Reachability
  import opened Undisturbed
  import opened Attribution
  import Q = FinishedQueue

  /** Connections may go, none changes but `c`. */
  predicate OnlyConn(s: State, s': State, c: ConnId) {
    forall x :: x in s'.conns ==> x in s.conns && (x != c ==> s'.conns[x] == s.conns[x])
  }

  /** Contexts may go, none changes but `id`. */
  predicate OnlyCtx(s: State, s': State, id: Id) {
    forall x :: x in s'.sctxs ==> x in s.sctxs && (x != id ==> s'.sctxs[x] == s.sctxs[x])
  }

  /** Contexts may go, none changes. */
  predicate FewerCtxs(s: State, s': State) {
    forall x :: x in s'.sctxs ==> x in s.sctxs && s'.sctxs[x] == s.sctxs[x]
  }

  predicate SameSlots(s: State, s': State) {
    s'.handles == s.handles && s'.streamRefs == s.streamRefs
  }

  predicate ConnFreed(s: State, s': State, c: ConnId) {
    && OnlyConn(s, s', c) && FewerCtxs(s, s') && SameSlots(s, s') && s'.connHandles == s.connHandles
    && (c in s'.conns ==> c in s.conns && s'.conns[c] == s.conns[c])
  }

  lemma FreeConnEffect(s: State, c: ConnId)
    requires c in s.conns
    ensures ConnFreed(s, FreeConn(s, c), c)
  {
    hide Releasable, Elements, ConnFreed;
    if Releasable(s.sctxs, s.conns[c].free) {
      assert FreeConn(s, c) == s.(sctxs := s.sctxs - Elements(s.conns[c].free), conns := s.conns - {c});
      Freed(s, c, Elements(s.conns[c].free));
    } else {
      assert FreeConn(s, c) == Crash(s, DoubleFree);
      CrashFrees(s, c);
    }
  }

  lemma Freed(s: State, c: ConnId, gone: set<Id>)
    ensures ConnFreed(s, s.(sctxs := s.sctxs - gone, conns := s.conns - {c}), c)
  {
  }

  lemma CrashFrees(s: State, c: ConnId)
    ensures ConnFreed(s, Crash(s, DoubleFree), c)
  {
  }

  lemma UnlinkEffect(s: State, c: ConnId)
    requires c in s.conns
    ensures Unlink(s, c) == s.(connRefs := Unlink(s, c).connRefs, conns := s.conns[c := s.conns[c].(engine := None)])
  {
  }

  lemma CloseConnEffect(s: State, c: ConnId)
    requires c in s.conns
    ensures CloseConn(s, c) == s.(connHandles := s.connHandles[c := false], connRefs := CloseConn(s, c).connRefs,
                                  conns := s.conns[c := s.conns[c].(engine := None)])
  {
    hide Unlink;
    UnlinkEffect(s.(connHandles := s.connHandles[c := false]), c);
  }

  predicate ConnFinalized(s: State, s': State, c: ConnId) {
    && OnlyConn(s, s', c) && FewerCtxs(s, s') && SameSlots(s, s') && s'.connHandles == s.connHandles - {c}
    && (c in s'.conns ==> c in s.conns && s'.conns[c].engine.None? && s'.conns[c].free == s.conns[c].free)
  }

  lemma FinalizeConnEffect(s: State, c: ConnId)
    requires c in s.conns
    ensures ConnFinalized(s, FinalizeConn(s, c), c)
  {
    hide Unlink, FreeConn, ConnFreed, ConnFinalized;
    var s0 := s.(connHandles := s.connHandles - {c});
    var s1 := Unlink(s0, c);
    UnlinkEffect(s0, c);
    if s1.conns[c].opening == [] {
      FreeConnEffect(s1, c);
      FinalizedFreed(s, s1, FinalizeConn(s, c), c);
    } else {
      FinalizedLater(s, s1, c);
    }
  }

  lemma FinalizedFreed(s: State, s1: State, s': State, c: ConnId)
    requires c in s.conns && ConnFreed(s1, s', c)
    requires s1 == s.(connHandles := s.connHandles - {c}, connRefs := s1.connRefs, conns := s.conns[c := s.conns[c].(engine := None)])
    ensures ConnFinalized(s, s', c)
  {
  }

  lemma FinalizedLater(s: State, s1: State, c: ConnId)
    requires c in s.conns
    requires s1 == s.(connHandles := s.connHandles - {c}, connRefs := s1.connRefs, conns := s.conns[c := s.conns[c].(engine := None)])
    ensures ConnFinalized(s, s1.(conns := s1.conns[c := s1.conns[c].(freeDelayed := true)]), c)
  {
  }

  predicate StreamFinalized(s: State, s': State, id: Id) {
    && id in s.sctxs && s.sctxs[id].parent in s.conns
    && var c := s.sctxs[id].parent;
       && OnlyConn(s, s', c) && OnlyCtx(s, s', id) && s'.connHandles == s.connHandles
       && s'.handles == s.handles - {id} && s'.streamRefs == s.streamRefs - {id}
       && (c in s'.conns ==> s'.conns[c].engine == s.conns[c].engine && s'.conns[c].free == [id] + s.conns[c].free)
       && (id in s'.sctxs ==> s'.sctxs[id] == s.sctxs[id].(r := None, place := Free))
  }

  lemma FinalizeStreamEffect(s: State, id: Id)
    requires Inv(s) && id in s.handles
    ensures StreamFinalized(s, FinalizeStream(s, id), id)
  {
    hide Inv, FreeConn, Remove, FinalizeStream;
    LiveParent(s, id);
    FinalizeStreamShape(s, id);
    var c := s.sctxs[id].parent;
    var s1 := Shelve(s, id, s.conns[c].freeDelayed);
    FreeConnEffect(s1, c);
    FreeConnFrame(s1, c);
  }

  lemma LiveParent(s: State, id: Id)
    requires Inv(s) && id in s.handles
    ensures id in s.sctxs && s.sctxs[id].parent in s.conns
  {
    hide Registry, Waiters, Delayed, ConnRefsAgree, Books, Conserved, OwnJobs, Completions,
      Attributed, WaiterSound, Owned, LostReason, Wholes, JobStreams, ConnHandled, Placed, Handled;
    HandleParent(s, id);
  }

  /** A context is released by the end of its operation; a unary one is put at the head of its
      connection's free queue, and no other queue changes. */
  predicate Released(s: State, s': State, id: Id, timedOut: bool) {
    && id in s.sctxs && id in s'.sctxs && s'.sctxs == s.sctxs[id := s'.sctxs[id]]
    && s'.sctxs[id] == s.sctxs[id].(node := false, timedOut := timedOut, waitCo := None, place := s'.sctxs[id].place)
    && s'.connHandles == s.connHandles && s'.conns.Keys == s.conns.Keys
    && forall c :: c in s.conns ==> s'.conns[c] == s.conns[c].(
         free := if s.sctxs[id].typ.Unary? && s.sctxs[id].parent == c then [id] + s.conns[c].free else s.conns[c].free)
  }

  lemma ResumedReleases(s: State, id: Id, timedOut: bool, cause: Cause)
    requires id in s.sctxs && s.sctxs[id].waitCo.Some? && s.sctxs[id].waitCo.value in s.cos
    requires s.cos[s.sctxs[id].waitCo.value].run.Waiting? && s.cos[s.sctxs[id].waitCo.value].run.op < |s.ops|
    requires s.sctxs[id].typ.Unary? ==> s.sctxs[id].parent in s.conns
    ensures Released(s, Resumed(s, id, timedOut, cause), id, timedOut)
  {
    hide PlaceAfter, Succeeded;
  }

  /** Nothing of the library is touched. */
  predicate SameLib(s: State, s': State) {
    s'.conns == s.conns && s'.connHandles == s.connHandles && s'.sctxs == s.sctxs && SameSlots(s, s')
  }

  lemma TakeLib(s: State)
    requires s.posted != []
    ensures SameLib(s, Take(s))
  {
  }

  /** What draining a record does to connections and contexts. */
  lemma DrainLib(s: State, decodes: bool)
    requires Inv(s) && s.posted != []
    ensures s.posted[0].id !in s.ongoing ==> SameLib(s, DrainOne(s, decodes))
    ensures s.posted[0].id in s.ongoing ==> Released(s, DrainOne(s, decodes), s.posted[0].id, false)
  {
    hide Placed, Registry, Handled, Delayed, ConnRefsAgree, Books, Conserved, OwnJobs, Completions, Waiters, SameLib, Released,
      Attributed, WaiterSound, Owned, LostReason, Wholes, ConnHandled, JobStreams, Transit, DrainOne, Unsettled, Resume, Prepared, Resumed, Take,
      Delivery;
    Head(s);
    if s.posted[0].id in s.ongoing {
      DeliveryAttributed(s, decodes);
      var cause := Delivery(s, decodes);
      DeliverShape(s, decodes);
      PreparedResume(s, cause);
      ResumedReleases(s, s.posted[0].id, false, cause);
      ResumedPosted(s, cause);
      TakeLib(Resumed(s, s.posted[0].id, false, cause));
      ReleasedSame(s, Resumed(s, s.posted[0].id, false, cause), DrainOne(s, decodes), s.posted[0].id, false);
    } else {
      DiscardShape(s, decodes);
      TakeLib(s);
    }
  }

  lemma ReleasedSame(s: State, s1: State, s2: State, id: Id, timedOut: bool)
    requires Released(s, s1, id, timedOut) && SameLib(s1, s2)
    ensures Released(s, s2, id, timedOut)
  {
  }

  lemma ResumedPosted(s: State, cause: Cause)
    requires Deliverable(s)
    ensures Resumed(s, s.posted[0].id, false, cause).posted == s.posted
  {
    hide PlaceAfter, ConnsAfter, Succeeded;
  }

  lemma TimeoutLib(s: State, co: Co)
    requires Inv(s) && CoOf(s, co).timer
    ensures Released(s, OpTimeout(s, co), CoOf(s, co).data, true) && SameSlots(s, OpTimeout(s, co))
  {
    hide Placed, Registry, Handled, Delayed, ConnRefsAgree, Books, Conserved, OwnJobs, Completions, Waiters, Released,
      Attributed, WaiterSound, Owned, LostReason, Wholes, ConnHandled, JobStreams, OpTimeout, ConnsAfter, PlaceAfter;
    WaitingKept(s, co);
    Kept(s, s.cos[co].data);
    OpTimeoutShape(s, co);
    ResumedReleases(s, s.cos[co].data, true, Timeout);
  }

  /** An aborted coroutine stays the context's waiter: the context remains busy. */
  predicate Forsaken(s: State, s': State, id: Id) {
    && id in s.sctxs && id in s'.sctxs && s'.sctxs == s.sctxs[id := s'.sctxs[id]]
    && s'.sctxs[id] == s.sctxs[id].(node := false, place := s'.sctxs[id].place)
    && s'.connHandles == s.connHandles && s'.conns == s.conns && SameSlots(s, s')
  }

  lemma AbortForsakes(s: State, co: Co)
    requires Inv(s) && CoOf(s, co).cleanup
    ensures Forsaken(s, Abort(s, co), CoOf(s, co).data)
  {
    hide Placed, Registry, Handled, Delayed, ConnRefsAgree, Books, Conserved, OwnJobs, Completions, Waiters,
      Attributed, WaiterSound, Owned, LostReason, Wholes, ConnHandled, JobStreams;
    WaitingKept(s, co);
  }

  /** The launch of an operation, seen from the library. */
  lemma LaunchLib(s: State, s': State, conns: map<ConnId, Conn>, streams: map<JobId, Stream>,
                  co: Co, id: Id, ctx: StreamCtx, info: OpInfo, job: Job)
    requires Launch(s, s', conns, streams, co, id, ctx, info, job)
    ensures s'.conns == conns && s'.connHandles == s.connHandles && s'.sctxs == s.sctxs[id := ctx] && SameSlots(s, s')
  {
    hide CleanId;
  }

  lemma HandleAllocated(s: State, c: ConnId)
    requires Inv(s) && c in s.connHandles
    ensures c in s.conns
  {
    hide Placed, Registry, Waiters, Handled, Delayed, ConnRefsAgree, Books, Conserved, OwnJobs, Completions,
      Attributed, WaiterSound, Owned, LostReason, Wholes, JobStreams;
  }

  /** The context `new_stream` takes: the one at the tail of the free queue, or a new one. */
  predicate Takes(s: State, a: Step, id: Id) {
    && (a.DoNewStream? || a.DoNewStreamRefused?) && a.c in s.conns
    && id == if s.conns[a.c].free == [] then a.alloc else s.conns[a.c].free[|s.conns[a.c].free| - 1]
  }

  /** A refused `new_stream`: the context it took goes to the head of the free queue. */
  predicate Shelved(s: State, s': State, r: Req, c: ConnId, typ: StreamType, alloc: Id) {
    && c in s.conns && SameSlots(s, s') && s'.connHandles == s.connHandles
    && var f := s.conns[c].free;
       var id := if f == [] then alloc else f[|f| - 1];
       && s'.conns == s.conns[c := s.conns[c].(free := [id] + if f == [] then [] else f[..|f| - 1])]
       && s'.sctxs == s.sctxs[id := StreamCtx(Some(r), None, false, false, c, typ, Free)]
  }

  lemma RefusedLib(s: State, r: Req, c: ConnId, typ: StreamType, alloc: Id)
    requires Inv(s) && c in s.connHandles && s.connHandles[c] && alloc !in s.sctxs
    ensures Shelved(s, NewStreamRefused(s, r, c, typ, alloc), r, c, typ, alloc)
  {
    hide Placed, Registry, Waiters, Handled, Delayed, ConnRefsAgree, Books, Conserved, OwnJobs, Completions,
      Attributed, WaiterSound, Owned, LostReason, Wholes, ConnHandled, JobStreams, NewStreamRefused;
    PickedIdle(s, c, alloc);
    var (id, rest) := PickCtx(s.conns[c], alloc);
    NewStreamRefusedShape(s, r, c, typ, alloc, id, rest);
  }
}
