/** Library steps and kick-offs keep runs orderly. */
module OrderlyLibrary {
  import opened Base
  import opened Buffers
  import opened Machine
  import opened Invariants
  import opened Placement
  import opened KickOffs
  import opened Destruction
  import opened Frames
  import opened Undisturbed
  import opened Orderly
  import Q = FinishedQueue

  // ---------------------------------------------------------------- steps that only take away

  /** Registered and lost contexts stay; handles and references only disappear, and an entry
      leaves `StreamRef` only together with the handle that resolved to it. */
  ghost predicate Trimmed(s: State, s': State) {
    && (forall id :: id in s.ongoing && id in s.sctxs ==> id in s'.sctxs && s'.sctxs[id] == s.sctxs[id])
    && (forall id :: id in s.sctxs && s.sctxs[id].place.Lost? ==> id in s'.sctxs && s'.sctxs[id] == s.sctxs[id])
    && (forall id :: id in s'.handles ==>
          && id in s.handles && (s'.handles[id] ==> s.handles[id] && (id in s.streamRefs ==> id in s'.streamRefs))
          && (s.handles[id] && !s'.handles[id] ==> id !in s'.streamRefs)
          && (id in s.sctxs ==> id in s'.sctxs && s'.sctxs[id] == s.sctxs[id]))
    && (forall id :: id in s'.streamRefs ==> id in s.streamRefs && s'.streamRefs[id] == s.streamRefs[id])
    && (forall id :: id in s.streamRefs && id !in s'.streamRefs ==> id in s.handles)
    && (forall id :: id in s.handles && id in s'.streamRefs ==> id in s'.handles)
  }

  /** An awaited opening's context is pending, so no handle owns it. */
  lemma PendingUnhandled(s: State, j: JobId)
    requires Waiters(s.ongoing, s.sctxs, s.cos, s.ops) && Handled(s.handles, s.sctxs)
    requires j < |s.ops| && Awaited(s.cos, s.ops, j)
    ensures s.ops[j].id in s.ongoing && s.ops[j].id in s.sctxs
    ensures s.ops[j].op.OpenOp? ==> s.sctxs[s.ops[j].id].place.Pending? && s.ops[j].id !in s.handles
  {
    assert CoSound(s.ongoing, s.sctxs, s.ops[j].co, s.cos[s.ops[j].co], s.ops);
  }

  lemma TrimStored(s: State, s': State)
    requires Waiters(s.ongoing, s.sctxs, s.cos, s.ops) && Handled(s.handles, s.sctxs) && Books(s.jobs, s.ops, s.reported)
    requires Stored(s.ops, s.jobs, Transit(s), s.cos, s.sctxs, s.streamRefs, s.streams) && Trimmed(s, s')
    ensures Stored(s.ops, s.jobs, Transit(s), s.cos, s'.sctxs, s'.streamRefs, s.streams)
  {
    hide Transit;
    forall j | j in s.jobs && j < |s.ops| && s.jobs[j].op.OpenOp? && Awaited(s.cos, s.ops, j)
      ensures s.jobs[j].id in s'.sctxs && s'.sctxs[s.jobs[j].id].typ == s.jobs[j].typ
    {
      assert JobSound(j, s.jobs[j], s.ops);
      PendingUnhandled(s, j);
    }
    forall t | Known(s.jobs, Transit(s), t) && t.job < |s.ops| && s.ops[t.job].op.OpenOp? && Awaited(s.cos, s.ops, t.job) && t.err.None?
      ensures StoredAs(s.ops[t.job].id, t.job, s'.sctxs, s'.streamRefs, s.streams)
    {
      PendingUnhandled(s, t.job);
      assert StoredAs(s.ops[t.job].id, t.job, s.sctxs, s.streamRefs, s.streams);
    }
  }

  lemma TrimResolves(s: State, s': State)
    requires Resolves(s.handles, s.sctxs, s.streamRefs, s.streams) && Trimmed(s, s')
    ensures Resolves(s'.handles, s'.sctxs, s'.streamRefs, s.streams)
  {
    forall id | id in s'.handles && s'.handles[id]
      ensures id in s'.streamRefs && StoredAs(id, s'.streamRefs[id], s'.sctxs, s'.streamRefs, s.streams)
    {
      assert StoredAs(id, s.streamRefs[id], s.sctxs, s.streamRefs, s.streams);
    }
  }

  lemma TrimRest(s: State, s': State)
    requires Opens(s.ops, s.jobs, Transit(s), s.cos, s.sctxs) && Closing(s.events, s.ops, s.streams, s.streamRefs) && Trimmed(s, s')
    ensures Opens(s.ops, s.jobs, Transit(s), s.cos, s'.sctxs)
    ensures Closing(s.events, s.ops, s.streams, s'.streamRefs)
  {
    hide Transit;
  }

  lemma TrimOrder(s: State, s': State)
    requires Inv(s) && OrderInv(s) && SamePath(s, s') && Transit(s') == Transit(s) && Trimmed(s, s') && s'.faults == {}
    ensures OrderInv(s')
  {
    hide Placed, Registry, Waiters, Handled, Delayed, ConnRefsAgree, Books, Conserved, OwnJobs, Completions,
      Attributed, WaiterSound, Owned, LostReason, Wholes, ConnHandled, JobStreams, Transit, Trimmed,
      AllClean, OnePerId, Latest, Opens, Stored, Resolves, Closing;
    TrimStored(s, s');
    TrimResolves(s, s');
    TrimRest(s, s');
  }

  // ---------------------------------------------------------------- each library step trims

  /** Replacing or dropping contexts that are free, or new. */
  lemma TrimFree(s: State, s': State, ids: set<Id>)
    requires Registry(s.ongoing, s.ongoingNum, s.sctxs) && Handled(s.handles, s.sctxs)
    requires s'.handles == s.handles && s'.streamRefs == s.streamRefs
    requires forall id :: id in ids && id in s.sctxs ==> s.sctxs[id].place.Free?
    requires forall id :: id in s.sctxs && id !in ids ==> id in s'.sctxs && s'.sctxs[id] == s.sctxs[id]
    ensures Trimmed(s, s')
  {
    forall id | id in s.ongoing ensures id !in ids {
      assert KeptPlace(s.sctxs[id]);
    }
  }

  lemma RefusedTrim(s: State, r: Req, c: ConnId, typ: StreamType, alloc: Id)
    requires Inv(s) && c in s.connHandles && s.connHandles[c] && alloc !in s.sctxs
    ensures Trimmed(s, NewStreamRefused(s, r, c, typ, alloc))
    ensures NewStreamRefused(s, r, c, typ, alloc).faults == s.faults
  {
    hide Placed, Registry, Waiters, Handled, Delayed, ConnRefsAgree, Books, Conserved, OwnJobs, Completions,
      Attributed, WaiterSound, Owned, LostReason, Wholes, ConnHandled, JobStreams, NewStreamRefused, Trimmed;
    PickedIdle(s, c, alloc);
    var (id, rest) := PickCtx(s.conns[c], alloc);
    NewStreamRefusedShape(s, r, c, typ, alloc, id, rest);
    TrimFree(s, NewStreamRefused(s, r, c, typ, alloc), {id});
  }

  lemma CloseConnTrim(s: State, c: ConnId)
    requires Inv(s) && c in s.connHandles
    ensures Trimmed(s, CloseConn(s, c)) && CloseConn(s, c).faults == s.faults
  {
    hide Placed, Registry, Waiters, Handled, Delayed, ConnRefsAgree, Books, Conserved, OwnJobs, Completions,
      Attributed, WaiterSound, Owned, LostReason, Wholes, JobStreams, Trimmed;
    TrimFree(s, CloseConn(s, c), {});
  }

  lemma FinalizeConnTrim(s: State, c: ConnId)
    requires Inv(s) && c in s.connHandles
    ensures Trimmed(s, FinalizeConn(s, c))
    ensures FinalizeConn(s, c).faults == s.faults
  {
    hide Placed, Registry, Waiters, Handled, Delayed, ConnRefsAgree, Books, Conserved, OwnJobs, Completions,
      Attributed, WaiterSound, Owned, LostReason, Wholes, JobStreams, FreeConn, Trimmed;
    var s0 := s.(connHandles := s.connHandles - {c});
    CoreHandles(s, s0.connHandles);
    UnlinkCore(s0, c);
    var s1 := Unlink(s0, c);
    FreeConnShape(s1, c);
    if s1.conns[c].opening != [] {
      TrimFree(s, FinalizeConn(s, c), {});
    } else {
      assert FinalizeConn(s, c) == FreeConn(s1, c);
      TrimFree(s, FreeConn(s1, c), Elements(s.conns[c].free));
    }
  }

  lemma CloseStreamTrim(s: State, id: Id)
    requires id in s.handles
    ensures Trimmed(s, CloseStream(s, id))
  {
  }

  lemma ShelveTrim(s: State, id: Id, delayed: bool)
    requires Registry(s.ongoing, s.ongoingNum, s.sctxs) && Handled(s.handles, s.sctxs)
    requires id in s.handles && id !in s.ongoing && id in s.sctxs && s.sctxs[id].parent in s.conns
    ensures Trimmed(s, Shelve(s, id, delayed))
  {
    hide Remove;
  }

  lemma TrimAgain(s: State, s1: State, s2: State)
    requires Trimmed(s, s1) && Trimmed(s1, s2) && s1.ongoing == s.ongoing && Waiters(s.ongoing, s.sctxs, s.cos, s.ops)
    requires Handled(s.handles, s.sctxs)
    ensures Trimmed(s, s2)
  {
  }

  lemma FinalizeStreamTrim(s: State, id: Id)
    requires Inv(s) && id in s.handles && id !in s.ongoing
    ensures Trimmed(s, FinalizeStream(s, id))
    ensures FinalizeStream(s, id).faults == s.faults
  {
    hide Placed, Registry, Waiters, Handled, Delayed, ConnRefsAgree, Books, Conserved, OwnJobs, Completions,
      Attributed, WaiterSound, Owned, LostReason, Wholes, ConnHandled, JobStreams, FreeConn, Trimmed, FinalizeStream, Remove;
    HandleParent(s, id);
    FinalizeStreamShape(s, id);
    var c := s.sctxs[id].parent;
    var s1 := Shelve(s, id, s.conns[c].freeDelayed);
    ShelveTrim(s, id, s.conns[c].freeDelayed);
    if s1.conns[c].freeDelayed && s1.conns[c].opening == [] {
      ShelvePlaced(s, id, true);
      FreeConnShape(s1, c);
      ShelveCore(s, id, false);
      TrimFree(s1, FreeConn(s1, c), Elements(s1.conns[c].free));
      TrimAgain(s, s1, FreeConn(s1, c));
    }
  }

  lemma AsideOrder(s: State, a: Step)
    requires Inv(s) && OrderInv(s) && Enabled(s, a) && Aside(a)
    ensures OrderInv(Apply(s, a))
  {
    AsideFrame(s, a);
    AsideTrim(s, a);
    hide Inv, OrderInv, Apply, Enabled, Transit, Trimmed, SamePath;
    TrimOrder(s, Apply(s, a));
  }

  lemma AsideTrim(s: State, a: Step)
    requires Inv(s) && Enabled(s, a) && Aside(a)
    ensures Trimmed(s, Apply(s, a)) && Apply(s, a).faults == {}
  {
    hide Placed, Waiters, Delayed, ConnRefsAgree, Books, Conserved, OwnJobs, Completions, Registry, Handled,
      Attributed, WaiterSound, Owned, LostReason, Wholes, ConnHandled, JobStreams, Trimmed, Transit,
      NewStream, NewStreamRefused, StreamOp, CloseConn, FinalizeConn, FinalizeStream, RunJob, MakeCall, CallsLeft, Report, WaitCheck, ThreadEvent,
      DrainOne, OpTimeout, Abort, FrameHolds, FullWire, FreshPtrs, ResultShape;
    match a {
      case DoConnect(_, _) => TrimFree(s, Apply(s, a), {});
      case DoCloseConn(c) => CloseConnTrim(s, c);
      case DoNewStreamRefused(_, r, c, typ, alloc) => RefusedTrim(s, r, c, typ, alloc);
      case DoFinalizeConn(c) => FinalizeConnTrim(s, c);
      case DoCloseStream(id) => CloseStreamTrim(s, id);
      case DoFinalizeStream(id) => FinalizeStreamTrim(s, id);
      case _ =>
    }
  }
}
