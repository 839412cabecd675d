/** Closing and finalizing connections and streams keeps the invariant. */
module Destruction {
  import opened Base
  import opened Buffers
  import opened Machine
  import opened Invariants
  import opened Placement
  import opened Registration
  import opened Flow
  import opened StreamObjects
  import Q = FinishedQueue

  lemma ConnectInv(s: State, c: ConnId, e: Ref)
    requires Inv(s) && c !in s.conns && e !in s.connRefs
    ensures Inv(Connect(s, c, e))
  {
    hide Placed, Registry, Waiters, Handled, Delayed, ConnRefsAgree, Books, Conserved, OwnJobs, Completions,
      Attributed, WaiterSound, Owned, LostReason, Wholes, JobStreams;
    var conn := Conn(Some(e), [], [], false);
    PlacedConnect(s.conns, s.sctxs, c, conn);
    DelayedFlags(s.conns, s.sctxs, c, conn);
    RefsConnect(s.conns, s.connRefs, c, e, conn);
    ConservedSame(s, Connect(s, c, e));
  }

  /** What the core says about connections. */
  lemma CoreParts(s: State)
    requires Core(s)
    ensures Placed(s.conns, s.sctxs) && Delayed(s.conns, s.sctxs) && ConnRefsAgree(s.conns, s.connRefs)
    ensures Handled(s.handles, s.sctxs)
  {
  }

  lemma CoreLinks(s: State, conns: map<ConnId, Conn>, connRefs: map<Ref, ConnId>)
    requires Core(s) && Placed(conns, s.sctxs) && Delayed(conns, s.sctxs) && ConnRefsAgree(conns, connRefs)
    ensures Core(s.(conns := conns, connRefs := connRefs))
  {
    hide Placed, Registry, Waiters, Handled, Delayed, ConnRefsAgree, Books, Conserved, OwnJobs, Completions,
      Attributed, WaiterSound, Owned, LostReason, Wholes, JobStreams;
    ConservedSame(s, s.(conns := conns, connRefs := connRefs));
  }

  /** Closing the engine connection, whatever happens to the handle. */
  lemma UnlinkCore(s: State, c: ConnId)
    requires Core(s) && c in s.conns
    ensures Core(Unlink(s, c))
  {
    hide Core, Placed, Delayed, ConnRefsAgree;
    CoreParts(s);
    var conn := s.conns[c].(engine := None);
    PlacedFlags(s.conns, s.sctxs, c, conn);
    DelayedClose(s, c, conn);
    if s.conns[c].engine.Some? {
      RefsClose(s.conns, s.connRefs, c, conn);
      CoreLinks(s, s.conns[c := conn], s.connRefs - {s.conns[c].engine.value});
    } else {
      RefsSame(s.conns, s.connRefs, c, conn);
      CoreLinks(s, s.conns[c := conn], s.connRefs);
    }
  }

  lemma DelayedClose(s: State, c: ConnId, conn: Conn)
    requires Delayed(s.conns, s.sctxs) && c in s.conns && conn == s.conns[c].(engine := None)
    ensures Delayed(s.conns[c := conn], s.sctxs)
  {
    DelayedFlags(s.conns, s.sctxs, c, conn);
  }

  /** Lua handles are no part of the core. */
  lemma CoreHandles(s: State, connHandles: map<ConnId, bool>)
    requires Core(s)
    ensures Core(s.(connHandles := connHandles))
  {
    hide Placed, Registry, Waiters, Handled, Delayed, ConnRefsAgree, Books, Conserved, OwnJobs, Completions,
      Attributed, WaiterSound, Owned, LostReason, Wholes, JobStreams;
    ConservedSame(s, s.(connHandles := connHandles));
  }

  lemma CloseConnInv(s: State, c: ConnId)
    requires Inv(s) && c in s.connHandles
    ensures c in s.conns && Inv(CloseConn(s, c))
  {
    hide Core;
    CoreHandles(s, s.connHandles[c := false]);
    UnlinkCore(s.(connHandles := s.connHandles[c := false]), c);
  }

  /** If no frame holds the connection then no context is under way on it. */
  lemma UnheldIdle(s: State, c: ConnId)
    requires Registry(s.ongoing, s.ongoingNum, s.sctxs) && Waiters(s.ongoing, s.sctxs, s.cos, s.ops)
    requires !FrameHolds(s, c)
    ensures NoneWaiting(s.sctxs, c)
  {
    forall id | id in s.sctxs && (s.sctxs[id].place.InFlight? || s.sctxs[id].place.Pending?)
      ensures s.sctxs[id].parent != c
    {
      assert KeptPlace(s.sctxs[id]) && id in s.ongoing;
      var co := s.sctxs[id].waitCo.value;
      assert CoSound(s.ongoing, s.sctxs, co, s.cos[co], s.ops);
    }
  }

  /** The contexts `free_conn` releases are live, distinct, idle and unregistered. */
  lemma FreeConnShape(s: State, c: ConnId)
    requires Placed(s.conns, s.sctxs) && c in s.conns
    ensures FreeConn(s, c) == s.(sctxs := s.sctxs - Elements(s.conns[c].free), conns := s.conns - {c})
    ensures forall id :: id in s.conns[c].free ==> id in s.sctxs && s.sctxs[id].place.Free?
  {
    var free := s.conns[c].free;
    assert forall i :: 0 <= i < |free| ==> free[i] in free;
  }

  lemma FreeConnCore(s: State, c: ConnId)
    requires Core(s) && c in s.conns && s.conns[c].opening == [] && s.conns[c].engine.None?
    requires NoneWaiting(s.sctxs, c)
    ensures Core(FreeConn(s, c))
  {
    hide Placed, Registry, Waiters, Handled, Delayed, ConnRefsAgree, Books, Conserved, OwnJobs, Completions,
      Attributed, WaiterSound, Owned, LostReason, Wholes, ConnHandled, JobStreams, FreeConn;
    var gone := Elements(s.conns[c].free);
    FreeConnShape(s, c);
    PlacedFree(s.conns, s.sctxs, c);
    DelayedFree(s.conns, s.sctxs, c, gone);
    RefsFree(s.conns, s.connRefs, c);
    FreeIdle(s, gone);
    LostSame(s.sctxs, s.events, s.ops, s.sctxs - gone, s.events, s.ops);
    ConservedSame(s, FreeConn(s, c));
  }

  lemma FreeIdle(s: State, gone: set<Id>)
    requires Registry(s.ongoing, s.ongoingNum, s.sctxs) && Waiters(s.ongoing, s.sctxs, s.cos, s.ops)
    requires Handled(s.handles, s.sctxs)
    requires forall id :: id in gone ==> id in s.sctxs && s.sctxs[id].place.Free?
    ensures Registry(s.ongoing, s.ongoingNum, s.sctxs - gone)
    ensures Waiters(s.ongoing, s.sctxs - gone, s.cos, s.ops)
    ensures Handled(s.handles, s.sctxs - gone)
  {
    RegistryFree(s.ongoing, s.ongoingNum, s.sctxs, gone);
    WaitersIdle(s.ongoing, s.sctxs, s.cos, s.ops, s.sctxs - gone);
  }

  lemma FinalizeConnInv(s: State, c: ConnId)
    requires Inv(s) && c in s.connHandles && !FrameHolds(s, c)
    ensures c in s.conns && Inv(FinalizeConn(s, c))
  {
    hide Core, FreeConn, NoneWaiting, FrameHolds, Unlink;
    ConnIdle(s, c);
    CoreHandles(s, s.connHandles - {c});
    var s0 := s.(connHandles := s.connHandles - {c});
    UnlinkCore(s0, c);
    var s1 := Unlink(s0, c);
    UnlinkFields(s0, c);
    if s1.conns[c].opening != [] {
      DelayCore(s1, c);
    } else {
      FreeConnCore(s1, c);
      FreeConnGone(s1, c);
    }
  }

  lemma ConnIdle(s: State, c: ConnId)
    requires Inv(s) && !FrameHolds(s, c)
    ensures NoneWaiting(s.sctxs, c)
  {
    hide Placed, Registry, Waiters, Handled, Delayed, ConnRefsAgree, Books, Conserved, OwnJobs, Completions,
      Attributed, WaiterSound, Owned, LostReason, Wholes, ConnHandled, JobStreams, NoneWaiting, FrameHolds;
    UnheldIdle(s, c);
  }

  lemma UnlinkFields(s: State, c: ConnId)
    requires c in s.conns
    ensures Unlink(s, c).conns == s.conns[c := s.conns[c].(engine := None)]
    ensures Unlink(s, c).sctxs == s.sctxs && Unlink(s, c).connHandles == s.connHandles
  {
  }

  lemma DelayCore(s: State, c: ConnId)
    requires Core(s) && c in s.conns && s.conns[c].opening != [] && s.conns[c].engine.None? && NoneWaiting(s.sctxs, c)
    ensures Core(s.(conns := s.conns[c := s.conns[c].(freeDelayed := true)]))
  {
    hide Core, Placed, Delayed, ConnRefsAgree, NoneWaiting;
    CoreParts(s);
    var conn := s.conns[c].(freeDelayed := true);
    PlacedFlags(s.conns, s.sctxs, c, conn);
    DelayedFlags(s.conns, s.sctxs, c, conn);
    RefsSame(s.conns, s.connRefs, c, conn);
    CoreLinks(s, s.conns[c := conn], s.connRefs);
  }

  lemma FreeConnGone(s: State, c: ConnId)
    requires Core(s) && c in s.conns
    ensures FreeConn(s, c).conns == s.conns - {c} && FreeConn(s, c).connHandles == s.connHandles
  {
    hide Registry, Waiters, Handled, Delayed, ConnRefsAgree, Books, Conserved, OwnJobs, Completions,
      Attributed, WaiterSound, Owned, LostReason, Wholes, JobStreams, Placed, FreeConn;
    FreeConnShape(s, c);
  }

  lemma CloseStreamInv(s: State, id: Id)
    requires Inv(s) && id in s.handles
    ensures Inv(CloseStream(s, id))
  {
    hide Placed, Registry, Waiters, Delayed, ConnRefsAgree, Books, Conserved, OwnJobs, Completions,
      Attributed, WaiterSound, Owned, LostReason, Wholes, ConnHandled, JobStreams;
    StreamsForget(s.jobs, s.streams, s.streamRefs, s.ops, id);
    ConservedSame(s, CloseStream(s, id));
  }

  /** A stream finalizer up to the point where the delayed destruction is considered. */
  function Shelve(s: State, id: Id, delayed: bool): State
    requires id in s.sctxs && s.sctxs[id].parent in s.conns
  {
    var c := s.sctxs[id].parent;
    var conn := s.conns[c];
    s.(handles := s.handles - {id}, streamRefs := s.streamRefs - {id},
       sctxs := s.sctxs[id := s.sctxs[id].(r := None, place := Free)],
       conns := s.conns[c := conn.(opening := Remove(conn.opening, id), free := [id] + conn.free, freeDelayed := delayed)])
  }

  lemma ShelveLib(s: State, id: Id, delayed: bool)
    requires Placed(s.conns, s.sctxs) && Delayed(s.conns, s.sctxs) && ConnRefsAgree(s.conns, s.connRefs)
    requires Handled(s.handles, s.sctxs)
    requires id in s.sctxs && s.sctxs[id].parent in s.conns && s.sctxs[id].place.Held?
    requires var conn := s.conns[s.sctxs[id].parent];
             delayed ==> conn.freeDelayed && Remove(conn.opening, id) != []
    ensures var s' := Shelve(s, id, delayed);
            && Placed(s'.conns, s'.sctxs) && Delayed(s'.conns, s'.sctxs)
            && ConnRefsAgree(s'.conns, s'.connRefs) && Handled(s'.handles, s'.sctxs)
  {
    hide Placed, Delayed, ConnRefsAgree, Handled;
    var c := s.sctxs[id].parent;
    var conn := s.conns[c];
    var ctx := s.sctxs[id].(r := None, place := Free);
    var conn' := conn.(opening := Remove(conn.opening, id), free := [id] + conn.free, freeDelayed := delayed);
    ShelvePlaced(s, id, delayed);
    DelayedUpdate(s.conns, s.sctxs, id, ctx);
    DelayedShelve(s.conns, s.sctxs[id := ctx], c, conn');
    RefsSame(s.conns, s.connRefs, c, conn');
    HandledShelve(s.handles, s.sctxs, id, ctx);
  }

  lemma ShelvePlaced(s: State, id: Id, delayed: bool)
    requires Placed(s.conns, s.sctxs)
    requires id in s.sctxs && s.sctxs[id].parent in s.conns && s.sctxs[id].place.Held?
    ensures var s' := Shelve(s, id, delayed); Placed(s'.conns, s'.sctxs)
  {
    hide Placed;
    var c := s.sctxs[id].parent;
    var conn := s.conns[c];
    var ctx := s.sctxs[id].(r := None, place := Free);
    var conn1 := conn.(opening := Remove(conn.opening, id), free := [id] + conn.free);
    var conn2 := conn1.(freeDelayed := delayed);
    PlacedFinalize(s.conns, s.sctxs, id, ctx);
    PlacedFlags(s.conns[c := conn1], s.sctxs[id := ctx], c, conn2);
    Overwrite(s.conns, c, conn1, conn2);
  }

  lemma DelayedShelve(conns: Conns, sctxs: Ctxs, c: ConnId, conn: Conn)
    requires Delayed(conns, sctxs) && c in conns && conn.engine == conns[c].engine
    requires conn.freeDelayed ==> conns[c].freeDelayed && conn.opening != []
    ensures Delayed(conns[c := conn], sctxs)
  {
    DelayedFlags(conns, sctxs, c, conn);
  }

  lemma HandledShelve(handles: map<Id, bool>, sctxs: Ctxs, id: Id, ctx: StreamCtx)
    requires Handled(handles, sctxs) && !ctx.place.Held?
    ensures Handled(handles - {id}, sctxs[id := ctx])
  {
  }

  lemma ShelveCore(s: State, id: Id, delayed: bool)
    requires Core(s) && id in s.sctxs && s.sctxs[id].parent in s.conns && s.sctxs[id].place.Held? && id !in s.ongoing
    requires var conn := s.conns[s.sctxs[id].parent];
             delayed ==> conn.freeDelayed && Remove(conn.opening, id) != []
    ensures Core(Shelve(s, id, delayed))
  {
    hide Placed, Registry, Waiters, Handled, Delayed, ConnRefsAgree, Books, Conserved, OwnJobs, Completions,
      Attributed, WaiterSound, Owned, LostReason, Wholes, ConnHandled, JobStreams;
    var ctx := s.sctxs[id].(r := None, place := Free);
    ShelveLib(s, id, delayed);
    UnkeptNode(s, id);
    RegistryIdle(s.ongoing, s.ongoingNum, s.sctxs, id, ctx);
    WaitersSkip(s, id, ctx);
    StreamsForget(s.jobs, s.streams, s.streamRefs, s.ops, id);
    LostSame(s.sctxs, s.events, s.ops, s.sctxs[id := ctx], s.events, s.ops);
    ConservedSame(s, Shelve(s, id, delayed));
  }

  lemma UnkeptNode(s: State, id: Id)
    requires Registry(s.ongoing, s.ongoingNum, s.sctxs) && id in s.sctxs && id !in s.ongoing
    ensures !s.sctxs[id].node
  {
  }

  lemma WaitersSkip(s: State, id: Id, ctx: StreamCtx)
    requires Waiters(s.ongoing, s.sctxs, s.cos, s.ops) && id !in s.ongoing
    ensures Waiters(s.ongoing, s.sctxs[id := ctx], s.cos, s.ops)
  {
    WaitersIdle(s.ongoing, s.sctxs, s.cos, s.ops, s.sctxs[id := ctx]);
  }

  /** A handle's context is live, held, and its parent is live. */
  lemma HandleParent(s: State, id: Id)
    requires Placed(s.conns, s.sctxs) && Handled(s.handles, s.sctxs) && id in s.handles
    ensures id in s.sctxs && s.sctxs[id].place.Held? && s.sctxs[id].parent in s.conns
  {
    assert PlacedCtx(s.conns, id, s.sctxs[id]);
  }

  lemma DelayedParent(s: State, c: ConnId)
    requires Delayed(s.conns, s.sctxs) && c in s.conns && s.conns[c].freeDelayed
    ensures NoneWaiting(s.sctxs, c) && s.conns[c].engine.None?
  {
  }

  lemma FinalizeStreamInv(s: State, id: Id)
    requires Inv(s) && id in s.handles && id !in s.ongoing
    ensures Inv(FinalizeStream(s, id))
  {
    hide Core, FreeConn, NoneWaiting, Placed, Delayed, Handled, ConnRefsAgree, FinalizeStream, Remove, Shelve, ConnHandled;
    CoreParts(s);
    HandleParent(s, id);
    var c := s.sctxs[id].parent;
    var conn := s.conns[c];
    FinalizeStreamCases(s, id);
    ShelvedConn(s, id, false);
    if conn.freeDelayed && Remove(conn.opening, id) == [] {
      DelayedParent(s, c);
      ShelveCore(s, id, false);
      NoneWaitingShelved(s, id, c);
      FreeConnCore(Shelve(s, id, false), c);
      FreeConnGone(Shelve(s, id, false), c);
      FreeShelved(s, id);
      ShelvedHandles(s, id);
    } else {
      ShelveCore(s, id, conn.freeDelayed);
      ShelvedHandles(s, id);
    }
  }

  lemma FinalizeStreamCases(s: State, id: Id)
    requires id in s.sctxs && s.sctxs[id].parent in s.conns
    ensures var conn := s.conns[s.sctxs[id].parent];
            !(conn.freeDelayed && Remove(conn.opening, id) == []) ==> FinalizeStream(s, id) == Shelve(s, id, conn.freeDelayed)
  {
    hide FreeConn, Remove;
  }

  lemma ShelvedConn(s: State, id: Id, delayed: bool)
    requires id in s.sctxs && s.sctxs[id].parent in s.conns
    ensures var c := s.sctxs[id].parent;
            Shelve(s, id, delayed).conns == s.conns[c := s.conns[c].(
              opening := Remove(s.conns[c].opening, id), free := [id] + s.conns[c].free, freeDelayed := delayed)]
  {
    hide Remove;
  }

  lemma ShelvedHandles(s: State, id: Id)
    requires ConnHandled(s.connHandles, s.conns) && id in s.sctxs && s.sctxs[id].parent in s.conns
    ensures var c := s.sctxs[id].parent;
            && ConnHandled(s.connHandles, Shelve(s, id, s.conns[c].freeDelayed).conns)
            && Shelve(s, id, s.conns[c].freeDelayed).connHandles == s.connHandles
            && (s.conns[c].freeDelayed ==> ConnHandled(s.connHandles, Shelve(s, id, false).conns - {c}))
            && Shelve(s, id, false).connHandles == s.connHandles
  {
    hide Remove;
  }

  /** The flag of a connection about to be freed is irrelevant. */
  lemma FreeShelved(s: State, id: Id)
    requires Placed(s.conns, s.sctxs)
    requires id in s.sctxs && s.sctxs[id].parent in s.conns && s.sctxs[id].place.Held?
    requires s.conns[s.sctxs[id].parent].freeDelayed && Remove(s.conns[s.sctxs[id].parent].opening, id) == []
    ensures FinalizeStream(s, id) == FreeConn(Shelve(s, id, false), s.sctxs[id].parent)
  {
    hide Placed, FreeConn;
    var c := s.sctxs[id].parent;
    var s1, s2 := Shelve(s, id, true), Shelve(s, id, false);
    ShelvePlaced(s, id, true);
    ShelvePlaced(s, id, false);
    FreeConnShape(s1, c);
    FreeConnShape(s2, c);
    Overwrite(s.conns, c, s1.conns[c], s2.conns[c]);
    assert FinalizeStream(s, id) == FreeConn(s1, c);
  }

  lemma NoneWaitingShelved(s: State, id: Id, c: ConnId)
    requires NoneWaiting(s.sctxs, c) && id in s.sctxs && s.sctxs[id].parent in s.conns
    ensures NoneWaiting(Shelve(s, id, false).sctxs, c)
  {
  }
}
