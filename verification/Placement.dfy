/** How the queue operations of a connection keep placement, handles and references. */
module Placement {
  import opened Base
  import opened Machine
  import opened Invariants

  type Conns = map<ConnId, Conn>
  type Ctxs = map<Id, StreamCtx>

  // ---------------------------------------------------------------- Placed

  lemma PlacedConnect(conns: Conns, sctxs: Ctxs, c: ConnId, conn: Conn)
    requires Placed(conns, sctxs) && c !in conns && conn.opening == [] && conn.free == []
    ensures Placed(conns[c := conn], sctxs)
  {
    forall id | id in sctxs ensures PlacedCtx(conns[c := conn], id, sctxs[id]) {
      assert PlacedCtx(conns, id, sctxs[id]);
    }
  }

  /** Changing flags of a connection moves nothing. */
  lemma PlacedFlags(conns: Conns, sctxs: Ctxs, c: ConnId, conn: Conn)
    requires Placed(conns, sctxs) && c in conns
    requires conn.opening == conns[c].opening && conn.free == conns[c].free
    ensures Placed(conns[c := conn], sctxs)
  {
    forall id | id in sctxs ensures PlacedCtx(conns[c := conn], id, sctxs[id]) {
      assert PlacedCtx(conns, id, sctxs[id]);
    }
  }

  /** Changing a context without taking it off its queue moves nothing. */
  lemma PlacedUpdate(conns: Conns, sctxs: Ctxs, id: Id, ctx: StreamCtx)
    requires Placed(conns, sctxs) && id in sctxs
    requires ctx.parent == sctxs[id].parent && ctx.typ == sctxs[id].typ
    requires ctx.place == sctxs[id].place || (ctx.place.OnOpening() && sctxs[id].place.OnOpening())
             || (sctxs[id].place.InFlight? && ctx.place.Abandoned?)
    ensures Placed(conns, sctxs[id := ctx])
  {
    assert PlacedCtx(conns, id, sctxs[id]);
  }

  /** A context that is on no queue: new to the map, or the last free one just removed. */
  predicate Picked(conns: Conns, sctxs: Ctxs, c: ConnId, id: Id, rest: seq<Id>, alloc: Id) {
    c in conns && alloc !in sctxs && (id, rest) == PickCtx(conns[c], alloc)
  }

  lemma PickedFacts(conns: Conns, sctxs: Ctxs, c: ConnId, id: Id, rest: seq<Id>, alloc: Id)
    requires Placed(conns, sctxs) && Picked(conns, sctxs, c, id, rest, alloc)
    ensures NoDup(rest) && id !in rest && id !in conns[c].opening
    ensures forall y :: y in conns[c].free <==> y in rest || (y == id && conns[c].free != [])
    ensures id in sctxs ==> sctxs[id].place.Free? && sctxs[id].parent == c
    ensures conns[c].free != [] ==> id in sctxs
  {
    var f := conns[c].free;
    if f != [] {
      assert f == rest + [id];
      assert id in f;
    }
    assert forall y :: y in conns[c].opening ==> y in sctxs && sctxs[y].place.OnOpening();
  }

  lemma PlacedPick(conns: Conns, sctxs: Ctxs, c: ConnId, id: Id, rest: seq<Id>, alloc: Id, conn: Conn, ctx: StreamCtx)
    requires Placed(conns, sctxs) && Picked(conns, sctxs, c, id, rest, alloc)
    requires ctx.parent == c
    requires (ctx.place.InFlight? && ctx.typ.Unary? && conn.opening == conns[c].opening && conn.free == rest)
             || (ctx.place.Pending? && !ctx.typ.Unary? && conn.opening == [id] + conns[c].opening && conn.free == rest)
             || (ctx.place.Free? && conn.opening == conns[c].opening && conn.free == [id] + rest)
    ensures Placed(conns[c := conn], sctxs[id := ctx])
  {
    PickedFacts(conns, sctxs, c, id, rest, alloc);
    ConsNoDup(id, rest);
    ConsNoDup(id, conns[c].opening);
    var conns', sctxs' := conns[c := conn], sctxs[id := ctx];
    forall y | y in sctxs' ensures PlacedCtx(conns', y, sctxs'[y]) {
      if y != id {
        assert PlacedCtx(conns, y, sctxs[y]);
      }
    }
    forall d, y | d in conns' && y in conns'[d].opening
      ensures y in sctxs' && sctxs'[y].parent == d && sctxs'[y].place.OnOpening()
    {
      if d == c { assert y == id || y in conns[c].opening; }
    }
    forall d, y | d in conns' && y in conns'[d].free
      ensures y in sctxs' && sctxs'[y].parent == d && sctxs'[y].place.Free?
    {
      if d == c { assert y == id || y in rest; }
    }
  }

  /** A finished unary call goes to the head of its parent's free queue. */
  lemma PlacedReturn(conns: Conns, sctxs: Ctxs, id: Id, ctx: StreamCtx)
    requires Placed(conns, sctxs) && id in sctxs && sctxs[id].place.InFlight? && sctxs[id].parent in conns
    requires ctx.parent == sctxs[id].parent && ctx.place.Free?
    ensures var p := conns[ctx.parent];
            Placed(conns[ctx.parent := p.(free := [id] + p.free)], sctxs[id := ctx])
  {
    var c := ctx.parent;
    var p := conns[c];
    ConsNoDup(id, p.free);
    var conns', sctxs' := conns[c := p.(free := [id] + p.free)], sctxs[id := ctx];
    forall y | y in sctxs' ensures PlacedCtx(conns', y, sctxs'[y]) {
      if y != id {
        assert PlacedCtx(conns, y, sctxs[y]);
      }
    }
  }

  /** A finalized stream moves from `opening` to the head of `free`. */
  lemma PlacedFinalize(conns: Conns, sctxs: Ctxs, id: Id, ctx: StreamCtx)
    requires Placed(conns, sctxs) && id in sctxs && sctxs[id].place.Held? && sctxs[id].parent in conns
    requires ctx.parent == sctxs[id].parent && ctx.place.Free?
    ensures var p := conns[ctx.parent];
            Placed(conns[ctx.parent := p.(opening := Remove(p.opening, id), free := [id] + p.free)], sctxs[id := ctx])
  {
    var c := ctx.parent;
    var p := conns[c];
    ConsNoDup(id, p.free);
    RemoveNoDup(p.opening, id);
    var conns', sctxs' := conns[c := p.(opening := Remove(p.opening, id), free := [id] + p.free)], sctxs[id := ctx];
    forall y | y in sctxs' ensures PlacedCtx(conns', y, sctxs'[y]) {
      if y != id {
        assert PlacedCtx(conns, y, sctxs[y]);
      }
    }
  }

  /** Freeing a connection with nothing opening and nothing in flight leaves no context
      behind that still refers to it through a queue. */
  lemma PlacedFree(conns: Conns, sctxs: Ctxs, c: ConnId)
    requires Placed(conns, sctxs) && c in conns && conns[c].opening == []
    requires NoneWaiting(sctxs, c)
    ensures Placed(conns - {c}, sctxs - Elements(conns[c].free))
  {
    var gone := Elements(conns[c].free);
    var conns', sctxs' := conns - {c}, sctxs - gone;
    forall y | y in sctxs' ensures PlacedCtx(conns', y, sctxs'[y]) {
      assert PlacedCtx(conns, y, sctxs[y]);
    }
    forall d, y | d in conns' && y in conns'[d].opening
      ensures y in sctxs' && sctxs'[y].parent == d && sctxs'[y].place.OnOpening()
    {
      assert y in conns[d].opening;
      assert y in sctxs && sctxs[y].place.OnOpening();
      assert y !in conns[c].free;
    }
    forall d, y | d in conns' && y in conns'[d].free
      ensures y in sctxs' && sctxs'[y].parent == d && sctxs'[y].place.Free?
    {
      assert y in conns[d].free && sctxs[y].parent == d;
    }
  }

  // ---------------------------------------------------------------- Delayed

  /** No `call` and no `new_stream` is under way on this connection. */
  ghost predicate NoneWaiting(sctxs: Ctxs, c: ConnId) {
    forall id :: id in sctxs && (sctxs[id].place.InFlight? || sctxs[id].place.Pending?) ==> sctxs[id].parent != c
  }

  lemma DelayedFlags(conns: Conns, sctxs: Ctxs, c: ConnId, conn: Conn)
    requires Delayed(conns, sctxs)
    requires conn.freeDelayed ==> conn.opening != [] && conn.engine.None?
    requires conn.freeDelayed ==>
               (c in conns && conns[c].freeDelayed) || NoneWaiting(sctxs, c)
    ensures Delayed(conns[c := conn], sctxs)
  {
  }

  lemma DelayedUpdate(conns: Conns, sctxs: Ctxs, id: Id, ctx: StreamCtx)
    requires Delayed(conns, sctxs)
    requires ctx.place.InFlight? || ctx.place.Pending? ==>
             (ctx.parent in conns && !conns[ctx.parent].freeDelayed)
    ensures Delayed(conns, sctxs[id := ctx])
  {
  }

  lemma DelayedFree(conns: Conns, sctxs: Ctxs, c: ConnId, gone: set<Id>)
    requires Delayed(conns, sctxs) && NoneWaiting(sctxs, c)
    ensures Delayed(conns - {c}, sctxs - gone)
  {
  }

  // ---------------------------------------------------------------- ConnHandled

  /** Queues may change; so may flags, as long as the handle still tells the truth. */
  lemma ConnHandledKeep(connHandles: map<ConnId, bool>, conns: Conns, c: ConnId, conn: Conn)
    requires ConnHandled(connHandles, conns) && c in conns
    requires conn.engine == conns[c].engine && conn.freeDelayed == conns[c].freeDelayed
    ensures ConnHandled(connHandles, conns[c := conn])
  {
  }

  // ---------------------------------------------------------------- ConnRefsAgree, Handled

  lemma HandledUpdate(handles: map<Id, bool>, sctxs: Ctxs, id: Id, ctx: StreamCtx)
    requires Handled(handles, sctxs) && !ctx.place.Held? && (id in sctxs ==> !sctxs[id].place.Held?)
    ensures Handled(handles, sctxs[id := ctx])
  {
  }

  lemma HandledOpen(handles: map<Id, bool>, sctxs: Ctxs, id: Id, ctx: StreamCtx, open: bool)
    requires Handled(handles, sctxs) && ctx.place.Held?
    ensures Handled(handles[id := open], sctxs[id := ctx])
  {
  }

  lemma RefsConnect(conns: Conns, connRefs: map<Ref, ConnId>, c: ConnId, e: Ref, conn: Conn)
    requires ConnRefsAgree(conns, connRefs) && c !in conns && e !in connRefs && conn.engine == Some(e)
    ensures ConnRefsAgree(conns[c := conn], connRefs[e := c])
  {
  }

  lemma RefsSame(conns: Conns, connRefs: map<Ref, ConnId>, c: ConnId, conn: Conn)
    requires ConnRefsAgree(conns, connRefs) && c in conns && conn.engine == conns[c].engine
    ensures ConnRefsAgree(conns[c := conn], connRefs)
  {
  }

  lemma RefsClose(conns: Conns, connRefs: map<Ref, ConnId>, c: ConnId, conn: Conn)
    requires ConnRefsAgree(conns, connRefs) && c in conns && conns[c].engine.Some? && conn.engine.None?
    ensures ConnRefsAgree(conns[c := conn], connRefs - {conns[c].engine.value})
  {
  }

  lemma RefsFree(conns: Conns, connRefs: map<Ref, ConnId>, c: ConnId)
    requires ConnRefsAgree(conns, connRefs) && c in conns && conns[c].engine.None?
    ensures ConnRefsAgree(conns - {c}, connRefs)
  {
  }
}
