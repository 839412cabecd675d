/** Deferred destruction: the finalizers of a connection and of its streams may run in any
    order, with explicit closes in between, and always leave the same state. */
module Teardown {
  import opened Base
  import opened Buffers
  import opened Machine
  import opened Invariants
  import opened Placement
  import opened Destruction
  import opened Frames
  import opened Reachability
  import Q = FinishedQueue

  function Opening(s: State, c: ConnId): set<Id> requires c in s.conns { Elements(s.conns[c].opening) }

  function Shelf(s: State, c: ConnId): set<Id> requires c in s.conns { Elements(s.conns[c].free) }

  /** A finalizer or explicit close of connection `c` or of one of the streams `ids`. */
  predicate TearsDown(a: Step, c: ConnId, ids: set<Id>) {
    match a
    case DoCloseConn(d) => d == c
    case DoFinalizeConn(d) => d == c
    case DoCloseStream(id) => id in ids
    case DoFinalizeStream(id) => id in ids
    case _ => false
  }

  function ClosedRefs(s: State, c: ConnId): map<Ref, ConnId> requires c in s.conns {
    if s.conns[c].engine.Some? then s.connRefs - {s.conns[c].engine.value} else s.connRefs
  }

  /** The state without the connection, its streams, their handles and their references. */
  function Gone(s: State, c: ConnId): State requires c in s.conns {
    s.(conns := s.conns - {c}, sctxs := s.sctxs - (Opening(s, c) + Shelf(s, c)),
       connHandles := s.connHandles - {c}, handles := s.handles - Opening(s, c), streamRefs := s.streamRefs - Opening(s, c), connRefs := ClosedRefs(s, c))
  }

  /** `t` is `s` with some of the streams of `c` finalized; `c` itself is still allocated. */
  predicate Partly(s: State, c: ConnId, t: State) {
    && c in s.conns && c in t.conns
    && t == s.(conns := t.conns, sctxs := t.sctxs, connHandles := t.connHandles, handles := t.handles,
               connRefs := t.connRefs, streamRefs := t.streamRefs)
    && t.conns - {c} == s.conns - {c} && t.connHandles - {c} == s.connHandles - {c}
    && Opening(t, c) <= Opening(s, c) && Shelf(t, c) == Shelf(s, c) + (Opening(s, c) - Opening(t, c))
    && t.sctxs - Opening(s, c) == s.sctxs - Opening(s, c)
    && t.handles - Opening(s, c) == s.handles - Opening(s, c)
    && t.streamRefs - Opening(s, c) == s.streamRefs - Opening(s, c)
    && (forall id :: id in Opening(s, c) ==> (id in t.handles <==> id in Opening(t, c)))
    && (forall id :: id in Opening(s, c) && id !in Opening(t, c) ==> id !in t.streamRefs)
    && (if t.conns[c].engine.Some? then t.conns[c].engine == s.conns[c].engine && t.connRefs == s.connRefs
        else t.connRefs == ClosedRefs(s, c))
  }

  lemma PartlyRefl(s: State, c: ConnId)
    requires c in s.conns && (forall id :: id in s.conns[c].opening ==> id in s.handles)
    ensures Partly(s, c, s)
  {
  }

  lemma PartlyUnlink(s: State, c: ConnId, t: State, connHandles: map<ConnId, bool>)
    requires Partly(s, c, t) && connHandles - {c} == t.connHandles - {c}
    ensures var t' := Unlink(t.(connHandles := connHandles), c);
            Partly(s, c, t') && t'.conns[c] == t.conns[c].(engine := None) && t'.connHandles == connHandles
  {
    var t' := Unlink(t.(connHandles := connHandles), c);
    assert Opening(t', c) == Opening(t, c) && Shelf(t', c) == Shelf(t, c);
    assert t'.conns - {c} == t.conns - {c};
  }

  lemma PartlyClose(s: State, c: ConnId, t: State)
    requires c in t.conns && Partly(s, c, t)
    ensures Partly(s, c, CloseConn(t, c)) && CloseConn(t, c).conns[c] == t.conns[c].(engine := None)
  {
    hide Partly, Unlink;
    assert t.connHandles[c := false] - {c} == t.connHandles - {c};
    PartlyUnlink(s, c, t, t.connHandles[c := false]);
  }

  lemma PartlyCloseStream(s: State, c: ConnId, t: State, id: Id)
    requires Partly(s, c, t) && id in Opening(s, c) && id in t.handles
    ensures Partly(s, c, CloseStream(t, id)) && CloseStream(t, id).conns == t.conns
  {
    var t' := CloseStream(t, id);
    assert t'.handles - Opening(s, c) == t.handles - Opening(s, c);
    assert t'.streamRefs - Opening(s, c) == t.streamRefs - Opening(s, c);
    assert Opening(t', c) == Opening(t, c);
  }

  lemma PartlyShelve(s: State, c: ConnId, t: State, id: Id, delayed: bool)
    requires Partly(s, c, t) && id in Opening(t, c) && NoDup(t.conns[c].opening)
    requires id in t.sctxs && t.sctxs[id].parent == c
    ensures Partly(s, c, Shelve(t, id, delayed)) && Opening(Shelve(t, id, delayed), c) == Opening(t, c) - {id}
    ensures Shelve(t, id, delayed).conns[c].freeDelayed == delayed
  {
    RemoveNoDup(t.conns[c].opening, id);
    hide NoDup, Remove;
    var t' := Shelve(t, id, delayed);
    assert Opening(t', c) == Opening(t, c) - {id};
    assert Shelf(t', c) == Shelf(t, c) + {id};
    assert t'.conns - {c} == t.conns - {c};
    assert t'.sctxs - Opening(s, c) == t.sctxs - Opening(s, c);
    assert t'.handles - Opening(s, c) == t.handles - Opening(s, c);
    assert t'.streamRefs - Opening(s, c) == t.streamRefs - Opening(s, c);
  }

  /** Freeing the connection once all its streams are finalized leaves nothing of them. */
  lemma FreeGone(s: State, c: ConnId, t: State)
    requires Partly(s, c, t) && Placed(t.conns, t.sctxs) && t.conns[c].opening == [] && t.conns[c].engine.None?
    requires c !in t.connHandles
    ensures FreeConn(t, c) == Gone(s, c)
  {
    FreeConnShape(t, c);
    hide Placed, FreeConn;
    var o := Opening(s, c);
    assert Opening(t, c) == {};
    assert t.sctxs - Shelf(t, c) == s.sctxs - (o + Shelf(s, c)) by {
      WithoutMore(t.sctxs, s.sctxs, o, Shelf(t, c));
    }
    NotIn(t.handles, s.handles, o);
    NotIn(t.streamRefs, s.streamRefs, o);
    NotIn(t.connHandles, s.connHandles, {c});
  }

  lemma WithoutMore<V>(a: map<Id, V>, b: map<Id, V>, o: set<Id>, more: set<Id>)
    requires a - o == b - o && o <= more
    ensures a - more == b - more
  {
    assert (a - o) - more == a - more;
    assert (b - o) - more == b - more;
  }

  lemma NotIn<V>(a: map<Id, V>, b: map<Id, V>, o: set<Id>)
    requires a - o == b - o && forall id :: id in o ==> id !in a
    ensures a == b - o
  {
    assert a - o == a;
  }

  // ---------------------------------------------------------------- one step

  /** What one step leaves: the connection still there with these streams unfinalized, or nothing. */
  predicate Left(s: State, c: ConnId, t: State, ids: set<Id>, delayed: bool) {
    if delayed && ids == {} then c in s.conns && t == Gone(s, c)
    else Partly(s, c, t) && Opening(t, c) == ids && t.conns[c].freeDelayed == delayed
  }

  lemma FinalizeConnLeft(s: State, c: ConnId, t: State)
    requires c in s.conns && c in t.conns && Inv(t) && Partly(s, c, t)
    ensures Left(s, c, FinalizeConn(t, c), Opening(t, c), true)
  {
    hide Core, Placed, FreeConn, Partly, Gone, Unlink, ConnHandled;
    var connHandles := t.connHandles - {c};
    var t0 := t.(connHandles := connHandles);
    PartlyUnlink(s, c, t, connHandles);
    CoreHandles(t, connHandles);
    UnlinkCore(t0, c);
    var t1 := Unlink(t0, c);
    CoreParts(t1);
    if t1.conns[c].opening != [] {
      assert t1.conns[c].opening[0] in Opening(t, c);
      PartlyFlag(s, c, t1);
    } else {
      FreeGone(s, c, t1);
    }
  }

  lemma PartlyFlag(s: State, c: ConnId, t: State)
    requires Partly(s, c, t)
    ensures Partly(s, c, t.(conns := t.conns[c := t.conns[c].(freeDelayed := true)]))
  {
    var t' := t.(conns := t.conns[c := t.conns[c].(freeDelayed := true)]);
    assert t'.conns - {c} == t.conns - {c};
    assert Opening(t', c) == Opening(t, c) && Shelf(t', c) == Shelf(t, c);
  }

  lemma HandleHere(t: State, c: ConnId, id: Id)
    requires Inv(t) && c in t.conns && id in t.conns[c].opening && id in t.handles
    ensures id in t.sctxs && t.sctxs[id].parent == c && t.sctxs[id].place.Held? && NoDup(t.conns[c].opening)
    ensures Placed(t.conns, t.sctxs) && (t.conns[c].freeDelayed ==> t.conns[c].engine.None? && c !in t.connHandles)
  {
    hide Registry, Waiters, ConnRefsAgree, Books, Conserved, OwnJobs, Completions,
      Attributed, WaiterSound, Owned, LostReason, Wholes, JobStreams, PlacedCtx;
  }

  lemma FinalizeStreamLeft(s: State, c: ConnId, t: State, id: Id)
    requires c in s.conns && c in t.conns && Inv(t) && Partly(s, c, t) && id in Opening(t, c) && id in t.handles
    ensures Left(s, c, FinalizeStream(t, id), Opening(t, c) - {id}, t.conns[c].freeDelayed)
  {
    hide Inv, FreeConn, Partly, Gone, FinalizeStream, Placed, NoDup;
    HandleHere(t, c, id);
    var f := t.conns[c].freeDelayed;
    FinalizeStreamShape(t, id);
    PartlyShelve(s, c, t, id, f);
    ShelvePlaced(t, id, f);
    var t1 := Shelve(t, id, f);
    assert t1.conns[c].opening == [] <==> Opening(t1, c) == {} by {
      if t1.conns[c].opening != [] {
        assert t1.conns[c].opening[0] in Opening(t1, c);
      }
    }
    if f && t1.conns[c].opening == [] {
      FreeGone(s, c, t1);
    }
  }

  /** The streams still to be finalized after a step, and whether the connection waits for them. */
  function IdsAfter(ids: set<Id>, a: Step): set<Id> {
    if a.DoFinalizeStream? then ids - {a.id} else ids
  }

  lemma StepLeft(s: State, c: ConnId, t: State, a: Step)
    requires Inv(t) && Partly(s, c, t) && Enabled(t, a) && TearsDown(a, c, Opening(s, c))
    requires !(t.conns[c].freeDelayed && Opening(t, c) == {})
    ensures Left(s, c, Apply(t, a), IdsAfter(Opening(t, c), a), t.conns[c].freeDelayed || a.DoFinalizeConn?)
  {
    hide NewStream, NewStreamRefused, StreamOp, CloseConn, FinalizeConn, CloseStream, FinalizeStream, RunJob, MakeCall, CallsLeft, Report,
      WaitCheck, ThreadEvent, DrainOne, OpTimeout, Abort, FrameHolds, FullWire, FreshPtrs, ResultShape, Offers, Inv, Gone;
    match a {
      case DoCloseConn(_) => PartlyClose(s, c, t);
      case DoFinalizeConn(_) => FinalizeConnLeft(s, c, t);
      case DoCloseStream(id) => PartlyCloseStream(s, c, t, id);
      case DoFinalizeStream(id) => FinalizeStreamLeft(s, c, t, id);
    }
  }

  // ---------------------------------------------------------------- every order

  /** Nothing more can be torn down. */
  lemma NothingLeft(s: State, c: ConnId, a: Step)
    requires c in s.conns && TearsDown(a, c, Opening(s, c))
    ensures !Enabled(Gone(s, c), a)
  {
    hide FrameHolds;
  }

  /** Every finalizer still outstanding is in the run. */
  predicate Includes(run: seq<Step>, c: ConnId, ids: set<Id>, delayed: bool) {
    && (delayed || DoFinalizeConn(c) in run)
    && (forall id :: id in ids ==> DoFinalizeStream(id) in run)
  }

  lemma IncludesRest(run: seq<Step>, c: ConnId, ids: set<Id>, delayed: bool, all: set<Id>)
    requires run != [] && Includes(run, c, ids, delayed) && TearsDown(run[0], c, all)
    ensures Includes(run[1..], c, IdsAfter(ids, run[0]), delayed || run[0].DoFinalizeConn?)
  {
    assert run == [run[0]] + run[1..];
  }

  lemma LeftNothing(s: State, c: ConnId, t: State, ids: set<Id>, delayed: bool, run: seq<Step>)
    requires Left(s, c, t, ids, delayed) && delayed && ids == {} && Runs(t, run)
    requires c in s.conns && forall i :: 0 <= i < |run| ==> TearsDown(run[i], c, Opening(s, c))
    ensures run == [] && After(t, run) == Gone(s, c)
  {
    hide Enabled, Apply, Gone, TearsDown;
    if run != [] {
      NothingLeft(s, c, run[0]);
    }
  }

  lemma LeftSome(s: State, c: ConnId, t: State, ids: set<Id>, delayed: bool)
    requires Left(s, c, t, ids, delayed) && !(delayed && ids == {})
    ensures c in t.conns && Partly(s, c, t) && Opening(t, c) == ids && t.conns[c].freeDelayed == delayed
  {
  }

  lemma {:induction false} AnyOrder(s: State, c: ConnId, t: State, run: seq<Step>)
    requires c in s.conns && c in t.conns && Inv(t) && Partly(s, c, t) && Runs(t, run)
    requires !(t.conns[c].freeDelayed && Opening(t, c) == {})
    requires forall i :: 0 <= i < |run| ==> TearsDown(run[i], c, Opening(s, c))
    requires Includes(run, c, Opening(t, c), t.conns[c].freeDelayed)
    ensures After(t, run) == Gone(s, c)
    decreases |run|
  {
    hide Inv, Enabled, Apply, Partly, Gone, TearsDown, Opening;
    if run == [] {
      assert false;
    } else {
      hide Includes;
      var a, rest := run[0], run[1..];
      StepLeft(s, c, t, a);
      StepInv(t, a);
      IncludesRest(run, c, Opening(t, c), t.conns[c].freeDelayed, Opening(s, c));
      var t', ids, f := Apply(t, a), IdsAfter(Opening(t, c), a), t.conns[c].freeDelayed || a.DoFinalizeConn?;
      hide Left, IdsAfter;
      if f && ids == {} {
        LeftNothing(s, c, t', ids, f, rest);
      } else {
        LeftSome(s, c, t', ids, f);
        AnyOrder(s, c, t', rest);
      }
    }
  }

  /** Order independence: any run of the connection's finalizer and of the finalizers of all its
      streams, in any order and with any explicit closes between, ends in the same state: the
      connection and every context on its queues freed once, everything else untouched. */
  lemma OrderIndependent(s: State, c: ConnId, run: seq<Step>)
    requires Inv(s) && Runs(s, run)
    requires c in s.conns && !s.conns[c].freeDelayed
    requires forall id :: id in s.conns[c].opening ==> id in s.handles
    requires forall i :: 0 <= i < |run| ==> TearsDown(run[i], c, Opening(s, c))
    requires Includes(run, c, Opening(s, c), false)
    ensures After(s, run) == Gone(s, c)
  {
    hide Inv, Enabled, Apply, Gone, TearsDown, Runs, After;
    PartlyRefl(s, c);
    AnyOrder(s, c, s, run);
  }
}
