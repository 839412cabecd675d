/** One iteration of the posted-event loop keeps the invariant, delivered or discarded. */
module Draining {
  import opened Base
  import opened Buffers
  import opened Machine
  import opened Invariants
  import opened Flow
  import opened Completion
  import Q = FinishedQueue

  /** Taking the head record off the posted queue and releasing its buffer. */
  function Take(s: State): State
    requires s.posted != []
  {
    s.(posted := s.posted[1..], processed := s.processed + [s.posted[0].origin],
       heap := s.heap - {Base8(s.posted[0].word)})
  }

  /** What is known about the head of the posted queue. */
  lemma Head(s: State)
    requires Books(s.jobs, s.ops, s.reported) && Conserved(s) && Owned(s.heap, s.posted + s.batch) && s.posted != []
    ensures var x := s.posted[0];
            && Faithful(s.heap, x) && x.id == x.origin.id
            && x.origin in s.reported && x.origin.job < |s.ops| && s.ops[x.origin.job].id == x.id
            && Transit(s) == [x.origin] + Transit(Take(s))
            && Unsettled(s.jobs, Transit(s), x.origin.job)
            && 0 !in s.heap
  {
    var x := s.posted[0];
    assert (s.posted + s.batch)[0] == x;
    TransitHead(s.posted, s.batch, s.q.tasks);
    assert Transit(s)[0] == x.origin;
    assert s.reported[|s.processed|] == x.origin;
  }

  /** If nobody waits for the head record's job, it can be taken. */
  lemma TakeInv(s: State)
    requires Inv(s) && s.posted != []
    requires forall c :: c in s.cos && s.cos[c].run.Waiting? ==> s.cos[c].run.op != s.posted[0].origin.job
    ensures Inv(Take(s))
  {
    hide Placed, Registry, Waiters, Handled, Delayed, ConnRefsAgree, Books, OwnJobs, Completions,
      Attributed, WaiterSound, Owned, LostReason, Wholes, ConnHandled, JobStreams, Transit;
    Head(s);
    TakeBuffers(s);
    OwnDrain(s.cos, s.ops, s.jobs, s.posted[0].origin, Transit(Take(s)));
    assert s.processed + ([s.posted[0].origin] + Transit(Take(s))) == (s.processed + [s.posted[0].origin]) + Transit(Take(s));
  }

  lemma TakeBuffers(s: State)
    requires Owned(s.heap, s.posted + s.batch) && s.posted != []
    ensures Owned(Take(s).heap, Take(s).posted + s.batch)
  {
    FreeOwned(s.heap, s.posted + s.batch);
    assert (s.posted + s.batch)[1..] == s.posted[1..] + s.batch;
  }

  // ---------------------------------------------------------------- discard

  lemma DiscardShape(s: State, decodes: bool)
    requires s.posted != [] && s.posted[0].id !in s.ongoing && Faithful(s.heap, s.posted[0]) && 0 !in s.heap
    ensures DrainOne(s, decodes) == Take(s)
  {
    FreeBufShape(s.(posted := s.posted[1..], processed := s.processed + [s.posted[0].origin]), s.posted[0]);
  }

  /** A record whose id is not registered has nobody waiting for its job. */
  lemma NobodyWaits(s: State, j: JobId)
    requires Waiters(s.ongoing, s.sctxs, s.cos, s.ops) && j < |s.ops| && s.ops[j].id !in s.ongoing
    ensures forall c :: c in s.cos && s.cos[c].run.Waiting? ==> s.cos[c].run.op != j
  {
    forall c | c in s.cos && s.cos[c].run.Waiting? ensures s.cos[c].run.op != j {
      assert CoSound(s.ongoing, s.sctxs, c, s.cos[c], s.ops);
    }
  }

  // ---------------------------------------------------------------- delivery

  /** The resume cause of a delivered record. */
  function Delivery(s: State, decodes: bool): Cause
    requires s.posted != [] && s.posted[0].id in s.sctxs
  {
    var x := s.posted[0];
    Result(x.origin, Meaning(x.origin), ClosesOn(s, x.id, Meaning(x.origin), decodes))
  }

  predicate Deliverable(s: State) {
    s.posted != [] &&
    var id := s.posted[0].id;
    && id in s.ongoing && id in s.sctxs && s.sctxs[id].node && !s.sctxs[id].timedOut
    && s.sctxs[id].waitCo.Some? && s.sctxs[id].waitCo.value in s.cos
    && s.cos[s.sctxs[id].waitCo.value].run.Waiting? && s.cos[s.sctxs[id].waitCo.value].run.op < |s.ops|
    && s.cos[s.sctxs[id].waitCo.value].data == id
    && (s.sctxs[id].typ.Unary? ==> s.sctxs[id].parent in s.conns)
  }

  /** Disarming the coroutine and taking the record first, as the loop does. */
  function Prepared(s: State): State
    requires Deliverable(s)
  {
    var co := s.sctxs[s.posted[0].id].waitCo.value;
    Take(s).(cos := s.cos[co := s.cos[co].(timer := false, cleanup := false)])
  }

  lemma DeliverShape(s: State, decodes: bool)
    requires Deliverable(s) && Faithful(s.heap, s.posted[0]) && 0 !in s.heap
    ensures DrainOne(s, decodes) == Resume(Prepared(s), s.posted[0].id, Delivery(s, decodes))
  {
    hide Deliver, Resume, ClosesOn, Faithful, Base8, Meaning;
    var x := s.posted[0];
    ClosesOnSame(s, x.id, Meaning(x.origin), decodes);
    DeliverFaithful(s.(posted := s.posted[1..], processed := s.processed + [x.origin]), x, decodes);
  }

  lemma DeliverFaithful(s: State, x: CRes, decodes: bool)
    requires Faithful(s.heap, x) && 0 !in s.heap
    requires x.id in s.sctxs && !s.sctxs[x.id].timedOut && s.sctxs[x.id].waitCo.Some?
    ensures var s1 := Disarm(s, s.sctxs[x.id].waitCo.value);
            Deliver(s, x, decodes) == Resume(s1.(heap := s.heap - {Base8(x.word)}), x.id,
              Result(x.origin, Meaning(x.origin), ClosesOn(s1, x.id, Meaning(x.origin), decodes)))
  {
    hide Resume, ClosesOn, Faithful, Base8, TypeOf, Meaning, Unpack, FreeBuf, Readable;
    FaithfulUnpack(s.heap, x);
    FreeBufShape(Disarm(s, s.sctxs[x.id].waitCo.value), x);
  }

  lemma FreeBufShape(s: State, x: CRes)
    requires Faithful(s.heap, x) && 0 !in s.heap
    ensures Readable(s, x) && FreeBuf(s, x.word) == s.(heap := s.heap - {Base8(x.word)})
  {
    hide Base8, TypeOf;
    FaithfulUnpack(s.heap, x);
    BufferThere(s.heap, x);
    assert Base8(x.word) == 0 ==> s.heap - {0} == s.heap;
  }

  lemma BufferThere(h: Heap, x: CRes)
    requires Faithful(h, x)
    ensures x.word != 0 && (Base8(x.word) == 0 || Base8(x.word) in h)
  {
    FaithfulUnpack(h, x);
  }

  lemma ClosesOnSame(s: State, id: Id, val: LuaValue, decodes: bool)
    requires Deliverable(s) && id == s.posted[0].id
    ensures var s1 := Disarm(s.(posted := s.posted[1..], processed := s.processed + [s.posted[0].origin]), s.sctxs[id].waitCo.value);
            ClosesOn(s1, id, val, decodes) == ClosesOn(s, id, val, decodes)
  {
  }

  lemma PreparedResume(s: State, cause: Cause)
    requires Deliverable(s)
    ensures Resume(Prepared(s), s.posted[0].id, cause) == Take(Resumed(s, s.posted[0].id, false, cause))
  {
    hide PlaceAfter, ConnsAfter, Succeeded;
    var id := s.posted[0].id;
    var co := s.sctxs[id].waitCo.value;
    Overwrite(s.cos, co, s.cos[co].(timer := false, cleanup := false), CoCtx(Running, false, false, id));
  }

  /** The delivered result is the operation's own if the id was clean at kick-off. */
  lemma DeliveryAttributed(s: State, decodes: bool)
    requires Inv(s) && s.posted != [] && s.posted[0].id in s.ongoing
    ensures Deliverable(s)
    ensures var co := s.sctxs[s.posted[0].id].waitCo.value;
            AttributedTo(s.cos[co].run.op, Delivery(s, decodes), s.ops, s.reported)
  {
    hide Placed, Registry, Waiters, Handled, Delayed, ConnRefsAgree, Books, Completions, Conserved,
      Attributed, WaiterSound, Owned, LostReason, Wholes, ConnHandled, JobStreams, Transit, Unsettled;
    Head(s);
    Kept(s, s.posted[0].id);
    var j := s.cos[s.sctxs[s.posted[0].id].waitCo.value].run.op;
    assert OwnJob(j, s.ops, s.jobs, Transit(s));
  }

  lemma DrainOneInv(s: State, decodes: bool)
    requires Inv(s) && s.posted != []
    ensures Inv(DrainOne(s, decodes))
  {
    hide Placed, Registry, Waiters, Handled, Delayed, ConnRefsAgree, Books, Conserved, OwnJobs, Completions,
      Attributed, WaiterSound, Owned, LostReason, Wholes, ConnHandled, JobStreams, DrainOne, Resume, Take, AttributedTo, Prepared, Delivery, Transit, Unsettled;
    Head(s);
    var x := s.posted[0];
    if x.id in s.ongoing {
      DeliveryAttributed(s, decodes);
      var cause := Delivery(s, decodes);
      DeliverShape(s, decodes);
      PreparedResume(s, cause);
      ResumedInv(s, x.id, false, cause);
      NobodyWaits(Resumed(s, x.id, false, cause), x.origin.job);
      TakeInv(Resumed(s, x.id, false, cause));
    } else {
      NobodyWaits(s, x.origin.job);
      DiscardShape(s, decodes);
      TakeInv(s);
    }
  }
}
