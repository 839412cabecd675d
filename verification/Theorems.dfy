/** The main results: what holds after every run from the initial state. */
module Theorems {
  import opened Base
  import opened Buffers
  import opened Machine
  import opened Invariants
  import opened Reachability
  import opened Undisturbed
  import opened Orderly
  import opened Wakeups
  import opened Attribution
  import opened HalfClose
  import opened OrderlyKickOff
  import opened OrderlyCompletion
  import opened Serialisation
  import opened CallOrder
  import opened Hypotheses
  import opened Provenance
  import opened Chronicle
  import opened Signals
  import Q = FinishedQueue

  // ---------------------------------------------------------------- every run

  /** First in, first out from goroutine to coroutine, for every interleaving: what was handled,
      then the posted queue, the batch and the Go queue, is what was reported, and no job
      reports twice or reports while it still runs. */
  lemma FifoConservation(run: seq<Step>)
    requires Runs(INIT, run)
    ensures var s := After(INIT, run);
            && s.reported == s.processed + Origins(s.posted) + Origins(s.batch) + s.q.tasks
            && (forall i, k :: 0 <= i < k < |s.reported| ==> s.reported[i].job != s.reported[k].job)
            && (forall i :: 0 <= i < |s.reported| ==> s.reported[i].job !in s.jobs)
  {
    hide Enabled, Apply, Placed, Registry, Waiters, Handled, Delayed, ConnRefsAgree, OwnJobs, Completions,
      Attributed, WaiterSound, Owned, LostReason, Wholes, ConnHandled, JobStreams;
    Reached(run);
  }

  lemma Reached(run: seq<Step>)
    requires Runs(INIT, run)
    ensures Inv(After(INIT, run))
  {
    hide Enabled, Apply, Inv;
    InitInv();
    RunInv(INIT, run);
  }

  /** How an operation stands: still waiting, or finished by the one event at index `i`. */
  predicate FinishedBy(s: State, j: JobId, i: nat) {
    && i < |s.events| && s.events[i].op == j
    && forall k :: 0 <= k < |s.events| && k != i ==> s.events[k].op != j
  }

  /** Every kicked-off operation is either awaited, with its tree entry, timer and cleanup hook
      in place and no event yet, or finished by exactly one of result, timeout and abort, and
      then no coroutine waits for it. Idle coroutines have neither timer nor hook. */
  lemma ExactlyOneCompletion(run: seq<Step>)
    requires Runs(INIT, run)
    ensures var s := After(INIT, run);
            && (forall j :: 0 <= j < |s.ops| ==>
                  if Awaited(s.cos, s.ops, j) then
                    && (forall i :: 0 <= i < |s.events| ==> s.events[i].op != j)
                    && s.ops[j].id in s.ongoing && s.cos[s.ops[j].co].timer && s.cos[s.ops[j].co].cleanup
                  else exists i: nat :: FinishedBy(s, j, i))
            && (forall co :: co in s.cos && !s.cos[co].run.Waiting? ==> !s.cos[co].timer && !s.cos[co].cleanup)
            && (forall co :: co in s.cos && s.cos[co].run.Waiting? ==>
                  s.cos[co].run.op < |s.ops| && s.ops[s.cos[co].run.op].co == co)
  {
    var s := After(INIT, run);
    Reached(run);
    hide Enabled, Apply, After, Placed, Registry, Handled, Delayed, ConnRefsAgree, OwnJobs, Books, Conserved,
      Attributed, WaiterSound, Owned, LostReason, Wholes, ConnHandled, JobStreams;
    forall j | 0 <= j < |s.ops| && Awaited(s.cos, s.ops, j)
      ensures s.ops[j].id in s.ongoing && s.cos[s.ops[j].co].timer && s.cos[s.ops[j].co].cleanup
    {
      assert CoSound(s.ongoing, s.sctxs, s.ops[j].co, s.cos[s.ops[j].co], s.ops);
    }
    forall j | 0 <= j < |s.ops| && !Awaited(s.cos, s.ops, j) ensures exists i: nat :: FinishedBy(s, j, i) {
      var i: nat :| i < |s.events| && s.events[i].op == j;
      assert FinishedBy(s, j, i);
    }
    forall co | co in s.cos ensures CoSound(s.ongoing, s.sctxs, co, s.cos[co], s.ops) {
    }
  }

  /** The contexts whose `node` pointer is set. */
  function WithNode(sctxs: map<Id, StreamCtx>): set<Id> {
    set id | id in sctxs && sctxs[id].node
  }

  /** Counter, tree and `node` pointers agree, and every registered context is awaited by a
      coroutine of its own, so a second operation on it is refused as busy. */
  lemma RegistryAgreement(run: seq<Step>)
    requires Runs(INIT, run)
    ensures var s := After(INIT, run);
            && s.ongoing == WithNode(s.sctxs) && s.ongoingNum == |s.ongoing|
            && (forall id :: id in s.ongoing ==>
                  && s.sctxs[id].waitCo.Some? && !s.sctxs[id].timedOut
                  && (forall r :: !StreamReady(s.sctxs[id], r))
                  && s.sctxs[id].waitCo.value in s.cos
                  && s.cos[s.sctxs[id].waitCo.value].run.Waiting? && s.cos[s.sctxs[id].waitCo.value].data == id)
  {
    var s := After(INIT, run);
    Reached(run);
    hide Enabled, Apply, After, Placed, Handled, Delayed, ConnRefsAgree, OwnJobs, Books, Conserved,
      Attributed, WaiterSound, Owned, LostReason, Wholes, ConnHandled, JobStreams, Completions, KeptPlace;
  }

  /** The four places a live context can be in. */
  predicate OnOpening(s: State, id: Id) requires id in s.sctxs {
    s.sctxs[id].parent in s.conns && id in s.conns[s.sctxs[id].parent].opening
  }

  predicate OnFree(s: State, id: Id) requires id in s.sctxs {
    s.sctxs[id].parent in s.conns && id in s.conns[s.sctxs[id].parent].free
  }

  predicate Flying(s: State, id: Id) requires id in s.sctxs {
    s.sctxs[id].place.InFlight?
  }

  predicate Deserted(s: State, id: Id) requires id in s.sctxs {
    s.sctxs[id].place.Abandoned?
  }

  predicate ExactlyOneOf(a: bool, b: bool, c: bool, d: bool) {
    (a || b || c || d) && !(a && b) && !(a && c) && !(a && d) && !(b && c) && !(b && d) && !(c && d)
  }

  /** Context placement partition: exactly one place each, no foreign or repeated queue entry,
      unary in-flight contexts are registered on a live parent, and nothing on a free queue is. */
  lemma PlacementPartition(run: seq<Step>)
    requires Runs(INIT, run)
    ensures var s := After(INIT, run);
            && (forall id :: id in s.sctxs ==> PlacedApart(s, id))
            && (forall c, id :: c in s.conns && id in s.conns[c].opening + s.conns[c].free ==>
                  id in s.sctxs && s.sctxs[id].parent == c)
            && (forall c :: c in s.conns ==> NoDup(s.conns[c].opening) && NoDup(s.conns[c].free))
  {
    hide Enabled, Apply, After, Inv, PlacedApart, NoDup;
    Reached(run);
    var s := After(INIT, run);
    forall id | id in s.sctxs ensures PlacedApart(s, id) {
      Apart(s, id);
    }
    QueuesOwn(s);
  }

  predicate PlacedApart(s: State, id: Id) requires id in s.sctxs {
    && ExactlyOneOf(OnOpening(s, id), OnFree(s, id), Flying(s, id), Deserted(s, id))
    && (OnFree(s, id) ==> id !in s.ongoing && !s.sctxs[id].node)
    && (Flying(s, id) ==> id in s.ongoing && s.sctxs[id].typ.Unary? && s.sctxs[id].parent in s.conns)
    && (Deserted(s, id) ==> id !in s.ongoing && s.sctxs[id].typ.Unary?)
  }

  lemma Apart(s: State, id: Id)
    requires Inv(s) && id in s.sctxs
    ensures PlacedApart(s, id)
  {
    hide Waiters, Handled, Delayed, ConnRefsAgree, OwnJobs, Books, Conserved,
      Attributed, WaiterSound, Owned, LostReason, Wholes, ConnHandled, JobStreams, Completions;
    assert PlacedCtx(s.conns, id, s.sctxs[id]) && KeptPlace(s.sctxs[id]);
  }

  lemma QueuesOwn(s: State)
    requires Inv(s)
    ensures forall c, id :: c in s.conns && id in s.conns[c].opening + s.conns[c].free ==>
              id in s.sctxs && s.sctxs[id].parent == c
    ensures forall c :: c in s.conns ==> NoDup(s.conns[c].opening) && NoDup(s.conns[c].free)
  {
    hide NoDup, PlacedCtx, Registry, Waiters, Handled, Delayed, ConnRefsAgree, OwnJobs, Books, Conserved,
      Attributed, WaiterSound, Owned, LostReason, Wholes, ConnHandled, JobStreams, Completions;
  }

  /** No run uses or frees a context, connection or buffer after it was freed, posts the thread
      task twice, or reads a null buffer. */
  lemma MemorySafety(run: seq<Step>)
    requires Runs(INIT, run)
    ensures var s := After(INIT, run);
            UseAfterFree !in s.faults && DoubleFree !in s.faults && DoublePost !in s.faults && NullBuffer !in s.faults
  {
    hide Enabled, Apply, Placed, Registry, Waiters, Handled, Delayed, ConnRefsAgree, OwnJobs, Completions,
      Attributed, WaiterSound, Owned, LostReason, Wholes, ConnHandled, JobStreams, Books, Conserved;
    Reached(run);
  }

  /** Record `i` of the records on their way owns the buffer at `p`. */
  predicate Owns(xs: seq<CRes>, i: nat, p: Ptr) {
    i < |xs| && Body(xs[i].origin).Some? && Base8(xs[i].word) == p
  }

  /** Live buffers are exactly those of the records not yet handled, each owned by one record
      and holding what that record's job reported; with nothing on its way, nothing is left. */
  lemma BufferOwnership(run: seq<Step>)
    requires Runs(INIT, run)
    ensures var s := After(INIT, run);
            var xs := s.posted + s.batch;
            && (forall p :: p in s.heap <==> exists i: nat :: Owns(xs, i, p))
            && (forall i: nat, k: nat, p :: Owns(xs, i, p) && Owns(xs, k, p) ==> i == k)
            && (forall i: nat, p :: Owns(xs, i, p) ==> s.heap[p] == Body(xs[i].origin).value)
            && (xs == [] ==> s.heap == map[])
            && (forall id :: id in s.ongoing ==> id in s.sctxs && !s.sctxs[id].timedOut)
  {
    var s := After(INIT, run);
    Reached(run);
    hide Enabled, Apply, After, Placed, Registry, Handled, Delayed, ConnRefsAgree, OwnJobs, Books, Conserved,
      Attributed, WaiterSound, LostReason, Wholes, ConnHandled, JobStreams, Completions, CoSound;
    var xs := s.posted + s.batch;
    forall i: nat, p | Owns(xs, i, p) ensures p in s.heap && s.heap[p] == Body(xs[i].origin).value {
      assert Faithful(s.heap, xs[i]);
    }
    forall p | p in s.heap ensures exists i: nat :: Owns(xs, i, p) {
      var i :| 0 <= i < |xs| && Body(xs[i].origin).Some? && Base8(xs[i].word) == p;
      assert Owns(xs, i, p);
    }
  }

  /** `Wait` never strands work: queued tasks are announced outside the lock, a parked waiter has
      nothing to collect and its own timer is pending, and there is one waiter at most, which is
      in progress exactly while the thread task is active. */
  lemma WaiterNeverStrands(run: seq<Step>)
    requires Runs(INIT, run)
    ensures var s := After(INIT, run);
            && (s.q.tasks != [] ==> s.q.done)
            && (s.q.phase == Q.Parked ==> s.q.tasks == [] && s.q.own in s.q.armed + s.q.firing)
            && (s.q.phase == Q.Woken ==> s.q.done)
            && (s.active <==> s.q.phase != Q.Off)
            && (s.batch != [] ==> s.q.phase == Q.Finished)
  {
    hide Enabled, Apply, Placed, Registry, Waiters, Handled, Delayed, ConnRefsAgree, OwnJobs, Completions,
      Attributed, Owned, LostReason, Wholes, ConnHandled, JobStreams, Books, Conserved;
    Reached(run);
  }

  /** `engine_ctx` is non-null exactly when its key is in `EngineCtxRef`, one key per connection. */
  lemma ConnectionReferences(run: seq<Step>)
    requires Runs(INIT, run)
    ensures var s := After(INIT, run);
            && (forall c :: c in s.conns && s.conns[c].engine.Some? ==>
                  s.conns[c].engine.value in s.connRefs && s.connRefs[s.conns[c].engine.value] == c)
            && (forall e :: e in s.connRefs ==> s.connRefs[e] in s.conns && s.conns[s.connRefs[e]].engine == Some(e))
  {
    hide Enabled, Apply, Placed, Registry, Waiters, Handled, OwnJobs, Completions,
      Attributed, Owned, LostReason, Wholes, ConnHandled, JobStreams, Books, Conserved, WaiterSound;
    Reached(run);
  }

  /** What a live Lua handle points at is allocated: a connection, linked to the engine while the
      handle is open, or a stream context on the opening queue of a live connection. */
  lemma LiveHandles(run: seq<Step>)
    requires Runs(INIT, run)
    ensures var s := After(INIT, run);
            && (forall c :: c in s.connHandles ==> c in s.conns && !s.conns[c].freeDelayed)
            && (forall c :: c in s.connHandles && s.connHandles[c] ==> s.conns[c].engine.Some?)
            && (forall id :: id in s.handles ==>
                  id in s.sctxs && s.sctxs[id].parent in s.conns && id in s.conns[s.sctxs[id].parent].opening)
  {
    hide Enabled, Apply, After, Inv;
    Reached(run);
    HandlesLive(After(INIT, run));
  }

  lemma HandlesLive(s: State)
    requires Inv(s)
    ensures forall c :: c in s.connHandles ==> c in s.conns && !s.conns[c].freeDelayed
    ensures forall c :: c in s.connHandles && s.connHandles[c] ==> s.conns[c].engine.Some?
    ensures forall id :: id in s.handles ==>
              id in s.sctxs && s.sctxs[id].parent in s.conns && id in s.conns[s.sctxs[id].parent].opening
  {
    hide Registry, Waiters, OwnJobs, Completions, Attributed, Owned, JobStreams, Books, Conserved, WaiterSound, ConnRefsAgree,
      Delayed, LostReason, Wholes;
    forall id | id in s.handles ensures id in s.sctxs && PlacedCtx(s.conns, id, s.sctxs[id]) {
    }
  }

  /** A connection that outlives its handle waits for a stream handle still to be finalized, or for
      a context whose opening failed, timed out or was aborted; a context whose connection is
      gone was abandoned by an abort. */
  lemma DeferredDestruction(run: seq<Step>)
    requires Runs(INIT, run)
    ensures var s := After(INIT, run);
            && (forall c :: c in s.conns && c !in s.connHandles ==>
                  s.conns[c].opening != [] && forall id :: id in s.conns[c].opening ==>
                    id in s.handles || exists i: nat :: FailedOpen(s.events, s.ops, i) && s.ops[s.events[i].op].id == id)
            && (forall id :: id in s.sctxs && s.sctxs[id].parent !in s.conns ==> s.sctxs[id].place.Abandoned?)
  {
    hide Enabled, Apply, After, Inv;
    var s := After(INIT, run);
    Reached(run);
    forall c | c in s.conns && c !in s.connHandles
      ensures s.conns[c].opening != [] && forall id :: id in s.conns[c].opening ==>
                id in s.handles || exists i: nat :: FailedOpen(s.events, s.ops, i) && s.ops[s.events[i].op].id == id
    {
      Delays(s, c);
    }
    Orphans(s);
  }

  lemma Delays(s: State, c: ConnId)
    requires Inv(s) && c in s.conns && c !in s.connHandles
    ensures s.conns[c].opening != []
    ensures forall id :: id in s.conns[c].opening ==>
              id in s.handles || exists i: nat :: FailedOpen(s.events, s.ops, i) && s.ops[s.events[i].op].id == id
  {
    hide Registry, Waiters, OwnJobs, Completions, Attributed, Owned, JobStreams, Books, Conserved, WaiterSound, ConnRefsAgree,
      Wholes, PlacedCtx;
    forall id | id in s.conns[c].opening
      ensures id in s.handles || exists i: nat :: FailedOpen(s.events, s.ops, i) && s.ops[s.events[i].op].id == id
    {
      assert id in s.sctxs && s.sctxs[id].parent == c && s.sctxs[id].place.OnOpening();
    }
  }

  lemma Orphans(s: State)
    requires Inv(s)
    ensures forall id :: id in s.sctxs && s.sctxs[id].parent !in s.conns ==> s.sctxs[id].place.Abandoned?
  {
    hide Registry, Waiters, OwnJobs, Completions, Attributed, Owned, JobStreams, Books, Conserved, WaiterSound, ConnRefsAgree,
      Handled, Delayed, LostReason, Wholes, ConnHandled;
    forall id | id in s.sctxs ensures PlacedCtx(s.conns, id, s.sctxs[id]) {
    }
  }

  // ---------------------------------------------------------------- where everything comes from

  /** The operations are the admitted requests of the run, in order and unaltered: operation `j` has
      the coroutine, the method and the message of the `j`-th, and a stream has the type its
      opening asked for. */
  lemma OperationsTraced(run: seq<Step>)
    requires Runs(INIT, run)
    ensures var s, starters := After(INIT, run), Starters(INIT, run);
            && |s.ops| == |starters|
            && (forall j :: 0 <= j < |s.ops| ==> Starts(starters[j], s.ops[j]))
            && (forall u :: u in s.streams ==> u < |starters| && starters[u].DoNewStream? && starters[u].typ == s.streams[u].typ)
  {
    hide Enabled, Apply, Inv, Starters, Runs, After;
    InitInv();
    InitTraced();
    StartRun(INIT, run, []);
    Reached(run);
    KnownJobs(After(INIT, run));
    assert [] + Starters(INIT, run) == Starters(INIT, run);
  }

  lemma InitTraced()
    ensures Started(INIT, []) && Completed(INIT, [])
  {
  }

  /** Payloads are what the engine's calls returned: every reported result is the result and error
      some goroutine ended with, every goroutine's end is reported or about to be, and no goroutine
      ends twice. */
  lemma ResultsTraced(run: seq<Step>)
    requires Runs(INIT, run)
    ensures var s := After(INIT, run);
            && (forall t :: t in s.reported ==> DoRunJob(t.job, t.result, t.err) in run)
            && (forall i :: 0 <= i < |run| && run[i].DoRunJob? ==>
                  && run[i].j < |s.ops|
                  && var t := TaskResult(s.ops[run[i].j].id, run[i].result, run[i].err, run[i].j);
                     t in s.reported || (run[i].j in s.jobs && s.jobs[run[i].j].ran == Some(t)))
            && (forall i, k :: 0 <= i < k < |run| && run[i].DoRunJob? && run[k].DoRunJob? ==> run[i].j != run[k].j)
  {
    hide Enabled, Apply, Inv, Runs, After;
    InitInv();
    EndRun(INIT, run);
    var s := After(INIT, run);
    forall t | t in s.reported ensures DoRunJob(t.job, t.result, t.err) in run {
      assert HasEnded(s, t);
      NothingEnded(t);
    }
    forall i, k | 0 <= i < k < |run| && run[i].DoRunJob? && run[k].DoRunJob? ensures run[i].j != run[k].j {
      EndsOnce(INIT, run, i, k);
    }
  }

  lemma NothingEnded(t: TaskResult)
    ensures !HasEnded(INIT, t)
  {
  }

  /** The completions are the endings of the run, in order: a delivered record with its own payload or
      error, a timeout or an abort of the operation its coroutine awaited. A completion closes the
      stream exactly if it is a decoded success of a `recv_close`. */
  lemma CompletionsTraced(run: seq<Step>)
    requires Runs(INIT, run)
    ensures var s, endings := After(INIT, run), EndingsOf(INIT, run);
            && |s.events| == |endings|
            && (forall i :: 0 <= i < |s.events| ==> EndsAs(endings[i], s.events[i], s.ops))
  {
    hide Enabled, Apply, Inv, EndingsOf, Runs, After, EndsAs;
    InitInv();
    InitTraced();
    CompleteRun(INIT, run, []);
    assert [] + EndingsOf(INIT, run) == EndingsOf(INIT, run);
  }

  /** A connection handle is open, and its engine connection registered, from its `connect` to the
      first close or finalizer, and at no other time. */
  lemma ConnectionsTraced(run: seq<Step>, c: ConnId, e: Ref)
    requires Runs(INIT, run)
    ensures var s, link := After(INIT, run), LinkOf(Gone, run, c);
            && (c in s.connHandles <==> !link.Gone?)
            && (c in s.connHandles ==> (s.connHandles[c] <==> link.Linked?))
            && (e in s.connRefs && s.connRefs[e] == c <==> link == Linked(e))
  {
    hide Enabled, Apply, Inv, Runs, After;
    InitInv();
    LinkRun(INIT, run, c, Gone);
    Reached(run);
    Registered(After(INIT, run), c, e, LinkOf(Gone, run, c));
  }

  lemma Registered(s: State, c: ConnId, e: Ref, link: Link)
    requires Inv(s) && LinkHolds(s, c, link)
    ensures e in s.connRefs && s.connRefs[e] == c <==> link == Linked(e)
  {
    hide Placed, Registry, Waiters, Handled, Delayed, OwnJobs, Completions,
      Attributed, Owned, LostReason, Wholes, ConnHandled, JobStreams, Books, Conserved, WaiterSound;
  }

  /** Stream handles and references, exactly: a handle is handed out by the answer of a successful
      opening, emptied by a close or by a `recv_close` that is answered with a success that decodes, and
      gone with its finalizer; a stream is stored by the goroutine that opened it and forgotten when
      the handle is emptied or finalized. */
  lemma StreamsTraced(run: seq<Step>, id: Id)
    requires Runs(INIT, run)
    ensures var s, slot := After(INIT, run), SlotOf(Slot(None, None), INIT, run, id);
            && (id in s.handles <==> slot.handle.Some?) && (id in s.handles ==> s.handles[id] == slot.handle.value)
            && (id in s.streamRefs <==> slot.stream.Some?) && (id in s.streamRefs ==> s.streamRefs[id] == slot.stream.value)
  {
    hide Enabled, Apply, Inv, Runs, After, SlotOf;
    InitInv();
    SlotRun(INIT, run, id);
    assert SlotIn(INIT, id) == Slot(None, None);
  }

  /** The waiter's condition holds exactly if a result was reported or a timer's callback ran since the
      last look at it, and only the timer of a wait in progress is armed. */
  lemma SignalsTraced(run: seq<Step>)
    requires Runs(INIT, run)
    ensures var s := After(INIT, run);
            && s.q.done == DoneOf(false, run)
            && (forall t :: t in s.q.armed ==>
                  t == s.q.own && (s.q.phase == Q.Entering || s.q.phase == Q.Parked || s.q.phase == Q.Woken))
  {
    hide Enabled, Apply, Inv, Runs, After, DoneOf;
    InitInv();
    SignalRun(INIT, run);
  }

  /** A coroutine waits exactly from the start of an operation to its answer or timeout; aborted, it
      never runs again. */
  lemma CoroutinesTraced(run: seq<Step>, co: Co)
    requires Runs(INIT, run)
    ensures CoOf(After(INIT, run), co).run == CoRunOf(Running, INIT, run, co)
  {
    hide Enabled, Apply, Inv, Runs, After, CoRunOf;
    InitInv();
    CoTrace(INIT, run, co);
    assert CoOf(INIT, co).run == Running;
  }

  /** Admission, exactly: a running coroutine can call a method its handle's type has while the handle is
      open. The call starts an operation if and only if its request is the one the stream was opened
      for, the last call on it was answered or timed out (not aborted, not under way), and the engine
      has the stream. Otherwise it changes nothing, except that a missing stream is fatal. */
  lemma AdmissionTraced(run: seq<Step>, co: Co, r: Req, id: Id, op: Op, none: Owner)
    requires Runs(INIT, run)
    ensures var s, a := After(INIT, run), DoStreamOp(co, r, id, op);
            var owner, slot := OwnerOf(none, INIT, run, id), SlotOf(Slot(None, None), INIT, run, id);
            var ready := owner.r == Some(r) && owner.co.None?;
            && (Enabled(s, a) <==>
                  && s.faults == {} && CoRunOf(Running, INIT, run, co).Running? && slot.handle == Some(true)
                  && HasMethod(owner.typ, op))
            && (Enabled(s, a) ==>
                  && (ready && slot.stream.Some? ==> |Apply(s, a).ops| == |s.ops| + 1 && Starts(a, Apply(s, a).ops[|s.ops|]))
                  && (!(ready && slot.stream.Some?) ==> Apply(s, a) == s.(faults := Apply(s, a).faults))
                  && (Apply(s, a).faults != {} <==> ready && slot.stream.None?))
  {
    hide Enabled, Apply, Inv, Runs, After, SlotOf, OwnerOf, Started, StreamOp, CoOf, CoRunOf, HasMethod;
    var s, a := After(INIT, run), DoStreamOp(co, r, id, op);
    InitInv();
    Reached(run);
    OwnerRun(INIT, run, id, none);
    StreamsTraced(run, id);
    CoroutinesTraced(run, co);
    Callable(s, co, r, id, op);
    if Enabled(s, a) {
      Admits(s, a);
    }
  }

  // ---------------------------------------------------------------- calls on streams

  /** In every run a client stream reads only after a half-close by the same job. */
  lemma ClientReadsLast(run: seq<Step>, u: JobId)
    requires Runs(INIT, run)
    requires u in After(INIT, run).streams && After(INIT, run).streams[u].typ.ClientStream?
    ensures ReadsAfterHalfClose(After(INIT, run).streams[u].log)
  {
    hide Enabled, Apply, After, Inv, ReadsAfterHalfClose, StreamSound;
    Reached(run);
    SoundAt(After(INIT, run), u);
    ClientReads(u, After(INIT, run).streams[u], After(INIT, run).ops);
  }

  /** If every call on a stream finds the earlier ones' calls made, the stream's log is, job after
      job in Lua call order, a prefix of each job's script, whole where the job succeeded. Written
      out for a server or bidirectional stream: the request, a server stream's half-close, then for
      each method in Lua call order its message, half-close or read, and nothing only where it failed
      or is still at work. A client stream's reads come right after their half-close. */
  lemma PacedCalls(run: seq<Step>, u: JobId)
    requires Runs(INIT, run) && PacedRun(INIT, run, u) && u in After(INIT, run).streams
    ensures var s := After(INIT, run);
            var st := s.streams[u];
            && st.log == Grouped(st.kicks, st.log)
            && (forall i, k :: 0 <= i < k < |st.kicks| ==> st.kicks[i] < st.kicks[k])
            && (forall i :: 0 <= i < |st.kicks| ==>
                  && st.kicks[i] < |s.ops| && CallsOf(st.log, st.kicks[i]) <= FullWire(st.typ, s.ops[st.kicks[i]].op)
                  && (Succeeds(s.jobs, s.reported, st.kicks[i]) ==>
                        CallsOf(st.log, st.kicks[i]) == FullWire(st.typ, s.ops[st.kicks[i]].op)))
            && (st.typ.ClientStream? ==> ReadsNext(st.log))
            && (!st.typ.ClientStream? ==>
                  && u < |s.ops| && s.ops[u].op.OpenOp?
                  && Wires(st.log) == [Msg(s.ops[u].op.req)] + (if st.typ.ServerStream? then [HalfClose] else []) + Dialogue(st, s.ops, |st.kicks|)
                  && forall i :: 0 <= i < |st.kicks| && Succeeds(s.jobs, s.reported, st.kicks[i]) ==> CallsOf(st.log, st.kicks[i]) != [])
  {
    hide Enabled, Apply, After, Inv, Paced, PacedRun, Grouped, CallsOf, FullWire, ReadsNext, Succeeds;
    var s := After(INIT, run);
    Reached(run);
    InitInv();
    InitPaced(u);
    PacedRuns(INIT, run, u);
    LogForm(s, u);
    if !s.streams[u].typ.ClientStream? {
      Spells(s, u);
    }
  }

  lemma Spells(s: State, u: JobId)
    requires Inv(s) && Paced(s, u) && u in s.streams && !s.streams[u].typ.ClientStream?
    ensures var st := s.streams[u];
            && u < |s.ops| && s.ops[u].op.OpenOp? && (forall i :: 0 <= i < |st.kicks| ==> st.kicks[i] < |s.ops|)
            && Wires(st.log) == [Msg(s.ops[u].op.req)] + (if st.typ.ServerStream? then [HalfClose] else []) + Dialogue(st, s.ops, |st.kicks|)
            && forall i :: 0 <= i < |st.kicks| && Succeeds(s.jobs, s.reported, st.kicks[i]) ==> CallsOf(st.log, st.kicks[i]) != []
  {
    hide Inv, CallsOf, Grouped, ReadsNext, Succeeds, Busy, Dialogue;
    var st := s.streams[u];
    LogForm(s, u);
    SoundAt(s, u);
    DialogueLog(u, st, s.ops);
    forall i | 0 <= i < |st.kicks| && Succeeds(s.jobs, s.reported, st.kicks[i]) ensures CallsOf(st.log, st.kicks[i]) != [] {
      assert i == 0 || StreamJob(s.ops[st.kicks[i]].op);
    }
  }

  lemma InitPaced(u: JobId)
    ensures Paced(INIT, u) && Fits(INIT, u)
  {
  }

  lemma LogForm(s: State, u: JobId)
    requires Inv(s) && Paced(s, u) && u in s.streams
    ensures var st := s.streams[u];
            && InCallOrder(st.log) && st.log == Grouped(st.kicks, st.log)
            && (forall i, k :: 0 <= i < k < |st.kicks| ==> st.kicks[i] < st.kicks[k])
            && (forall i :: 0 <= i < |st.kicks| ==>
                  && st.kicks[i] < |s.ops| && CallsOf(st.log, st.kicks[i]) <= FullWire(st.typ, s.ops[st.kicks[i]].op)
                  && (Succeeds(s.jobs, s.reported, st.kicks[i]) ==>
                        CallsOf(st.log, st.kicks[i]) == FullWire(st.typ, s.ops[st.kicks[i]].op)))
            && (st.typ.ClientStream? ==> ReadsNext(st.log))
  {
    hide Placed, Registry, Waiters, Handled, Delayed, ConnRefsAgree, OwnJobs, Completions, Attributed, ConnHandled,
      WaiterSound, Owned, LostReason, Books, Conserved, JobStreams, CallsOf, FullWire, Busy, Grouped, ReadsNext, Succeeds;
    var st := s.streams[u];
    SoundAt(s, u);
    OrderedIsGrouped(st.kicks, st.log);
    if st.typ.ClientStream? {
      ClientReadsNext(u, st, s.ops);
    }
  }

  /** A server stream on which every call was one its own type offers sent exactly its request and
      one half-close, ids reissued or not. */
  lemma ServerHalfClose(run: seq<Step>, u: JobId)
    requires Runs(INIT, run) && FitRun(INIT, run, u)
    requires u in After(INIT, run).streams && After(INIT, run).streams[u].typ.ServerStream?
    ensures var s := After(INIT, run);
            && u < |s.ops| && s.ops[u].op.OpenOp?
            && Outbound(Wires(s.streams[u].log)) == [Msg(s.ops[u].op.req), HalfClose]
  {
    hide Enabled, Apply, After, Inv, Fits, FitRun, StreamSound, Outbound;
    var s := After(INIT, run);
    Reached(run);
    InitInv();
    InitPaced(u);
    FitRuns(INIT, run, u);
    OpenedBy(s, u);
    FitIsTidy(s, u);
  }

  lemma OpenedBy(s: State, u: JobId)
    requires Inv(s) && u in s.streams
    ensures u < |s.ops| && s.ops[u].op.OpenOp? && s.streams[u].kicks != []
  {
    hide Inv, CallsOf, FullWire;
    SoundAt(s, u);
  }

  /** A client stream whose calls were paced and fitting and whose last job is its first
      `recv_close`, ended without an error: the request, each send's own message in Lua call order
      (none where the send failed before it), one half-close, one read. */
  lemma ClientHalfClose(run: seq<Step>, u: JobId)
    requires Runs(INIT, run) && PacedRun(INIT, run, u)
    requires u in After(INIT, run).streams && After(INIT, run).streams[u].typ.ClientStream?
    requires var s := After(INIT, run);
             var st := s.streams[u];
             var n := |st.kicks| - 1;
             && n >= 1 && (forall i :: 0 <= i <= n ==> st.kicks[i] < |s.ops|)
             && (forall i :: 1 <= i < n ==> s.ops[st.kicks[i]].op.SendOp?)
             && s.ops[st.kicks[n]].op.RecvOp? && Succeeds(s.jobs, s.reported, st.kicks[n])
    ensures var s := After(INIT, run);
            var st := s.streams[u];
            var n := |st.kicks| - 1;
            && u < |s.ops| && s.ops[u].op.OpenOp?
            && Wires(st.log) == [Msg(s.ops[u].op.req)] + Sent(st, s.ops, n) + [HalfClose, Read]
            && (forall i :: 1 <= i < n && Succeeds(s.jobs, s.reported, st.kicks[i]) ==> CallsOf(st.log, st.kicks[i]) != [])
  {
    hide Enabled, Apply, After, Inv, Paced, PacedRun;
    Reached(run);
    InitInv();
    InitPaced(u);
    PacedRuns(INIT, run, u);
    ClientClosed(After(INIT, run), u);
  }

  lemma ClientClosed(s: State, u: JobId)
    requires Inv(s) && Paced(s, u) && u in s.streams && s.streams[u].typ.ClientStream?
    requires var st := s.streams[u];
             var n := |st.kicks| - 1;
             && n >= 1 && (forall i :: 0 <= i <= n ==> st.kicks[i] < |s.ops|)
             && (forall i :: 1 <= i < n ==> s.ops[st.kicks[i]].op.SendOp?)
             && s.ops[st.kicks[n]].op.RecvOp? && Succeeds(s.jobs, s.reported, st.kicks[n])
    ensures var st := s.streams[u];
            var n := |st.kicks| - 1;
            && u < |s.ops| && s.ops[u].op.OpenOp?
            && Wires(st.log) == [Msg(s.ops[u].op.req)] + Sent(st, s.ops, n) + [HalfClose, Read]
            && (forall i :: 1 <= i < n && Succeeds(s.jobs, s.reported, st.kicks[i]) ==> CallsOf(st.log, st.kicks[i]) != [])
  {
    hide Inv, Paced, CallsOf, StreamSound, Sent, Succeeds, Grouped, ReadsNext;
    var st := s.streams[u];
    var n := |st.kicks| - 1;
    OpenedBy(s, u);
    LogForm(s, u);
    SoundAt(s, u);
    assert CallsOf(st.log, st.kicks[n]) == [HalfClose, Read];
    ClientLog(u, st, s.ops);
  }

  // ---------------------------------------------------------------- runs that reissue no id early

  /** Result attribution: a coroutine resumed with a result got exactly what its own engine job
      ended with: the error if there was one, else the payload, and nil for a missing payload. */
  lemma ResultAttribution(run: seq<Step>)
    requires Runs(INIT, run) && NeverReissued(INIT, run)
    ensures var s := After(INIT, run);
            forall i :: 0 <= i < |s.events| && s.events[i].cause.Result? ==>
              && s.events[i].cause.origin in s.reported
              && s.events[i].cause.origin.job == s.events[i].op
              && exists k :: 0 <= k < |run| && Answered(run[k], s.events[i].op, s.events[i].cause.val)
  {
    hide Enabled, Apply, After, Inv, OrderInv, Runs;
    var s := After(INIT, run);
    Orderliness(run);
    ResultsTraced(run);
    forall i | 0 <= i < |s.events| && s.events[i].cause.Result?
      ensures s.events[i].cause.origin in s.reported && s.events[i].cause.origin.job == s.events[i].op
      ensures exists k :: 0 <= k < |run| && Answered(run[k], s.events[i].op, s.events[i].cause.val)
    {
      OwnAnswer(s, i);
      var t := s.events[i].cause.origin;
      var k :| 0 <= k < |run| && run[k] == DoRunJob(t.job, t.result, t.err);
      assert Answered(run[k], s.events[i].op, s.events[i].cause.val);
    }
  }

  /** Goroutine `j` ended in this step with what the coroutine sees as `val`. */
  predicate Answered(a: Step, j: JobId, val: LuaValue) {
    a.DoRunJob? && a.j == j && val == if a.err.Some? then LuaValue(false, a.err) else LuaValue(true, a.result)
  }

  lemma OwnAnswer(s: State, i: nat)
    requires Inv(s) && OrderInv(s) && i < |s.events| && s.events[i].cause.Result?
    ensures var cause := s.events[i].cause;
            cause.origin in s.reported && cause.origin.job == s.events[i].op && cause.val == Meaning(cause.origin)
  {
    hide Placed, Registry, Waiters, Handled, Delayed, ConnRefsAgree, OwnJobs, Completions, Transit,
      WaiterSound, Owned, LostReason, Wholes, ConnHandled, JobStreams, Books, Conserved, OnePerId, Latest, Opens, Stored, Resolves,
      Closing, Meaning;
    assert AttributedTo(s.events[i].op, s.events[i].cause, s.ops, s.reported);
  }

  /** Reference maps never miss: every open stream handle is in `StreamRef`, every emptied one is
      not, and `mustFind` never panics. */
  lemma ReferencesNeverMiss(run: seq<Step>)
    requires Runs(INIT, run) && NeverReissued(INIT, run)
    ensures var s := After(INIT, run);
            && s.faults == {}
            && (forall id :: id in s.handles ==> (s.handles[id] <==> id in s.streamRefs))
            && (forall id :: id in s.handles && s.handles[id] ==>
                  && s.streamRefs[id] in s.streams && s.streams[s.streamRefs[id]].id == id
                  && id in s.sctxs && s.streams[s.streamRefs[id]].typ == s.sctxs[id].typ)
  {
    hide Enabled, Apply, After, Inv, OrderInv;
    Orderliness(run);
    NoneMissing(After(INIT, run));
  }

  lemma NoneMissing(s: State)
    requires Inv(s) && OrderInv(s)
    ensures s.faults == {} && (forall id :: id in s.handles ==> (s.handles[id] <==> id in s.streamRefs))
    ensures forall id :: id in s.handles && s.handles[id] ==>
              && s.streamRefs[id] in s.streams && s.streams[s.streamRefs[id]].id == id
              && id in s.sctxs && s.streams[s.streamRefs[id]].typ == s.sctxs[id].typ
  {
    hide Placed, Registry, Waiters, Handled, Delayed, ConnRefsAgree, OwnJobs, Completions, Attributed,
      WaiterSound, Owned, LostReason, Wholes, ConnHandled, Books, Conserved, OnePerId, Latest, Opens, Stored,
      Closing, StreamSound;
  }

  /** On a clean id every earlier job of the stream has made its calls. */
  lemma CleanIdle(s: State, a: Step, u: JobId)
    requires Inv(s) && Enabled(s, a) && KicksOn(s, a, u) && CleanId(s, a.id)
    ensures Idle(s, u)
  {
    hide Inv, Enabled, Apply, KicksOff, CallsLeft;
    forall k ensures !Busy(s, u, k) {
      if Unfinished(s.jobs, u, k) {
        assert Outstanding(s, k);
        AtWork(s, k, u);
      }
    }
  }

  /** Runs that reissue no id early are paced and fitting on every stream. */
  lemma {:induction false} CleanPaced(s: State, run: seq<Step>, u: JobId)
    requires Inv(s) && OrderInv(s) && Runs(s, run) && AllClean(After(s, run).ops)
    ensures PacedRun(s, run, u) && FitRun(s, run, u)
    decreases |run|
  {
    hide Inv, OrderInv, Enabled, Apply, AllClean, KicksOn, Idle, CleanId, Offers;
    if run != [] {
      var a, s1 := run[0], Apply(s, run[0]);
      StepInv(s, a);
      OpsRun(s1, run[1..]);
      CleanPrefix(s1.ops, After(s, run).ops);
      OrderStep(s, a);
      CleanPaced(s1, run[1..], u);
      if KicksOn(s, a, u) {
        CleanKick(s, a, u);
      }
    }
  }

  lemma CleanKick(s: State, a: Step, u: JobId)
    requires Inv(s) && OrderInv(s) && Enabled(s, a) && KicksOn(s, a, u) && AllClean(Apply(s, a).ops)
    ensures Idle(s, u) && a.DoStreamOp? && (u in s.streams ==> Offers(s.streams[u].typ, a.op))
  {
    hide Inv, Enabled, Apply, Idle, CleanId, OnePerId, Latest, Opens, Stored, Resolves, Closing, Offers, KicksOff;
    var streams, ctx, info, job := Kicked(s, a);
    AfterKickOff(s, a);
    LaunchedOps(s, Apply(s, a), s.conns, streams, a.co, a.id, ctx, info, job);
    assert Apply(s, a).ops[|s.ops|] == info;
    CleanIdle(s, a, u);
    HandleResolves(s, a.id);
    SameTypeFits(s, a, u);
  }

  /** Per-stream serialisation: when no id is reissued early, two jobs on one stream are never
      unfinished together, and its calls reach the wire in Lua call order. */
  lemma StreamSerialisation(run: seq<Step>, u: JobId)
    requires Runs(INIT, run) && NeverReissued(INIT, run) && u in After(INIT, run).streams
    ensures PacedRun(INIT, run, u) && FitRun(INIT, run, u)
    ensures var s := After(INIT, run);
            && (forall j, k :: Unfinished(s.jobs, u, j) && Unfinished(s.jobs, u, k) ==> j == k)
            && InCallOrder(s.streams[u].log) && s.streams[u].log == Grouped(s.streams[u].kicks, s.streams[u].log)
  {
    hide Enabled, Apply, Inv, OrderInv, PacedRun, FitRun, Grouped, Paced, Runs, After, InCallOrder, AllClean;
    Orderliness(run);
    InitInv();
    InitOrder();
    ReissueFlags(INIT, run);
    InitClean();
    CleanPaced(INIT, run, u);
    InitPaced(u);
    PacedRuns(INIT, run, u);
    LogForm(After(INIT, run), u);
    forall j, k | Unfinished(After(INIT, run).jobs, u, j) && Unfinished(After(INIT, run).jobs, u, k) ensures j == k {
      OneAtWork(After(INIT, run), u, j, k);
    }
  }

  lemma InitClean()
    ensures AllClean(INIT.ops)
  {
  }

  lemma OneAtWork(s: State, u: JobId, j: JobId, k: JobId)
    requires Inv(s) && OrderInv(s) && Unfinished(s.jobs, u, j) && Unfinished(s.jobs, u, k)
    ensures j == k
  {
    hide Inv, Latest, Opens, Stored, Resolves, Closing;
    AtWork(s, j, u);
    AtWork(s, k, u);
    assert Outstanding(s, j) && Outstanding(s, k);
  }

  /** When no id is reissued early, a `recv_close` answered with a success that decodes is the last job
      of its stream, ended without an error, and no handle leads to the stream any more; so
      ClientHalfClose applies if it was the first. */
  lemma RecvCloseFinal(run: seq<Step>, u: JobId, n: nat, i: nat)
    requires Runs(INIT, run) && NeverReissued(INIT, run) && u in After(INIT, run).streams
    requires n < |After(INIT, run).streams[u].kicks| && i < |EndingsOf(INIT, run)| && i < |After(INIT, run).events|
    requires var s := After(INIT, run);
             var j, e := s.streams[u].kicks[n], EndingsOf(INIT, run)[i];
             && s.events[i].op == j && j < |s.ops| && s.ops[j].op.RecvOp?
             && e.ByRecord? && e.t.err.None? && e.decodes && e.typ.ClientStream?
    ensures var s := After(INIT, run);
            && n == |s.streams[u].kicks| - 1 && Succeeds(s.jobs, s.reported, s.streams[u].kicks[n])
            && (forall id :: id in s.streamRefs ==> s.streamRefs[id] != u)
            && PacedRun(INIT, run, u)
  {
    hide Enabled, Apply, After, Inv, OrderInv, PacedRun, Grouped, FitRun, InCallOrder, Runs, EndingsOf;
    Orderliness(run);
    CompletionsTraced(run);
    assert EndsAs(EndingsOf(INIT, run)[i], After(INIT, run).events[i], After(INIT, run).ops);
    StreamSerialisation(run, u);
    ClosedFinal(After(INIT, run), u, n, i);
  }

  lemma ClosedFinal(s: State, u: JobId, n: nat, i: nat)
    requires Inv(s) && OrderInv(s) && u in s.streams && n < |s.streams[u].kicks| && ClosedBy(s.events, i, s.streams[u].kicks[n])
    ensures n == |s.streams[u].kicks| - 1 && s.streams[u].kicks[n] < |s.ops| && s.ops[s.streams[u].kicks[n]].op.RecvOp?
    ensures Succeeds(s.jobs, s.reported, s.streams[u].kicks[n]) && Unreferenced(s.streamRefs, u)
  {
    hide Placed, Registry, Waiters, Handled, Delayed, ConnRefsAgree, Conserved, OwnJobs, Completions, Books,
      WaiterSound, LostReason, Wholes, ConnHandled, JobStreams, Transit, Owned,
      OnePerId, Latest, Opens, Stored, Resolves;
    assert AttributedTo(s.events[i].op, s.events[i].cause, s.ops, s.reported);
    var r :| 0 <= r < |s.reported| && s.reported[r] == s.events[i].cause.origin;
    assert s.reported[r].job == s.streams[u].kicks[n] && s.reported[r].err.None?;
  }

  // ---------------------------------------------------------------- runs without timeouts and aborts

  lemma CalmReached(run: seq<Step>)
    requires Runs(INIT, run) && CalmRun(run)
    ensures Inv(After(INIT, run)) && CalmInv(After(INIT, run))
  {
    hide Enabled, Apply, Inv, CalmInv;
    InitInv();
    InitCalm();
    CalmRuns(INIT, run);
  }

  /** Without timeouts and aborts no id is ever reissued early. */
  lemma CalmNeverReissues(run: seq<Step>)
    requires Runs(INIT, run) && CalmRun(run)
    ensures NeverReissued(INIT, run)
  {
    hide Enabled, Apply, Inv, Matched, AllPosted, NeverReissued;
    InitInv();
    CalmReached(run);
    ReissueFlags(INIT, run);
  }

  /** One-to-one correspondence: registered ids are exactly the ids of running jobs and in-transit
      records, which are pairwise different and as many. */
  lemma OneToOne(run: seq<Step>)
    requires Runs(INIT, run) && CalmRun(run)
    ensures var s := After(INIT, run);
            && (forall j :: j in OutstandingSet(s) ==> j < |s.ops|)
            && IdsOf(OutstandingSet(s), s.ops) == s.ongoing
            && |s.jobs| + |s.q.tasks| + |s.batch| + |s.posted| == s.ongoingNum
            && (forall j, k :: 0 <= j < k < |s.ops| && Outstanding(s, j) && Outstanding(s, k) ==> s.ops[j].id != s.ops[k].id)
  {
    var s := After(INIT, run);
    CalmReached(run);
    hide Enabled, Apply, After, Placed, Registry, Waiters, Handled, Delayed, ConnRefsAgree, OwnJobs, Completions, Attributed,
      WaiterSound, Owned, LostReason, Wholes, ConnHandled, Books, Conserved, JobStreams, Matched, AllClean, AllPosted, Transit, Outstanding;
    Correspondence(s);
    RegistryCount(s);
    TransitLength(s);
  }

  /** No lost wake-up: while an awaited operation's own result has not reached the posted queue,
      the waiter is active. */
  lemma NoLostWakeUp(run: seq<Step>)
    requires Runs(INIT, run) && CalmRun(run)
    ensures var s := After(INIT, run);
            && !Stranded(s)
            && (forall j :: 0 <= j < |s.ops| && Awaited(s.cos, s.ops, j) && !Listed(s.posted, j) ==> s.active)
  {
    var s := After(INIT, run);
    CalmReached(run);
    hide Enabled, Apply, After;
    if !s.active {
      forall j | 0 <= j < |s.ops| && Awaited(s.cos, s.ops, j) ensures Listed(s.posted, j) && Listed(s.posted + s.batch, j) {
        RestingPosted(s, j);
      }
    }
  }

  lemma RestingPosted(s: State, j: JobId)
    requires Inv(s) && AllPosted(s) && j < |s.ops| && Awaited(s.cos, s.ops, j)
    ensures Listed(s.posted, j) && Listed(s.posted + s.batch, j)
  {
    hide Placed, Registry, Waiters, Handled, Delayed, ConnRefsAgree, Completions, Attributed,
      WaiterSound, Owned, LostReason, Wholes, ConnHandled, Books, Conserved, JobStreams;
    assert OwnJob(j, s.ops, s.jobs, Transit(s));
    var i :| 0 <= i < |Transit(s)| && Transit(s)[i].job == j;
    assert s.posted[i].origin.job == j;
    assert s.posted + s.batch == s.posted;
  }

  // ---------------------------------------------------------------- when wake-ups are lost

  /** No state along the run strands an operation. */
  predicate NeverStranded(s: State, run: seq<Step>)
    requires Runs(s, run)
    decreases |run|
  {
    !Stranded(s) && (run == [] || NeverStranded(Apply(s, run[0]), run[1..]))
  }

  /** No completion event is handled with too many stale results in its batch. */
  predicate NeverStrands(s: State, run: seq<Step>)
    requires Runs(s, run)
    decreases |run|
  {
    run == [] || (!(run[0].DoThreadEvent? && Strands(s)) && NeverStrands(Apply(s, run[0]), run[1..]))
  }

  /** Wake-ups over a whole run, exactly: none is lost if and only if no completion event finds
      stale results at least as many as the awaited operations its batch does not cover. */
  lemma {:induction false} WakeUpsExact(s: State, run: seq<Step>)
    requires Inv(s) && !Stranded(s) && Runs(s, run)
    ensures NeverStranded(s, run) <==> NeverStrands(s, run)
    decreases |run|
  {
    hide Inv, Enabled, Apply, Stranded, Strands;
    if run != [] {
      StrandStep(s, run[0]);
      StepInv(s, run[0]);
      if !Stranded(Apply(s, run[0])) {
        WakeUpsExact(Apply(s, run[0]), run[1..]);
      }
    }
  }
}
