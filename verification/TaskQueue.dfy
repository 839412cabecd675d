/** The Go side of the finished-task queue: shared fields updated under a lock, the condition
    loop of `Wait`, and the packing loop through one reused 24-byte buffer. */
module TaskQueue {
  import opened Base
  import opened Buffers
  import opened Records
  import Q = FinishedQueue

  /** What other goroutines and the timer runtime may do while the lock is free. */
  datatype Act = Finish(task: TaskResult) | Expire(timer: nat) | Fire(timer: nat)

  function Perform(q: Q.Queue, act: Act): Q.Queue {
    match act
    case Finish(task) => Q.Done(q, task)
    case Expire(timer) => if timer in q.armed then Q.TimerExpire(q, timer) else q
    case Fire(timer) => if timer in q.firing then Q.TimerFire(q, timer) else q
  }

  function PerformAll(q: Q.Queue, acts: seq<Act>): Q.Queue {
    if acts == [] then q else Perform(PerformAll(q, acts[..|acts| - 1]), acts[|acts| - 1])
  }

  /** The queue as the waiter sees it when it leaves the loop. */
  function Collected(q: Q.Queue, entering: seq<Act>, parked: seq<Act>): Q.Queue {
    var q1 := PerformAll(Q.WaitStart(q), entering);
    if q1.done then q1 else PerformAll(Q.WaitCheck(q1), parked)
  }

  function Finished(acts: seq<Act>): seq<TaskResult> {
    if acts == [] then []
    else Finished(acts[..|acts| - 1]) + (if acts[|acts| - 1].Finish? then [acts[|acts| - 1].task] else [])
  }

  /** Tasks are appended in the order they finish, whatever the timers do. */
  lemma {:induction false} PerformTasks(q: Q.Queue, acts: seq<Act>)
    ensures PerformAll(q, acts).tasks == q.tasks + Finished(acts)
    ensures q.done ==> PerformAll(q, acts).done
    ensures PerformAll(q, acts).own == q.own
  {
    if acts != [] {
      PerformTasks(q, acts[..|acts| - 1]);
    }
  }

  lemma {:induction false} PerformPhase(q: Q.Queue, acts: seq<Act>)
    requires q.phase != Q.Parked
    ensures PerformAll(q, acts).phase == q.phase
  {
    if acts != [] {
      PerformPhase(q, acts[..|acts| - 1]);
    }
  }

  /** A parked waiter is woken exactly when `done` is set. */
  lemma {:induction false} PerformParked(q: Q.Queue, acts: seq<Act>)
    requires q.phase == Q.Parked && !q.done
    ensures var r := PerformAll(q, acts); r.phase == (if r.done then Q.Woken else Q.Parked)
  {
    if acts != [] {
      PerformParked(q, acts[..|acts| - 1]);
    }
  }

  /** Stale timers, late reports and the waiter's own timer all keep the queue live: a waiter
      still parked has its own timer pending and nothing to collect. */
  lemma {:induction false} PerformLive(q: Q.Queue, acts: seq<Act>)
    requires Q.Live(q)
    ensures Q.Live(PerformAll(q, acts))
  {
    if acts != [] {
      PerformLive(q, acts[..|acts| - 1]);
      var r := PerformAll(q, acts[..|acts| - 1]);
      var r' := Perform(r, acts[|acts| - 1]);
      assert r'.armed + r'.firing <= r.armed + r.firing;
    }
  }

  /** From a live queue, `Wait` either returns or stays parked with its own timer pending and no
      task queued; when it returns the queue is live again. */
  lemma WaitLive(q: Q.Queue, entering: seq<Act>, parked: seq<Act>)
    requires Q.Live(q)
    ensures var c := Collected(q, entering, parked);
            && Q.Live(c) && Q.Live(Q.WaitCheck(c))
            && (!c.done ==> c.phase == Q.Parked && c.tasks == [] && c.own in c.armed + c.firing)
  {
    var q0 := Q.WaitStart(q);
    PerformLive(q0, entering);
    PerformPhase(q0, entering);
    var q1 := PerformAll(q0, entering);
    if !q1.done {
      PerformLive(Q.WaitCheck(q1), parked);
      PerformParked(Q.WaitCheck(q1), parked);
    }
    var c := Collected(q, entering, parked);
    assert Q.WaitCheck(c).armed + Q.WaitCheck(c).firing <= c.armed + c.firing;
  }

  /** `Wait` returns everything finished before it looked, in order, and nothing else. */
  lemma CollectedTasks(q: Q.Queue, entering: seq<Act>, parked: seq<Act>)
    ensures var c := Collected(q, entering, parked);
            var q1 := PerformAll(Q.WaitStart(q), entering);
            c.tasks == q.tasks + Finished(entering) + (if q1.done then [] else Finished(parked))
  {
    PerformTasks(Q.WaitStart(q), entering);
    PerformTasks(Q.WaitCheck(PerformAll(Q.WaitStart(q), entering)), parked);
  }

  // ---------------------------------------------------------------- packing

  /** What fits the 64-bit fields of a record. */
  predicate Fits(t: TaskResult) {
    t.id < WORD && (t.err.Some? ==> |t.err.value| < WORD) && (t.result.Some? ==> |t.result.value| < WORD)
  }

  predicate AllFit(ts: seq<TaskResult>) {
    forall i :: 0 <= i < |ts| ==> Fits(ts[i])
  }

  /** What malloc may return: an aligned non-null 64-bit address. */
  predicate Address(p: Ptr) { p % 8 == 0 && 0 < p < WORD }

  /** The three words of one task, computed as `Wait` does. */
  function RecOf(t: TaskResult, p: Ptr): Rec
    requires Fits(t) && Address(p)
  {
    OrAligned(p, TYPE_ERR);
    if t.err.Some? then Rec(t.id, |t.err.value|, Or(p, TYPE_ERR))
    else if t.result.None? then Rec(t.id, 0, TYPE_OK_NOT_RES)
    else Rec(t.id, |t.result.value|, p)
  }

  function Recs(ts: seq<TaskResult>, ps: seq<Ptr>): (r: seq<Rec>)
    requires AllFit(ts) && |ps| == |ts| && forall i :: 0 <= i < |ps| ==> Address(ps[i])
    ensures |r| == |ts|
    ensures forall i :: 0 <= i < |ts| ==> r[i] == RecOf(ts[i], ps[i])
  {
    seq(|ts|, i requires 0 <= i < |ts| => RecOf(ts[i], ps[i]))
  }

  /** Record round trip: reading the packed output as structs in host order, then masking the tag
      and clearing it with the signed shifts, gives back each id, size, tag and pointer; the
      tagged word is never zero and the count is the list length. */
  lemma PackedRoundTrip(order: ByteOrder, ts: seq<TaskResult>, ps: seq<Ptr>, i: nat)
    requires AllFit(ts) && |ps| == |ts| && (forall k :: 0 <= k < |ps| ==> Address(ps[k])) && i < |ts|
    ensures var out := EncodeAll(order, Recs(ts, ps));
            var b := StructAt(out, i);
            var w := Buf(order, b);
            && |out| / 24 == |ts|
            && TaskId(order, b) == ts[i].id
            && w < WORD && w != 0
            && Size(order, b) == (if Body(ts[i]).Some? then |Body(ts[i]).value| else 0)
            && And(w, 7) == (if ts[i].err.Some? then 1 else if ts[i].result.None? then 2 else 0)
            && Unshifted(w) == (if Body(ts[i]).Some? then ps[i] else 0)
            && PackOne(ts[i], ps[i]) == CRes(TaskId(order, b), Size(order, b), w, ts[i])
  {
    RecordsRoundTrip(order, Recs(ts, ps), i);
    hide EncodeAll, TaskId, Size, Buf, StructAt, And, Unshifted, RecOf, TypeOf, Base8, Body, PackOne;
    TaggedWord(ts[i], ps[i]);
  }

  /** The tagged word of one task. */
  lemma TaggedWord(t: TaskResult, p: Ptr)
    requires Fits(t) && Address(p)
    ensures var w := RecOf(t, p).word;
            && w != 0
            && And(w, 7) == (if t.err.Some? then TYPE_ERR else if t.result.None? then TYPE_OK_NOT_RES else TYPE_OK)
            && Unshifted(w) == (if Body(t).Some? then p else 0)
    ensures RecOf(t, p).size == (if Body(t).Some? then |Body(t).value| else 0) && RecOf(t, p).id == t.id
    ensures PackOne(t, p) == CRes(RecOf(t, p).id, RecOf(t, p).size, RecOf(t, p).word, t)
  {
    hide Or, And, Unshifted, TypeOf, Base8;
    OrAligned(p, TYPE_ERR);
    TagArithmetic(p, TYPE_ERR);
    TagArithmetic(p, TYPE_OK);
    TagArithmetic(0, TYPE_OK_NOT_RES);
    AndSeven(RecOf(t, p).word);
    UnshiftedBase(RecOf(t, p).word);
  }

  lemma FirstEncode(order: ByteOrder, heap: Heap, rs: seq<Rec>, ts: seq<TaskResult>, ps: seq<Ptr>)
    requires |ps| == |ts|
    ensures EncodeAll(order, rs[..0]) == [] && StoreAll(heap, ts[..0], ps[..0]) == heap
  {
  }

  lemma StepEncode(order: ByteOrder, rs: seq<Rec>, i: nat)
    requires i < |rs|
    ensures EncodeAll(order, rs[..i + 1]) == EncodeAll(order, rs[..i]) + EncodeRec(order, rs[i])
  {
    assert rs[..i + 1][..i] == rs[..i];
  }

  lemma StepStore(h: Heap, ts: seq<TaskResult>, ps: seq<Ptr>, i: nat)
    requires |ps| == |ts| && i < |ts|
    ensures var h' := StoreAll(h, ts[..i], ps[..i]);
            StoreAll(h, ts[..i + 1], ps[..i + 1]) == if Body(ts[i]).Some? then h'[ps[i] := Body(ts[i]).value] else h'
  {
    assert ts[..i + 1][..i] == ts[..i] && ps[..i + 1][..i] == ps[..i];
  }

  // ---------------------------------------------------------------- the queue object

  class Queue {
    var done: bool
    var tasks: seq<TaskResult>
    const taskIdBuf: array<Byte>

    // The condition variable's waiter and the timer runtime.
    var phase: Q.Phase
    var armed: set<nat>
    var firing: set<nat>
    var own: nat
    var nextTimer: nat

    ghost predicate Valid() reads this { taskIdBuf.Length == 24 }

    function Value(): Q.Queue reads this {
      Q.Queue(done, tasks, phase, armed, firing, own, nextTimer)
    }

    constructor ()
      ensures Valid() && Value() == Q.EMPTY && fresh(taskIdBuf)
    {
      done := false;
      tasks := [];
      taskIdBuf := new Byte[24](_ => 0);
      phase, armed, firing, own, nextTimer := Q.Off, {}, {}, 0, 0;
    }

    method Signal()
      modifies this
      ensures Value() == Q.Signal(old(Value()))
    {
      done := true;
      if phase == Q.Parked {
        phase := Q.Woken;
      }
    }

    /** Appends and announces in one critical section, so that a live queue stays live. */
    method Done(task: TaskResult)
      modifies this
      ensures Value() == Q.Done(old(Value()), task) && (old(Q.Live(Value())) ==> Q.Live(Value()))
    {
      tasks := tasks + [task];
      Signal();
    }

    /** The callback given to `time.AfterFunc`; late or not, it keeps a live queue live. */
    method TimerCallback(timer: nat)
      requires timer in firing
      modifies this
      ensures Value() == Q.TimerFire(old(Value()), timer) && (old(Q.Live(Value())) ==> Q.Live(Value()))
    {
      firing := firing - {timer};
      Signal();
      assert armed + firing <= old(armed) + old(firing);
    }

    /** The others run while the lock is free. */
    method RunOthers(acts: seq<Act>)
      modifies this
      ensures Value() == PerformAll(old(Value()), acts)
    {
      var i := 0;
      while i < |acts|
        invariant 0 <= i <= |acts|
        invariant Value() == PerformAll(old(Value()), acts[..i])
      {
        match acts[i] {
          case Finish(task) => Done(task);
          case Expire(timer) =>
            if timer in armed {
              armed, firing := armed - {timer}, firing + {timer};
            }
          case Fire(timer) =>
            if timer in firing {
              TimerCallback(timer);
            }
        }
        assert acts[..i + 1][..i] == acts[..i];
        i := i + 1;
      }
      assert acts[..|acts|] == acts;
    }

    method PutWord(order: ByteOrder, at: nat, w: Word)
      requires Valid() && at + 8 <= 24
      modifies taskIdBuf
      ensures taskIdBuf[..at] == old(taskIdBuf[..at])
      ensures taskIdBuf[at..at + 8] == PutUint64(order, w)
      ensures taskIdBuf[at + 8..] == old(taskIdBuf[at + 8..])
    {
      var b := PutUint64(order, w);
      var k := 0;
      while k < 8
        invariant 0 <= k <= 8
        invariant taskIdBuf[..at] == old(taskIdBuf[..at])
        invariant taskIdBuf[at..at + k] == b[..k]
        invariant taskIdBuf[at + 8..] == old(taskIdBuf[at + 8..])
      {
        taskIdBuf[at + k] := b[k];
        k := k + 1;
      }
    }

    /** One record through the reused buffer. */
    method Fill(order: ByteOrder, x: Rec)
      requires Valid()
      modifies taskIdBuf
      ensures taskIdBuf[..] == EncodeRec(order, x)
    {
      PutWord(order, 0, x.id);
      PutWord(order, 8, x.size);
      assert taskIdBuf[..8] == PutUint64(order, x.id);
      PutWord(order, 16, x.word);
      assert taskIdBuf[..16][..8] == taskIdBuf[..8] && taskIdBuf[..16][8..16] == taskIdBuf[8..16];
      assert taskIdBuf[..] == taskIdBuf[..8] + taskIdBuf[8..16] + taskIdBuf[16..24];
    }

    /** One iteration of the packing loop: the body is copied into C memory at `p`. */
    method Marshal(order: ByteOrder, heap: Heap, res: TaskResult, p: Ptr) returns (heap': Heap)
      requires Valid() && Fits(res) && Address(p)
      modifies taskIdBuf
      ensures taskIdBuf[..] == EncodeRec(order, RecOf(res, p))
      ensures heap' == if Body(res).Some? then heap[p := Body(res).value] else heap
    {
      OrAligned(p, TYPE_ERR);
      heap' := heap;
      var size, ptrRes := 0, TYPE_OK_NOT_RES;
      if res.err.Some? {
        heap' := heap[p := res.err.value];
        size, ptrRes := |res.err.value|, Or(p, TYPE_ERR);
      } else if res.result.Some? {
        heap' := heap[p := res.result.value];
        size, ptrRes := |res.result.value|, p;
      }
      Fill(order, Rec(res.id, size, ptrRes));
    }

    /** The packing loop: copies each body into C memory and appends its record. */
    method Pack(order: ByteOrder, heap: Heap, ps: seq<Ptr>) returns (out: Bytes, heap': Heap)
      requires Valid() && AllFit(tasks)
      requires |ps| == |tasks| && forall i :: 0 <= i < |ps| ==> Address(ps[i])
      modifies taskIdBuf
      ensures out == EncodeAll(order, Recs(tasks, ps)) && heap' == StoreAll(heap, tasks, ps)
    {
      out, heap' := [], heap;
      var ts := tasks;
      ghost var rs := Recs(ts, ps);
      hide RecOf, EncodeRec, EncodeAll, StoreAll, Body, Fits, Address;
      FirstEncode(order, heap, rs, ts, ps);
      var i := 0;
      while i < |ts|
        invariant 0 <= i <= |ts|
        invariant out == EncodeAll(order, rs[..i])
        invariant heap' == StoreAll(heap, ts[..i], ps[..i])
      {
        assert Fits(ts[i]) && Address(ps[i]) && rs[i] == RecOf(ts[i], ps[i]);
        heap' := Marshal(order, heap', ts[i], ps[i]);
        StepEncode(order, rs, i);
        out := out + taskIdBuf[..];
        StepStore(heap, ts, ps, i);
        i := i + 1;
      }
      assert rs[..|ts|] == rs && ts[..|ts|] == ts && ps[..|ts|] == ps;
    }

    /** `Wait`. `entering` happens before the lock is first taken and `parked` while it waits on
        the condition; `malloc` answers with `ps`. If nothing signals, it is still waiting. */
    method Wait(order: ByteOrder, entering: seq<Act>, parked: seq<Act>, heap: Heap, ps: seq<Ptr>)
      returns (returned: bool, out: Bytes, n: int, heap': Heap)
      requires Valid()
      requires var c := Collected(Value(), entering, parked);
               c.done ==> AllFit(c.tasks) && |ps| == |c.tasks| && forall i :: 0 <= i < |ps| ==> Address(ps[i])
      modifies this, taskIdBuf
      ensures Valid()
      ensures var c := Collected(old(Value()), entering, parked);
              && returned == c.done
              && (returned ==>
                    && Value() == Q.WaitCheck(c)
                    && out == EncodeAll(order, Recs(c.tasks, ps)) && n == |c.tasks|
                    && heap' == StoreAll(heap, c.tasks, ps))
              && (!returned ==> Value() == c && c.phase == Q.Parked && heap' == heap)
    {
      ghost var c := Collected(Value(), entering, parked);
      out, n, heap' := [], 0, heap;
      phase, armed, own, nextTimer := Q.Entering, armed + {nextTimer}, nextTimer, nextTimer + 1;
      RunOthers(entering);
      while !done
        invariant Valid() && heap' == heap
        invariant if done then Value() == c else PerformAll(Q.WaitCheck(Value()), parked) == c
        decreases !done
      {
        ghost var q := Value();
        phase := Q.Parked;
        RunOthers(parked);
        PerformParked(Q.WaitCheck(q), parked);
        if !done {
          return false, out, n, heap';
        }
      }
      done := false;
      armed := armed - {own};
      out, heap' := Pack(order, heap, ps);
      tasks := [];
      phase := Q.Finished;
      n := |out| / 24;
      returned := true;
    }
  }
}
