/** Goroutines, the finished-task queue and the background waiter keep the invariant. */
module Engine {
  import opened Base
  import opened Buffers
  import opened Machine
  import opened Invariants
  import opened Flow
  import opened StreamObjects
  import Q = FinishedQueue

  // ---------------------------------------------------------------- goroutines

  /** A job after its remote work, the reported-to-be result attached. */
  function Ran(s: State, j: JobId, result: Option<Bytes>, err: Option<Bytes>): Job
    requires j in s.jobs
  {
    s.jobs[j].(ran := Some(TaskResult(s.jobs[j].id, result, err, j)))
  }

  /** Ending without storing a stream touches the job only. */
  lemma RunQuietShape(s: State, j: JobId, result: Option<Bytes>, err: Option<Bytes>)
    requires j in s.jobs && !(s.jobs[j].op.OpenOp? && err.None?)
    ensures RunJob(s, j, result, err) == s.(jobs := s.jobs[j := Ran(s, j, result, err)])
  {
    hide FullWire;
  }

  /** The stream a successful opening stores. */
  function Born(j: JobId, job: Job): Stream {
    Stream(job.id, job.typ, [j], Tagged(j, FullWire(job.typ, job.op)))
  }

  lemma RunOpenShape(s: State, j: JobId, result: Option<Bytes>)
    requires j in s.jobs && s.jobs[j].op.OpenOp?
    ensures RunJob(s, j, result, None) == s.(
              jobs := s.jobs[j := Ran(s, j, result, None)], streams := s.streams[j := Born(j, s.jobs[j])],
              streamRefs := s.streamRefs[s.jobs[j].id := j])
  {
    hide FullWire, Tagged;
  }

  /** Ending a job touches the job, stream objects and references only. */
  lemma RunJobFrame(s: State, j: JobId, result: Option<Bytes>, err: Option<Bytes>)
    requires j in s.jobs
    ensures var s' := RunJob(s, j, result, err);
            s' == s.(jobs := s.jobs[j := Ran(s, j, result, err)], streams := s'.streams, streamRefs := s'.streamRefs)
  {
    hide RunJob, Born;
    if s.jobs[j].op.OpenOp? && err.None? {
      RunOpenShape(s, j, result);
    } else {
      RunQuietShape(s, j, result, err);
    }
  }

  lemma MakeCallFrame(s: State, j: JobId)
    requires j in s.jobs && CallsLeft(s, j) != []
    ensures MakeCall(s, j) == s.(streams := MakeCall(s, j).streams)
  {
    hide CallsLeft;
  }

  lemma JobsObject(s: State, j: JobId)
    requires JobStreams(s.jobs, s.streams, s.streamRefs, s.ops) && Books(s.jobs, s.ops, s.reported) && j in s.jobs
    ensures JobSound(j, s.jobs[j], s.ops)
    ensures StreamJob(s.jobs[j].op) ==>
              && s.jobs[j].uid in s.streams && s.streams[s.jobs[j].uid].typ == s.jobs[j].typ
              && j in s.streams[s.jobs[j].uid].kicks && j < |s.ops|
              && CallsOf(s.streams[s.jobs[j].uid].log, j) <= FullWire(s.jobs[j].typ, s.jobs[j].op)
    ensures forall u :: StreamJob(s.jobs[j].op) && u in s.streams && j in s.streams[u].kicks ==> u == s.jobs[j].uid
    ensures s.jobs[j].ran.None? && !StreamJob(s.jobs[j].op) ==> j !in s.streams
  {
    hide CallsOf, FullWire;
    assert JobSound(j, s.jobs[j], s.ops);
    if StreamJob(s.jobs[j].op) {
      assert StreamSound(s.jobs[j].uid, s.streams[s.jobs[j].uid], s.ops);
    }
  }

  /** A job listed by a stream either opened it or works on it. */
  lemma ListedJob(s: State, u: JobId, k: JobId)
    requires JobStreams(s.jobs, s.streams, s.streamRefs, s.ops) && Books(s.jobs, s.ops, s.reported)
    requires u in s.streams && k in s.streams[u].kicks
    ensures k < |s.ops| && (k == u || StreamJob(s.ops[k].op))
    ensures k in s.jobs ==> s.jobs[k].op == s.ops[k].op
  {
    assert StreamSound(u, s.streams[u], s.ops);
    if k in s.jobs {
      assert JobSound(k, s.jobs[k], s.ops);
    }
  }

  lemma MakeCallInv(s: State, j: JobId)
    requires Inv(s) && j in s.jobs && s.jobs[j].ran.None? && CallsLeft(s, j) != []
    ensures Inv(MakeCall(s, j))
  {
    hide Placed, Registry, Waiters, Handled, Delayed, ConnRefsAgree, Books, Conserved, OwnJobs, Completions,
      Attributed, WaiterSound, Owned, LostReason, Wholes, ConnHandled, JobStreams, FullWire, CallsOf;
    JobsObject(s, j);
    var u, w := s.jobs[j].uid, CallsLeft(s, j)[0];
    NextCall(s, j);
    CallOnStream(s.jobs, s.streams, s.streamRefs, s.ops, u, j, w);
    WholesCall(s.streams, s.jobs, s.reported, s.ops, u, j, w);
    ConservedSame(s, MakeCall(s, j));
  }

  /** The next call continues the job's script. */
  lemma NextCall(s: State, j: JobId)
    requires j in s.jobs && CallsLeft(s, j) != []
    requires s.jobs[j].uid in s.streams && CallsOf(s.streams[s.jobs[j].uid].log, j) <= FullWire(s.jobs[j].typ, s.jobs[j].op)
    ensures StreamJob(s.jobs[j].op)
    ensures CallsOf(s.streams[s.jobs[j].uid].log, j) + [CallsLeft(s, j)[0]] <= FullWire(s.jobs[j].typ, s.jobs[j].op)
  {
    hide CallsOf, FullWire;
  }

  lemma AllMade(s: State, j: JobId)
    requires j in s.jobs && CallsLeft(s, j) == [] && StreamJob(s.jobs[j].op)
    requires s.jobs[j].uid in s.streams && CallsOf(s.streams[s.jobs[j].uid].log, j) <= FullWire(s.jobs[j].typ, s.jobs[j].op)
    ensures CallsOf(s.streams[s.jobs[j].uid].log, j) == FullWire(s.jobs[j].typ, s.jobs[j].op)
  {
    hide CallsOf, FullWire;
  }

  lemma RunJobInv(s: State, j: JobId, result: Option<Bytes>, err: Option<Bytes>)
    requires Inv(s)
    requires j in s.jobs && s.jobs[j].ran.None? && ResultShape(s.jobs[j].op, result, err)
    requires err.None? ==> CallsLeft(s, j) == []
    ensures Inv(RunJob(s, j, result, err))
  {
    hide Placed, Registry, Waiters, Handled, Delayed, ConnRefsAgree, Books, Conserved, OwnJobs, Completions,
      Attributed, WaiterSound, Owned, LostReason, Wholes, ConnHandled, JobStreams, RunJob, FullWire, CallsOf, CallsLeft, Tagged;
    JobsObject(s, j);
    var job, job' := s.jobs[j], Ran(s, j, result, err);
    var s' := RunJob(s, j, result, err);
    RunJobBooks(s, j, job');
    if job.op.OpenOp? && err.None? {
      RunOpenShape(s, j, result);
      RunOpen(s.jobs, s.streams, s.streamRefs, s.ops, j, job', Born(j, job));
      WholesOpen(s.streams, s.jobs, s.reported, s.ops, j, Born(j, job));
      BornWhole(s, j);
      WholesRun(s'.streams, s.jobs, s.reported, s.ops, j, job');
    } else {
      RunQuietShape(s, j, result, err);
      RunQuiet(s.jobs, s.streams, s.streamRefs, s.ops, j, job');
      WholeEnough(s, j, err);
      WholesRun(s.streams, s.jobs, s.reported, s.ops, j, job');
    }
    ConservedSame(s, s');
  }

  lemma BornWhole(s: State, j: JobId)
    requires JobStreams(s.jobs, s.streams, s.streamRefs, s.ops) && Books(s.jobs, s.ops, s.reported) && j in s.jobs
    requires s.jobs[j].op.OpenOp? && s.jobs[j].ran.None?
    ensures var streams := s.streams[j := Born(j, s.jobs[j])];
            forall u :: u in streams && j in streams[u].kicks && j < |s.ops| ==>
              CallsOf(streams[u].log, j) == FullWire(streams[u].typ, s.ops[j].op)
  {
    hide CallsOf, FullWire, JobStreams, Books;
    JobsObject(s, j);
    CallsTagged(j, FullWire(s.jobs[j].typ, s.jobs[j].op), j);
    forall u | u in s.streams && u != j ensures j !in s.streams[u].kicks {
      if j in s.streams[u].kicks {
        ListedJob(s, u, j);
      }
    }
  }

  lemma WholeEnough(s: State, j: JobId, err: Option<Bytes>)
    requires JobStreams(s.jobs, s.streams, s.streamRefs, s.ops) && Books(s.jobs, s.ops, s.reported) && j in s.jobs
    requires s.jobs[j].ran.None? && (err.None? ==> CallsLeft(s, j) == [] && !s.jobs[j].op.OpenOp?)
    ensures forall u :: u in s.streams && j in s.streams[u].kicks && j < |s.ops| && err.None? ==>
              CallsOf(s.streams[u].log, j) == FullWire(s.streams[u].typ, s.ops[j].op)
  {
    hide CallsOf, FullWire, JobStreams, Books, CallsLeft;
    JobsObject(s, j);
    forall u | u in s.streams && j in s.streams[u].kicks && j < |s.ops| && err.None?
      ensures CallsOf(s.streams[u].log, j) == FullWire(s.streams[u].typ, s.ops[j].op)
    {
      ListedJob(s, u, j);
      AllMade(s, j);
    }
  }

  lemma RunJobBooks(s: State, j: JobId, job: Job)
    requires Books(s.jobs, s.ops, s.reported) && j in s.jobs && OwnJobs(s.cos, s.ops, s.jobs, Transit(s))
    requires job == s.jobs[j].(ran := job.ran)
    requires job.ran.Some? && job.ran.value.id == job.id && job.ran.value.job == j
    ensures Books(s.jobs[j := job], s.ops, s.reported)
    ensures OwnJobs(s.cos, s.ops, s.jobs[j := job], Transit(s))
  {
    assert JobSound(j, s.jobs[j], s.ops);
    BooksRun(s.jobs, s.ops, s.reported, j, job);
    hide Books, OwnJobs;
    OwnSame(s.cos, s.ops, s.jobs, Transit(s), s.jobs[j := job], Transit(s));
  }

  lemma ReportInv(s: State, j: JobId)
    requires Inv(s) && j in s.jobs && s.jobs[j].ran.Some?
    ensures Inv(Report(s, j))
  {
    hide Placed, Registry, Waiters, Handled, Delayed, ConnRefsAgree, Books, Conserved, OwnJobs, Completions,
      Attributed, Owned, LostReason, Wholes, ConnHandled, JobStreams, Transit, Unsettled, Q.Live, Q.Done;
    RanJob(s, j);
    var t := s.jobs[j].ran.value;
    BooksReport(s.jobs, s.ops, s.reported, t);
    ReportTransit(s, j);
    forall k ensures Unsettled(s.jobs - {t.job}, Transit(s) + [t], k) <==> Unsettled(s.jobs, Transit(s), k) {
      UnsettledReport(s.jobs, Transit(s), t, k);
    }
    OwnSame(s.cos, s.ops, s.jobs, Transit(s), s.jobs - {j}, Transit(s) + [t]);
    AttributedGrow(s.events, s.ops, s.reported, s.ops, s.reported + [t]);
    StreamsReport(s.jobs, s.streams, s.streamRefs, s.ops, j);
    WholesReport(s.streams, s.jobs, s.reported, s.ops, t);
    LiveDone(s.q, t);
    DonePhase(s.q, t);
  }

  lemma RanJob(s: State, j: JobId)
    requires Books(s.jobs, s.ops, s.reported) && j in s.jobs && s.jobs[j].ran.Some?
    ensures s.jobs[j].ran.value.job == j
  {
    assert JobSound(j, s.jobs[j], s.ops);
  }

  lemma DonePhase(q: Q.Queue, t: TaskResult)
    ensures (Q.Done(q, t).phase == Q.Off <==> q.phase == Q.Off) && (Q.Done(q, t).phase == Q.Finished <==> q.phase == Q.Finished)
  {
  }

  lemma ReportTransit(s: State, j: JobId)
    requires j in s.jobs && s.jobs[j].ran.Some? && Conserved(s)
    ensures Transit(Report(s, j)) == Transit(s) + [s.jobs[j].ran.value]
    ensures Conserved(Report(s, j))
  {
  }

  // ---------------------------------------------------------------- the waiter

  /** Steps that change only timers, flags and phases of the queue. */
  lemma QueueInv(s: State, q: Q.Queue)
    requires Inv(s) && q.tasks == s.q.tasks && Q.Live(q)
    requires s.active <==> q.phase != Q.Off
    requires s.batch != [] ==> q.phase == Q.Finished
    ensures Inv(s.(q := q))
  {
    hide Placed, Registry, Waiters, Handled, Delayed, ConnRefsAgree, Books, Conserved, OwnJobs, Completions,
      Attributed, Owned, LostReason, Wholes, ConnHandled, JobStreams, Q.Live;
    ConservedSame(s, s.(q := q));
  }

  lemma TimerInv(s: State, t: nat)
    requires Inv(s)
    ensures t in s.q.armed ==> Inv(s.(q := Q.TimerExpire(s.q, t)))
    ensures t in s.q.firing ==> Inv(s.(q := Q.TimerFire(s.q, t)))
  {
    hide Placed, Registry, Waiters, Handled, Delayed, ConnRefsAgree, Books, Conserved, OwnJobs, Completions,
      Attributed, Owned, LostReason, Wholes, ConnHandled, JobStreams, Q.Live;
    LiveTimer(s.q, t);
    if t in s.q.armed { QueueInv(s, Q.TimerExpire(s.q, t)); }
    if t in s.q.firing { QueueInv(s, Q.TimerFire(s.q, t)); }
  }

  lemma WaitStartInv(s: State)
    requires Inv(s) && s.q.phase == Q.Queued
    ensures Inv(s.(q := Q.WaitStart(s.q)))
  {
    hide Placed, Registry, Waiters, Handled, Delayed, ConnRefsAgree, Books, Conserved, OwnJobs, Completions,
      Attributed, Owned, LostReason, Wholes, ConnHandled, JobStreams, Q.Live;
    LiveWait(s.q);
    QueueInv(s, Q.WaitStart(s.q));
  }

  /** Collecting moves the queued results into the batch, in order. */
  lemma CollectTransit(s: State, ptrs: seq<Ptr>)
    requires |ptrs| == |s.q.tasks| && s.q.done && s.batch == []
    ensures Transit(WaitCheck(s, ptrs)) == Transit(s)
  {
    OriginsPack(s.q.tasks, ptrs);
  }

  lemma WaitCheckInv(s: State, ptrs: seq<Ptr>)
    requires Inv(s) && (s.q.phase == Q.Entering || s.q.phase == Q.Woken)
    requires |ptrs| == |s.q.tasks| && FreshPtrs(s.heap, ptrs)
    ensures Inv(WaitCheck(s, ptrs))
  {
    hide Placed, Registry, Waiters, Handled, Delayed, ConnRefsAgree, Books, OwnJobs, Completions,
      Attributed, Owned, LostReason, Wholes, ConnHandled, JobStreams, Q.Live, Transit, StoreAll, PackAll, FreshPtrs;
    LiveWait(s.q);
    if !s.q.done {
      QueueInv(s, Q.WaitCheck(s.q));
    } else {
      assert s.batch == [];
      CollectTransit(s, ptrs);
      CollectOwned(s, ptrs);
    }
  }

  lemma CollectOwned(s: State, ptrs: seq<Ptr>)
    requires |ptrs| == |s.q.tasks| && FreshPtrs(s.heap, ptrs) && s.batch == [] && Owned(s.heap, s.posted + s.batch)
    ensures Owned(StoreAll(s.heap, s.q.tasks, ptrs), s.posted + PackAll(s.q.tasks, ptrs))
  {
    assert s.posted + s.batch == s.posted;
    PackOwned(s.heap, s.posted, s.q.tasks, ptrs);
  }

  lemma ThreadEventInv(s: State)
    requires Inv(s) && s.q.phase == Q.Finished
    ensures Inv(ThreadEvent(s))
  {
    hide Placed, Registry, Waiters, Handled, Delayed, ConnRefsAgree, Books, OwnJobs, Completions,
      Attributed, Owned, LostReason, Wholes, ConnHandled, JobStreams, Transit;
    ThreadEventTransit(s);
    assert s.posted + s.batch + [] == s.posted + s.batch;
  }

  lemma ThreadEventTransit(s: State)
    requires s.q.phase == Q.Finished
    ensures Transit(ThreadEvent(s)) == Transit(s)
  {
    TransitMove(s.posted, s.batch, s.q.tasks);
    hide Origins;
    var s' := ThreadEvent(s);
    assert s'.posted == s.posted + s.batch && s'.batch == [] && s'.q.tasks == s.q.tasks;
  }

  lemma TransitMove(posted: seq<CRes>, batch: seq<CRes>, tasks: seq<TaskResult>)
    ensures Origins(posted + batch) + Origins([]) + tasks == Origins(posted) + Origins(batch) + tasks
  {
    OriginsConcat(posted, batch);
    assert Origins([]) == [];
  }
}
