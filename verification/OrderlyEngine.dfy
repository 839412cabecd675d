/** Goroutines keep runs orderly. */
module OrderlyEngine {
  import opened Base
  import opened Buffers
  import opened Machine
  import opened Invariants
  import opened Flow
  import opened Engine
  import opened Frames
  import opened Undisturbed
  import opened Orderly
  import opened OrderlyLibrary
  import Q = FinishedQueue

  /** Fewer or the same unsettled jobs keep the per-id facts. */
  lemma SettleOrder(s: State, jobs: Jobs, transit: Results)
    requires OnePerId(s.ops, s.jobs, Transit(s)) && Opens(s.ops, s.jobs, Transit(s), s.cos, s.sctxs)
    requires forall k :: Unsettled(jobs, transit, k) ==> Unsettled(s.jobs, Transit(s), k)
    ensures OnePerId(s.ops, jobs, transit) && Opens(s.ops, jobs, transit, s.cos, s.sctxs)
  {
    hide Transit, Unsettled;
  }

  // ---------------------------------------------------------------- running

  /** Two outstanding jobs under one id are the same job. */
  lemma SameId(s: State, j: JobId, k: JobId)
    requires OnePerId(s.ops, s.jobs, Transit(s)) && j < |s.ops| && k < |s.ops| && s.ops[j].id == s.ops[k].id
    requires Outstanding(s, j) && Outstanding(s, k)
    ensures j == k
  {
  }

  /** The id of an outstanding opening has no Lua handle. */
  lemma OpeningUnhandled(s: State, j: JobId)
    requires Opens(s.ops, s.jobs, Transit(s), s.cos, s.sctxs) && Waiters(s.ongoing, s.sctxs, s.cos, s.ops)
    requires Handled(s.handles, s.sctxs) && j < |s.ops| && s.ops[j].op.OpenOp? && Outstanding(s, j)
    ensures s.ops[j].id !in s.handles
  {
    if Awaited(s.cos, s.ops, j) {
      PendingUnhandled(s, j);
    }
  }

  /** A result known before job `j` ran is not `j`'s. */
  lemma KnownElse(s: State, j: JobId, job: Job, t: TaskResult)
    requires Books(s.jobs, s.ops, s.reported) && Conserved(s) && j in s.jobs && s.jobs[j].ran.None?
    requires job.ran.Some? && job.ran.value.job == j
    requires Known(s.jobs[j := job], Transit(s), t)
    ensures t.job == j ==> t == job.ran.value
    ensures t.job != j ==> Known(s.jobs, Transit(s), t) && Outstanding(s, t.job)
  {
    TransitUnique(s);
    hide Transit, Conserved, Books;
    if t in Transit(s) {
      var i :| 0 <= i < |Transit(s)| && Transit(s)[i] == t;
    }
  }

  /** A result that stores nothing. */
  lemma StoredRun(s: State, j: JobId, job: Job)
    requires Stored(s.ops, s.jobs, Transit(s), s.cos, s.sctxs, s.streamRefs, s.streams)
    requires Books(s.jobs, s.ops, s.reported) && Conserved(s) && j in s.jobs && s.jobs[j].ran.None?
    requires job == s.jobs[j].(ran := job.ran) && job.ran.Some? && job.ran.value.job == j
    requires job.op.OpenOp? ==> job.ran.value.err.Some?
    ensures Stored(s.ops, s.jobs[j := job], Transit(s), s.cos, s.sctxs, s.streamRefs, s.streams)
  {
    assert JobSound(j, s.jobs[j], s.ops);
    hide Transit, Conserved, Books;
    var jobs' := s.jobs[j := job];
    forall t | Known(jobs', Transit(s), t) && t.job < |s.ops| && s.ops[t.job].op.OpenOp? && Awaited(s.cos, s.ops, t.job) && t.err.None?
      ensures StoredAs(s.ops[t.job].id, t.job, s.sctxs, s.streamRefs, s.streams)
    {
      KnownElse(s, j, job, t);
    }
  }

  /** A successful opening is stored before it can be reported. */
  lemma StoredOpen(s: State, j: JobId, job: Job, st: Stream)
    requires Stored(s.ops, s.jobs, Transit(s), s.cos, s.sctxs, s.streamRefs, s.streams)
    requires OnePerId(s.ops, s.jobs, Transit(s))
    requires Books(s.jobs, s.ops, s.reported) && Conserved(s) && j in s.jobs && s.jobs[j].ran.None?
    requires job == s.jobs[j].(ran := job.ran) && job.ran.Some? && job.ran.value.job == j && job.op.OpenOp?
    requires st.typ == job.typ && j !in s.streams
    ensures Stored(s.ops, s.jobs[j := job], Transit(s), s.cos, s.sctxs, s.streamRefs[job.id := j], s.streams[j := st])
  {
    assert JobSound(j, s.jobs[j], s.ops);
    hide Transit, Conserved, Books;
    var jobs', refs', streams' := s.jobs[j := job], s.streamRefs[job.id := j], s.streams[j := st];
    forall t | Known(jobs', Transit(s), t) && t.job < |s.ops| && s.ops[t.job].op.OpenOp? && Awaited(s.cos, s.ops, t.job) && t.err.None?
      ensures StoredAs(s.ops[t.job].id, t.job, s.sctxs, refs', streams')
    {
      KnownElse(s, j, job, t);
      if t.job != j {
        if s.ops[t.job].id == s.ops[j].id {
          SameId(s, j, t.job);
        }
        assert StoredAs(s.ops[t.job].id, t.job, s.sctxs, s.streamRefs, s.streams);
      }
    }
  }

  lemma ResolvesStore(handles: map<Id, bool>, sctxs: Ctxs, refs: Refs, streams: Streams, refs': Refs, streams': Streams)
    requires Resolves(handles, sctxs, refs, streams)
    requires forall id :: id in handles ==> (id in refs' <==> id in refs) && (id in refs ==> refs'[id] == refs[id])
    requires forall u :: u in streams ==> u in streams' && streams'[u].typ == streams[u].typ
    ensures Resolves(handles, sctxs, refs', streams')
  {
    forall x | x in handles && handles[x] ensures x in refs' && StoredAs(x, refs'[x], sctxs, refs', streams') {
      assert StoredAs(x, refs[x], sctxs, refs, streams);
    }
  }

  lemma ClosingStreams(s: State, streams: Streams, refs: Refs)
    requires Closing(s.events, s.ops, s.streams, s.streamRefs)
    requires forall u :: u in s.streams ==> u in streams && streams[u].kicks == s.streams[u].kicks
    requires forall u :: u in streams && u !in s.streams ==> streams[u].kicks == [u] && u < |s.ops| && s.ops[u].op.OpenOp?
    requires forall id :: id in refs ==> (id in s.streamRefs && refs[id] == s.streamRefs[id]) || refs[id] !in s.streams
    ensures Closing(s.events, s.ops, streams, refs)
  {
    forall u, i, n | u in streams && 0 <= n < |streams[u].kicks| && ClosedBy(s.events, i, streams[u].kicks[n])
      ensures n == |streams[u].kicks| - 1 && Unreferenced(refs, u)
    {
      assert u in s.streams;
      assert ClosedBy(s.events, i, s.streams[u].kicks[n]);
    }
  }

  /** Putting the pieces together for any way a job can end or proceed. */
  lemma RunOrder(s: State, s': State)
    requires Inv(s) && OrderInv(s)
    requires s' == s.(jobs := s'.jobs, streams := s'.streams, streamRefs := s'.streamRefs) && s'.jobs.Keys == s.jobs.Keys
    requires Stored(s.ops, s'.jobs, Transit(s), s.cos, s.sctxs, s'.streamRefs, s'.streams)
    requires Resolves(s.handles, s.sctxs, s'.streamRefs, s'.streams)
    requires Closing(s.events, s.ops, s'.streams, s'.streamRefs)
    ensures OrderInv(s')
  {
    hide Placed, Registry, Waiters, Handled, Delayed, ConnRefsAgree, Books, Conserved, OwnJobs, Completions,
      Attributed, WaiterSound, Owned, LostReason, Wholes, ConnHandled, JobStreams, Transit,
      OnePerId, Latest, Opens, Stored, Resolves, Closing;
    TransitSame(s, s');
    SettleOrder(s, s'.jobs, Transit(s));
  }

  lemma RunQuietOrder(s: State, j: JobId, result: Option<Bytes>, err: Option<Bytes>)
    requires Inv(s) && OrderInv(s) && j in s.jobs && s.jobs[j].ran.None? && !(s.jobs[j].op.OpenOp? && err.None?)
    ensures OrderInv(RunJob(s, j, result, err))
  {
    hide Placed, Registry, Waiters, Handled, Delayed, ConnRefsAgree, Books, Conserved, OwnJobs, Completions,
      Attributed, WaiterSound, Owned, LostReason, Wholes, ConnHandled, JobStreams, Transit, RunJob, FullWire,
      OnePerId, Latest, Opens, Stored, Resolves, Closing;
    RunQuietShape(s, j, result, err);
    StoredRun(s, j, Ran(s, j, result, err));
    RunOrder(s, RunJob(s, j, result, err));
  }

  lemma RunOpeningOrder(s: State, j: JobId)
    requires Inv(s) && OrderInv(s) && j in s.jobs && s.jobs[j].ran.None? && s.jobs[j].op.OpenOp?
    ensures OrderInv(RunJob(s, j, None, None))
  {
    hide Placed, Registry, Waiters, Handled, Delayed, ConnRefsAgree, Books, Conserved, OwnJobs, Completions,
      Attributed, WaiterSound, Owned, LostReason, Wholes, ConnHandled, JobStreams, Transit, RunJob, FullWire, Tagged,
      OnePerId, Latest, Opens, Stored, Resolves, Closing;
    JobsObject(s, j);
    RunOpenShape(s, j, None);
    var job, st := Ran(s, j, None, None), Born(j, s.jobs[j]);
    var streams, refs := s.streams[j := st], s.streamRefs[job.id := j];
    Unstored(s, j);
    StoredOpen(s, j, job, st);
    OpeningUnhandled(s, j);
    ResolvesStore(s.handles, s.sctxs, s.streamRefs, s.streams, refs, streams);
    ClosingStreams(s, streams, refs);
    RunOrder(s, RunJob(s, j, None, None));
  }

  lemma Unstored(s: State, j: JobId)
    requires JobStreams(s.jobs, s.streams, s.streamRefs, s.ops) && Books(s.jobs, s.ops, s.reported)
    requires j in s.jobs && s.jobs[j].ran.None? && s.jobs[j].op.OpenOp?
    ensures j !in s.streams && j < |s.ops| && s.ops[j].op.OpenOp? && s.ops[j].id == s.jobs[j].id
  {
    hide StreamSound;
    assert JobSound(j, s.jobs[j], s.ops);
  }

  lemma RunJobOrder(s: State, j: JobId, result: Option<Bytes>, err: Option<Bytes>)
    requires Inv(s) && OrderInv(s) && j in s.jobs && s.jobs[j].ran.None? && ResultShape(s.jobs[j].op, result, err)
    ensures OrderInv(RunJob(s, j, result, err))
  {
    hide Inv, OrderInv, RunJob;
    if s.jobs[j].op.OpenOp? && err.None? {
      RunOpeningOrder(s, j);
    } else {
      RunQuietOrder(s, j, result, err);
    }
  }

  /** A single call on a stream concerns no reference. */
  lemma MakeCallOrder(s: State, j: JobId)
    requires Inv(s) && OrderInv(s) && j in s.jobs && CallsLeft(s, j) != []
    ensures OrderInv(MakeCall(s, j))
  {
    hide Placed, Registry, Waiters, Handled, Delayed, ConnRefsAgree, Books, Conserved, OwnJobs, Completions,
      Attributed, WaiterSound, Owned, LostReason, Wholes, ConnHandled, JobStreams, Transit, MakeCall, CallsLeft,
      OnePerId, Latest, Opens, Stored, Resolves, Closing;
    MakeCallFrame(s, j);
    CalledStreams(s, j);
    var s' := MakeCall(s, j);
    StoredTypes(s, s'.streams);
    ResolvesStore(s.handles, s.sctxs, s.streamRefs, s.streams, s.streamRefs, s'.streams);
    ClosingStreams(s, s'.streams, s.streamRefs);
    RunOrder(s, s');
  }

  lemma CalledStreams(s: State, j: JobId)
    requires j in s.jobs && CallsLeft(s, j) != []
    ensures var streams := MakeCall(s, j).streams;
            && streams.Keys == s.streams.Keys
            && forall u :: u in s.streams ==> u in streams && streams[u] == s.streams[u].(log := streams[u].log)
  {
    hide CallsLeft;
    if s.jobs[j].uid !in s.streams {
      NoCalls(s, j);
    }
  }

  lemma NoCalls(s: State, j: JobId)
    requires j in s.jobs && s.jobs[j].uid !in s.streams
    ensures CallsLeft(s, j) == []
  {
  }

  lemma StoredTypes(s: State, streams: Streams)
    requires Stored(s.ops, s.jobs, Transit(s), s.cos, s.sctxs, s.streamRefs, s.streams)
    requires forall u :: u in s.streams ==> u in streams && streams[u].typ == s.streams[u].typ
    ensures Stored(s.ops, s.jobs, Transit(s), s.cos, s.sctxs, s.streamRefs, streams)
  {
    hide Transit;
    forall t | Known(s.jobs, Transit(s), t) && t.job < |s.ops| && s.ops[t.job].op.OpenOp? && Awaited(s.cos, s.ops, t.job) && t.err.None?
      ensures StoredAs(s.ops[t.job].id, t.job, s.sctxs, s.streamRefs, streams)
    {
      assert StoredAs(s.ops[t.job].id, t.job, s.sctxs, s.streamRefs, s.streams);
    }
  }

  // ---------------------------------------------------------------- reporting

  lemma StoredReport(s: State, t: TaskResult)
    requires Stored(s.ops, s.jobs, Transit(s), s.cos, s.sctxs, s.streamRefs, s.streams)
    requires t.job in s.jobs && s.jobs[t.job].ran == Some(t)
    ensures Stored(s.ops, s.jobs - {t.job}, Transit(s) + [t], s.cos, s.sctxs, s.streamRefs, s.streams)
  {
    hide Transit;
    forall x | Known(s.jobs - {t.job}, Transit(s) + [t], x) ensures Known(s.jobs, Transit(s), x) {
    }
  }

  lemma ReportOrder(s: State, j: JobId)
    requires Inv(s) && OrderInv(s) && j in s.jobs && s.jobs[j].ran.Some?
    ensures OrderInv(Report(s, j))
  {
    hide Placed, Registry, Waiters, Handled, Delayed, ConnRefsAgree, Books, OwnJobs, Completions,
      Attributed, WaiterSound, Owned, LostReason, Wholes, ConnHandled, JobStreams, Transit, Unsettled,
      OnePerId, Latest, Opens, Stored, Resolves, Closing;
    RanJob(s, j);
    var t := s.jobs[j].ran.value;
    ReportTransit(s, j);
    forall k ensures Unsettled(s.jobs - {j}, Transit(s) + [t], k) <==> Unsettled(s.jobs, Transit(s), k) {
      UnsettledReport(s.jobs, Transit(s), t, k);
    }
    SettleOrder(s, s.jobs - {j}, Transit(s) + [t]);
    StoredReport(s, t);
  }
}
