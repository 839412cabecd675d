/** How goroutines and the reference map keep the stream objects sound. */
module StreamObjects {
  import opened Base
  import opened Machine
  import opened Invariants

  type Jobs = map<JobId, Job>
  type Streams = map<JobId, Stream>
  type Refs = map<Id, JobId>

  type Results = seq<TaskResult>

  // ---------------------------------------------------------------- calls in a log

  lemma CallsSnoc(log: seq<Call>, c: Call, k: JobId)
    ensures CallsOf(log + [c], k) == CallsOf(log, k) + (if c.job == k then [c.wire] else [])
  {
    assert (log + [c])[..|log|] == log;
  }

  lemma {:induction false} CallsNone(log: seq<Call>, k: JobId)
    requires forall i :: 0 <= i < |log| ==> log[i].job != k
    ensures CallsOf(log, k) == []
  {
    if log != [] {
      CallsNone(log[..|log| - 1], k);
    }
  }

  lemma {:induction false} CallsTagged(j: JobId, wire: seq<Wire>, k: JobId)
    ensures CallsOf(Tagged(j, wire), k) == if k == j then wire else []
  {
    if wire != [] {
      var n := |wire| - 1;
      CallsTagged(j, wire[..n], k);
      assert Tagged(j, wire)[..n] == Tagged(j, wire[..n]);
      assert wire == wire[..n] + [wire[n]];
    }
  }

  // ---------------------------------------------------------------- JobStreams

  lemma StreamGrow(u: JobId, st: Stream, ops: seq<OpInfo>, ops': seq<OpInfo>)
    requires StreamSound(u, st, ops) && ops <= ops'
    ensures StreamSound(u, st, ops')
  {
  }

  lemma KickPlain(jobs: Jobs, streams: Streams, refs: Refs, ops: seq<OpInfo>, info: OpInfo, job: Job)
    requires JobStreams(jobs, streams, refs, ops) && !StreamJob(job.op)
    ensures JobStreams(jobs[|ops| := job], streams, refs, ops + [info])
  {
    forall u | u in streams ensures StreamSound(u, streams[u], ops + [info]) {
      StreamGrow(u, streams[u], ops, ops + [info]);
    }
  }

  lemma StreamKicked(u: JobId, st: Stream, ops: seq<OpInfo>, info: OpInfo)
    requires StreamSound(u, st, ops) && info.id == st.id && StreamJob(info.op)
    ensures StreamSound(u, st.(kicks := st.kicks + [|ops|]), ops + [info])
  {
    StreamGrow(u, st, ops, ops + [info]);
    assert forall i :: 0 <= i < |st.log| ==> st.log[i].job in st.kicks && st.log[i].job < |ops|;
    CallsNone(st.log, |ops|);
  }

  lemma KickOnStream(jobs: Jobs, streams: Streams, refs: Refs, ops: seq<OpInfo>, info: OpInfo, job: Job, id: Id)
    requires JobStreams(jobs, streams, refs, ops) && id in refs && refs[id] in streams
    requires job.uid == refs[id] && job.typ == streams[job.uid].typ && job.op == info.op && info.id == id
    requires StreamJob(job.op) && job.id == id
    ensures var st := streams[job.uid];
            JobStreams(jobs[|ops| := job], streams[job.uid := st.(kicks := st.kicks + [|ops|])], refs, ops + [info])
  {
    hide StreamSound;
    var u := job.uid;
    var st := streams[u];
    var ops', jobs', streams' := ops + [info], jobs[|ops| := job], streams[u := st.(kicks := st.kicks + [|ops|])];
    StreamKicked(u, st, ops, info);
    forall v | v in streams' ensures StreamSound(v, streams'[v], ops') {
      if v != u {
        StreamGrow(v, streams[v], ops, ops');
      }
    }
    forall v, k | v in streams' && k in streams'[v].kicks && k in jobs' && StreamJob(jobs'[k].op) ensures jobs'[k].uid == v {
      if k == |ops| && v != u {
        KicksBelow(v, streams[v], ops);
        assert false;
      }
    }
  }

  lemma KicksBelow(u: JobId, st: Stream, ops: seq<OpInfo>)
    requires StreamSound(u, st, ops)
    ensures forall k :: k in st.kicks ==> k < |ops|
  {
  }

  /** A job that ends opens nothing and calls nothing. */
  lemma RunQuiet(jobs: Jobs, streams: Streams, refs: Refs, ops: seq<OpInfo>, j: JobId, job: Job)
    requires JobStreams(jobs, streams, refs, ops) && j in jobs && job == jobs[j].(ran := job.ran) && job.ran.Some?
    ensures JobStreams(jobs[j := job], streams, refs, ops)
  {
    hide StreamSound;
  }

  /** A successful opening stores a new stream object. */
  lemma RunOpen(jobs: Jobs, streams: Streams, refs: Refs, ops: seq<OpInfo>, j: JobId, job: Job, st: Stream)
    requires JobStreams(jobs, streams, refs, ops) && j in jobs && jobs[j].ran.None? && JobSound(j, jobs[j], ops)
    requires jobs[j].op.OpenOp? && job.op == jobs[j].op && job.id == jobs[j].id && job.ran.Some? && !jobs[j].typ.Unary?
    requires st == Stream(job.id, jobs[j].typ, [j], Tagged(j, FullWire(jobs[j].typ, job.op)))
    ensures JobStreams(jobs[j := job], streams[j := st], refs[job.id := j], ops)
  {
    hide StreamSound, FullWire;
    assert j !in streams;
    OpenedSound(j, st, ops);
    var streams', jobs' := streams[j := st], jobs[j := job];
    forall u, k | u in streams' && k in streams'[u].kicks && k in jobs' && StreamJob(jobs'[k].op) ensures jobs'[k].uid == u {
      assert k != j;
    }
  }

  lemma OpenedSound(j: JobId, st: Stream, ops: seq<OpInfo>)
    requires j < |ops| && ops[j].op.OpenOp? && ops[j].id == st.id && !st.typ.Unary?
    requires st.kicks == [j] && st.log == Tagged(j, FullWire(st.typ, ops[j].op))
    ensures StreamSound(j, st, ops)
  {
    hide FullWire;
    CallsTagged(j, FullWire(st.typ, ops[j].op), j);
  }

  lemma StreamCalled(u: JobId, st: Stream, ops: seq<OpInfo>, j: JobId, w: Wire)
    requires StreamSound(u, st, ops) && j in st.kicks && j < |ops|
    requires CallsOf(st.log, j) + [w] <= FullWire(st.typ, ops[j].op)
    ensures StreamSound(u, st.(log := st.log + [Call(j, w)]), ops)
  {
    hide CallsOf, FullWire;
    forall k ensures CallsOf(st.log + [Call(j, w)], k) == CallsOf(st.log, k) + (if j == k then [w] else []) {
      CallsSnoc(st.log, Call(j, w), k);
    }
    var log := st.log + [Call(j, w)];
    forall i | 0 <= i < |st.kicks| ensures CallsOf(log, st.kicks[i]) <= FullWire(st.typ, ops[st.kicks[i]].op) {
      assert CallsOf(st.log, st.kicks[i]) <= FullWire(st.typ, ops[st.kicks[i]].op);
    }
    forall i | 0 <= i < |log| ensures log[i].job in st.kicks {
      assert i < |st.log| ==> log[i] == st.log[i];
    }
  }

  lemma CallOnStream(jobs: Jobs, streams: Streams, refs: Refs, ops: seq<OpInfo>, u: JobId, j: JobId, w: Wire)
    requires JobStreams(jobs, streams, refs, ops) && u in streams && j in streams[u].kicks && j < |ops|
    requires CallsOf(streams[u].log, j) + [w] <= FullWire(streams[u].typ, ops[j].op)
    ensures JobStreams(jobs, streams[u := streams[u].(log := streams[u].log + [Call(j, w)])], refs, ops)
  {
    hide StreamSound, CallsOf, FullWire;
    var st' := streams[u].(log := streams[u].log + [Call(j, w)]);
    assert StreamSound(u, streams[u], ops);
    StreamCalled(u, streams[u], ops, j, w);
    CallOnStreams(jobs, streams, refs, ops, u, st');
  }

  /** More calls on one stream concern neither jobs nor references. */
  lemma CallOnStreams(jobs: Jobs, streams: Streams, refs: Refs, ops: seq<OpInfo>, u: JobId, st: Stream)
    requires JobStreams(jobs, streams, refs, ops) && u in streams && StreamSound(u, st, ops)
    requires st == streams[u].(log := st.log)
    ensures JobStreams(jobs, streams[u := st], refs, ops)
  {
    hide StreamSound;
  }

  lemma StreamsReport(jobs: Jobs, streams: Streams, refs: Refs, ops: seq<OpInfo>, j: JobId)
    requires JobStreams(jobs, streams, refs, ops)
    ensures JobStreams(jobs - {j}, streams, refs, ops)
  {
    hide StreamSound;
  }

  lemma StreamsForget(jobs: Jobs, streams: Streams, refs: Refs, ops: seq<OpInfo>, id: Id)
    requires JobStreams(jobs, streams, refs, ops)
    ensures JobStreams(jobs, streams, refs - {id}, ops)
  {
    hide StreamSound;
  }

  // ---------------------------------------------------------------- Wholes

  lemma WholesKick(streams: Streams, jobs: Jobs, reported: Results, ops: seq<OpInfo>, info: OpInfo, job: Job, streams': Streams)
    requires Wholes(streams, jobs, reported, ops) && Books(jobs, ops, reported) && job.ran.None?
    requires forall u :: u in streams' ==>
               u in streams && streams'[u] == streams[u].(kicks := streams'[u].kicks)
               && forall k :: k in streams'[u].kicks ==> k in streams[u].kicks || k == |ops|
    ensures Wholes(streams', jobs[|ops| := job], reported, ops + [info])
  {
    hide CallsOf, FullWire;
    var jobs', ops' := jobs[|ops| := job], ops + [info];
    forall u, k | u in streams' && k in streams'[u].kicks && k < |ops'| && Succeeds(jobs', reported, k)
      ensures CallsOf(streams'[u].log, k) == FullWire(streams'[u].typ, ops'[k].op)
    {
      assert k < |ops|;
      assert Succeeds(jobs, reported, k);
    }
  }

  lemma WholesRun(streams: Streams, jobs: Jobs, reported: Results, ops: seq<OpInfo>, j: JobId, job: Job)
    requires Wholes(streams, jobs, reported, ops) && j in jobs && job.ran.Some?
    requires forall u :: u in streams && j in streams[u].kicks && j < |ops| && job.ran.value.err.None? ==>
               CallsOf(streams[u].log, j) == FullWire(streams[u].typ, ops[j].op)
    ensures Wholes(streams, jobs[j := job], reported, ops)
  {
    hide CallsOf, FullWire;
    forall u, k | u in streams && k in streams[u].kicks && k < |ops| && Succeeds(jobs[j := job], reported, k)
      ensures CallsOf(streams[u].log, k) == FullWire(streams[u].typ, ops[k].op)
    {
      if k != j {
        assert Succeeds(jobs, reported, k);
      }
    }
  }

  lemma WholesOpen(streams: Streams, jobs: Jobs, reported: Results, ops: seq<OpInfo>, j: JobId, st: Stream)
    requires Wholes(streams, jobs, reported, ops) && j < |ops|
    requires st.kicks == [j] && st.log == Tagged(j, FullWire(st.typ, ops[j].op))
    ensures Wholes(streams[j := st], jobs, reported, ops)
  {
    CallsTagged(j, FullWire(st.typ, ops[j].op), j);
    hide CallsOf, FullWire;
  }

  lemma WholesCall(streams: Streams, jobs: Jobs, reported: Results, ops: seq<OpInfo>, u: JobId, j: JobId, w: Wire)
    requires Wholes(streams, jobs, reported, ops) && Books(jobs, ops, reported)
    requires u in streams && j in jobs && jobs[j].ran.None?
    ensures Wholes(streams[u := streams[u].(log := streams[u].log + [Call(j, w)])], jobs, reported, ops)
  {
    forall k ensures CallsOf(streams[u].log + [Call(j, w)], k) == CallsOf(streams[u].log, k) + (if j == k then [w] else []) {
      CallsSnoc(streams[u].log, Call(j, w), k);
    }
    assert !Succeeds(jobs, reported, j);
    hide CallsOf, FullWire, Books;
  }

  lemma WholesReport(streams: Streams, jobs: Jobs, reported: Results, ops: seq<OpInfo>, t: TaskResult)
    requires Wholes(streams, jobs, reported, ops) && t.job in jobs && jobs[t.job].ran == Some(t)
    ensures Wholes(streams, jobs - {t.job}, reported + [t], ops)
  {
    hide CallsOf, FullWire;
    forall k ensures Succeeds(jobs - {t.job}, reported + [t], k) ==> Succeeds(jobs, reported, k) {
    }
  }

  // ---------------------------------------------------------------- LostReason

  lemma LostSame(sctxs: map<Id, StreamCtx>, events: seq<Event>, ops: seq<OpInfo>,
                 sctxs': map<Id, StreamCtx>, events': seq<Event>, ops': seq<OpInfo>)
    requires LostReason(sctxs, events, ops) && events <= events' && ops <= ops'
    requires forall id :: id in sctxs' && sctxs'[id].place.Lost? ==> id in sctxs && sctxs[id].place.Lost?
    ensures LostReason(sctxs', events', ops')
  {
    forall id | id in sctxs' && sctxs'[id].place.Lost?
      ensures exists i: nat :: FailedOpen(events', ops', i) && ops'[events'[i].op].id == id
    {
      var i: nat :| FailedOpen(events, ops, i) && ops[events[i].op].id == id;
      assert FailedOpen(events', ops', i);
    }
  }

  lemma LostAdd(sctxs: map<Id, StreamCtx>, events: seq<Event>, ops: seq<OpInfo>, id: Id, ctx: StreamCtx, e: Event)
    requires LostReason(sctxs, events, ops)
    requires FailedOpen([e], ops, 0) && ops[e.op].id == id
    ensures LostReason(sctxs[id := ctx], events + [e], ops)
  {
    var events', sctxs' := events + [e], sctxs[id := ctx];
    assert FailedOpen(events', ops, |events|) && ops[events'[|events|].op].id == id;
    forall y | y in sctxs' && sctxs'[y].place.Lost?
      ensures exists i: nat :: FailedOpen(events', ops, i) && ops[events'[i].op].id == y
    {
      if y != id {
        var i: nat :| FailedOpen(events, ops, i) && ops[events[i].op].id == y;
        assert FailedOpen(events', ops, i);
      }
    }
  }
}
