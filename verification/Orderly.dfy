/** Runs in which no id is reissued while an earlier job under it is outstanding: references
    never miss, handles match stream objects, and a successful `recv_close` is final. */
module Orderly {
  import opened Base
  import opened Machine
  import opened Invariants
  import opened Undisturbed

  type Jobs = map<JobId, Job>
  type Cos = map<Co, CoCtx>
  type Ctxs = map<Id, StreamCtx>
  type Streams = map<JobId, Stream>
  type Refs = map<Id, JobId>
  type Results = seq<TaskResult>

  /** At most one outstanding job per id, and it belongs to the latest operation under it. */
  ghost predicate OnePerId(ops: seq<OpInfo>, jobs: Jobs, transit: Results) {
    forall j, k :: 0 <= j < k < |ops| && ops[j].id == ops[k].id ==> !Unsettled(jobs, transit, j)
  }

  /** An awaited operation is the latest one under its id. */
  ghost predicate Latest(cos: Cos, ops: seq<OpInfo>) {
    forall j, k :: 0 <= j < k < |ops| && Awaited(cos, ops, j) ==> ops[k].id != ops[j].id
  }

  /** An outstanding opening is still awaited, or its context is lost for good. */
  ghost predicate Opens(ops: seq<OpInfo>, jobs: Jobs, transit: Results, cos: Cos, sctxs: Ctxs) {
    forall j :: 0 <= j < |ops| && ops[j].op.OpenOp? && Unsettled(jobs, transit, j) ==>
      Awaited(cos, ops, j) || (ops[j].id in sctxs && sctxs[ops[j].id].place.Lost?)
  }

  /** `t` is the result job `t.job` will report or has reported, not yet handled. */
  predicate Known(jobs: Jobs, transit: Results, t: TaskResult) {
    (t.job in jobs && jobs[t.job].ran == Some(t)) || t in transit
  }

  /** An awaited opening that succeeded in the engine is stored under its id. */
  ghost predicate Stored(ops: seq<OpInfo>, jobs: Jobs, transit: Results, cos: Cos, sctxs: Ctxs, refs: Refs, streams: Streams) {
    && (forall j :: j in jobs && j < |ops| && jobs[j].op.OpenOp? && Awaited(cos, ops, j) ==>
          jobs[j].id in sctxs && sctxs[jobs[j].id].typ == jobs[j].typ)
    && (forall t :: Known(jobs, transit, t) && t.job < |ops| && ops[t.job].op.OpenOp? && Awaited(cos, ops, t.job) && t.err.None? ==>
          StoredAs(ops[t.job].id, t.job, sctxs, refs, streams))
  }

  predicate StoredAs(id: Id, u: JobId, sctxs: Ctxs, refs: Refs, streams: Streams) {
    id in refs && refs[id] == u && u in streams && id in sctxs && streams[u].typ == sctxs[id].typ
  }

  /** An open Lua handle finds its stream, an emptied one has none. */
  ghost predicate Resolves(handles: map<Id, bool>, sctxs: Ctxs, refs: Refs, streams: Streams) {
    && (forall id :: id in handles && handles[id] ==> id in refs && StoredAs(id, refs[id], sctxs, refs, streams))
    && (forall id :: id in handles && !handles[id] ==> id !in refs)
  }

  predicate ClosedBy(events: seq<Event>, i: int, j: JobId) {
    0 <= i < |events| && events[i].op == j && events[i].cause.Result? && events[i].cause.closed
  }

  /** A successful `recv_close` is the last thing started on its stream. */
  ghost predicate Closing(events: seq<Event>, ops: seq<OpInfo>, streams: Streams, refs: Refs) {
    && (forall i :: 0 <= i < |events| && events[i].cause.Result? && events[i].cause.closed ==>
          events[i].op < |ops| && ops[events[i].op].op.RecvOp? && events[i].cause.val.LuaValue? && events[i].cause.val.ok)
    && (forall u, i, n :: u in streams && 0 <= n < |streams[u].kicks| && ClosedBy(events, i, streams[u].kicks[n]) ==>
          n == |streams[u].kicks| - 1 && Unreferenced(refs, u))
  }

  ghost predicate Unreferenced(refs: Refs, u: JobId) {
    forall id :: id in refs ==> refs[id] != u
  }

  ghost predicate OrderInv(s: State) {
    && AllClean(s.ops)
    && OnePerId(s.ops, s.jobs, Transit(s))
    && Latest(s.cos, s.ops)
    && Opens(s.ops, s.jobs, Transit(s), s.cos, s.sctxs)
    && Stored(s.ops, s.jobs, Transit(s), s.cos, s.sctxs, s.streamRefs, s.streams)
    && Resolves(s.handles, s.sctxs, s.streamRefs, s.streams)
    && Closing(s.events, s.ops, s.streams, s.streamRefs)
    && s.faults == {}
  }
}
