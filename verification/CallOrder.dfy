/** In which order the calls of a stream's jobs reach the wire, and exactly when it is the order
    in which Lua started them. */
module CallOrder {
  import opened Base
  import opened Buffers
  import opened Machine
  import opened Invariants
  import opened StreamObjects
  import opened Completion
  import opened Draining
  import opened Engine
  import opened Frames
  import opened Reachability
  import opened Undisturbed
  import opened Attribution
  import opened Serialisation
  import Q = FinishedQueue

  // ---------------------------------------------------------------- logs

  lemma {:induction false} CallsConcat(a: seq<Call>, b: seq<Call>, k: JobId)
    ensures CallsOf(a + b, k) == CallsOf(a, k) + CallsOf(b, k)
  {
    if b == [] {
      assert a + b == a;
    } else {
      var n := |b| - 1;
      CallsConcat(a, b[..n], k);
      assert (a + b)[..|a + b| - 1] == a + b[..n];
    }
  }

  /** An entry of a log is among its job's calls, at the place its predecessors leave. */
  lemma CallAt(log: seq<Call>, i: nat)
    requires i < |log|
    ensures CallsOf(log[..i], log[i].job) + [log[i].wire] <= CallsOf(log, log[i].job)
  {
    hide CallsOf;
    var k, a, c, b := log[i].job, log[..i], log[i], log[i + 1..];
    SplitAt(log, i);
    CallsConcat(a + [c], b, k);
    CallsSnoc(a, c, k);
  }

  lemma SplitAt(log: seq<Call>, i: nat)
    requires i < |log|
    ensures log == (log[..i] + [log[i]]) + log[i + 1..]
  {
  }

  /** A job with calls has an entry. */
  lemma {:induction false} CallEntry(log: seq<Call>, k: JobId, n: nat) returns (p: nat)
    requires n < |CallsOf(log, k)|
    ensures p < |log| && log[p] == Call(k, CallsOf(log, k)[n]) && |CallsOf(log[..p], k)| == n
  {
    var m := |log| - 1;
    if log[m].job == k && n == |CallsOf(log, k)| - 1 {
      p := m;
    } else {
      p := CallEntry(log[..m], k, n);
      assert log[..m][..p] == log[..p];
    }
  }

  /** The jobs' calls one job after the other. */
  function Grouped(kicks: seq<JobId>, log: seq<Call>): seq<Call> {
    if kicks == [] then []
    else Grouped(kicks[..|kicks| - 1], log) + Tagged(kicks[|kicks| - 1], CallsOf(log, kicks[|kicks| - 1]))
  }

  /** No call overtakes one of a job started earlier: job numbers count kick-offs. */
  predicate InCallOrder(log: seq<Call>) {
    forall a, b :: 0 <= a < b < |log| ==> log[a].job <= log[b].job
  }

  /** `log` without the calls of its last job `k`. */
  function Before(log: seq<Call>, k: JobId): (r: seq<Call>)
    ensures r <= log
  {
    if log == [] || log[|log| - 1].job != k then log else Before(log[..|log| - 1], k)
  }

  lemma {:induction false} BeforeLast(log: seq<Call>, k: JobId)
    requires InCallOrder(log) && forall i :: 0 <= i < |log| ==> log[i].job <= k
    ensures log == Before(log, k) + Tagged(k, CallsOf(log, k))
    ensures forall i :: 0 <= i < |Before(log, k)| ==> log[i].job < k
  {
    if log != [] && log[|log| - 1].job == k {
      var n := |log| - 1;
      BeforeLast(log[..n], k);
      assert log == log[..n] + [log[n]];
      assert Tagged(k, CallsOf(log, k)) == Tagged(k, CallsOf(log[..n], k)) + [log[n]];
    } else {
      CallsNone(log, k);
    }
  }

  lemma {:induction false} GroupedElse(kicks: seq<JobId>, log: seq<Call>, log': seq<Call>)
    requires forall i :: 0 <= i < |kicks| ==> CallsOf(log, kicks[i]) == CallsOf(log', kicks[i])
    ensures Grouped(kicks, log) == Grouped(kicks, log')
  {
    if kicks != [] {
      GroupedElse(kicks[..|kicks| - 1], log, log');
    }
  }

  /** A log in call order is its jobs' calls, job after job. */
  lemma {:induction false} OrderedIsGrouped(kicks: seq<JobId>, log: seq<Call>)
    requires InCallOrder(log)
    requires forall i, k :: 0 <= i < k < |kicks| ==> kicks[i] < kicks[k]
    requires forall i :: 0 <= i < |log| ==> log[i].job in kicks
    ensures log == Grouped(kicks, log)
  {
    if kicks == [] {
      assert log == [];
    } else {
      var n := |kicks| - 1;
      var k, rest := kicks[n], kicks[..n];
      forall i | 0 <= i < |log| ensures log[i].job <= k {
        var m :| 0 <= m < |kicks| && kicks[m] == log[i].job;
      }
      BeforeLast(log, k);
      var b := Before(log, k);
      BeforeJobs(kicks, log, b);
      OrderedIsGrouped(rest, b);
      hide InCallOrder, CallsOf, Before;
      forall i | 0 <= i < |rest| ensures CallsOf(b, rest[i]) == CallsOf(log, rest[i]) {
        CallsConcat(b, Tagged(k, CallsOf(log, k)), rest[i]);
        CallsTagged(k, CallsOf(log, k), rest[i]);
        assert kicks[i] < kicks[n];
      }
      GroupedElse(rest, b, log);
    }
  }

  /** What precedes the last job's calls belongs to the earlier jobs. */
  lemma BeforeJobs(kicks: seq<JobId>, log: seq<Call>, b: seq<Call>)
    requires kicks != [] && b <= log && forall i :: 0 <= i < |b| ==> log[i].job < kicks[|kicks| - 1]
    requires forall i :: 0 <= i < |log| ==> log[i].job in kicks
    ensures forall i :: 0 <= i < |b| ==> b[i].job in kicks[..|kicks| - 1]
  {
    var rest := kicks[..|kicks| - 1];
    forall i | 0 <= i < |b| ensures b[i].job in rest {
      assert b[i] == log[i];
      var m :| 0 <= m < |kicks| && kicks[m] == log[i].job;
      assert rest[m] == b[i].job;
    }
  }

  // ---------------------------------------------------------------- pace

  /** Job `k` is at work on stream `u` and still has calls to make. */
  predicate Busy(s: State, u: JobId, k: JobId) {
    Unfinished(s.jobs, u, k) && CallsLeft(s, k) != []
  }

  ghost predicate Idle(s: State, u: JobId) {
    forall k :: !Busy(s, u, k)
  }

  /** So far in call order, and only the job started last may still call. */
  ghost predicate Paced(s: State, u: JobId) {
    u in s.streams ==>
      && InCallOrder(s.streams[u].log) && s.streams[u].kicks != []
      && forall k :: Busy(s, u, k) ==> k == s.streams[u].kicks[|s.streams[u].kicks| - 1]
  }

  /** The step is a method call admitted on stream `u`. */
  predicate KicksOn(s: State, a: Step, u: JobId)
    requires Enabled(s, a)
  {
    a.DoStreamOp? && Refers(s, a.id, u) && KicksOff(s, a)
  }

  /** Every call on `u` finds the earlier ones' calls made. */
  ghost predicate PacedRun(s: State, run: seq<Step>, u: JobId)
    requires Runs(s, run)
    decreases |run|
  {
    run == [] || ((KicksOn(s, run[0], u) ==> Idle(s, u)) && PacedRun(Apply(s, run[0]), run[1..], u))
  }

  /** Nothing is started on `u`. */
  predicate Unkicked(s: State, run: seq<Step>, u: JobId)
    requires Runs(s, run)
    decreases |run|
  {
    run == [] || (!KicksOn(s, run[0], u) && Unkicked(Apply(s, run[0]), run[1..], u))
  }

  // ---------------------------------------------------------------- jobs and logs

  /** The calls a job has left depend on the job and its stream's log. */
  lemma BusySame(s: State, s': State, u: JobId, k: JobId)
    requires k in s.jobs && k in s'.jobs && s'.jobs[k] == s.jobs[k]
    requires u in s.streams <==> u in s'.streams
    requires u in s.streams ==> s'.streams[u].log == s.streams[u].log
    ensures Busy(s', u, k) <==> Busy(s, u, k)
  {
    hide CallsOf, FullWire;
  }

  /** A job at work names a stream that lists it. */
  lemma BusyListed(s: State, u: JobId, k: JobId)
    requires Inv(s) && Unfinished(s.jobs, u, k)
    ensures u in s.streams && k in s.streams[u].kicks && k < |s.ops| && s.streams[u].typ == s.jobs[k].typ
    ensures s.ops[k].op == s.jobs[k].op && CallsOf(s.streams[u].log, k) <= FullWire(s.jobs[k].typ, s.jobs[k].op)
  {
    hide Placed, Registry, Handled, Delayed, ConnRefsAgree, Books, Conserved, OwnJobs, Completions, Waiters,
      Attributed, WaiterSound, Owned, LostReason, Wholes, ConnHandled, JobStreams, CallsOf, FullWire;
    JobsObject(s, k);
  }

  lemma SoundAt(s: State, u: JobId)
    requires Inv(s) && u in s.streams
    ensures StreamSound(u, s.streams[u], s.ops)
  {
    hide Placed, Registry, Handled, Delayed, ConnRefsAgree, Books, Conserved, OwnJobs, Completions, Waiters,
      Attributed, WaiterSound, Owned, LostReason, Wholes, ConnHandled, StreamSound;
  }

  // ---------------------------------------------------------------- one step, one stream

  /** What a step that starts nothing on `u` may do to it: a busy job makes its next call. */
  ghost predicate Logged(s: State, s': State, u: JobId) {
    u in s.streams ==>
      && u in s'.streams && s'.streams[u] == s.streams[u].(log := s'.streams[u].log) && s.ops <= s'.ops
      && (forall k :: Busy(s', u, k) ==> Busy(s, u, k))
      && (s'.streams[u].log != s.streams[u].log ==>
            && |s'.streams[u].log| == |s.streams[u].log| + 1 && s.streams[u].log <= s'.streams[u].log
            && Busy(s, u, s'.streams[u].log[|s.streams[u].log|].job))
  }

  /** Jobs may only disappear or finish, the stream stays. */
  lemma LoggedFewer(s: State, s': State, u: JobId)
    requires u in s.streams ==> u in s'.streams && s'.streams[u] == s.streams[u] && s.ops <= s'.ops
    requires forall k :: k in s'.jobs && Unfinished(s'.jobs, u, k) ==> k in s.jobs && s.jobs[k] == s'.jobs[k]
    ensures Logged(s, s', u)
  {
    hide CallsLeft;
    if u in s.streams {
      forall k | Busy(s', u, k) ensures Busy(s, u, k) {
        BusySame(s, s', u, k);
      }
    }
  }

  lemma LaunchLogged(s: State, s': State, conns: map<ConnId, Conn>, streams: map<JobId, Stream>,
                     co: Co, id: Id, ctx: StreamCtx, info: OpInfo, job: Job, u: JobId)
    requires Launch(s, s', conns, streams, co, id, ctx, info, job)
    requires u in s.streams ==> u in streams && streams[u] == s.streams[u] && !(StreamJob(job.op) && job.uid == u)
    ensures Logged(s, s', u)
  {
    hide CleanId, CallsLeft, Logged;
    assert s'.jobs == s.jobs[|s.ops| := job] && s'.streams == streams && s'.ops == s.ops + [info];
    if u in s.streams {
      LoggedFewer(s, s', u);
    } else {
      Unlogged(s, s', u);
    }
  }

  lemma Unlogged(s: State, s': State, u: JobId)
    requires u !in s.streams
    ensures Logged(s, s', u)
  {
  }

  lemma MakeCallLogged(s: State, k: JobId, u: JobId)
    requires k in s.jobs && s.jobs[k].ran.None? && CallsLeft(s, k) != []
    ensures Logged(s, MakeCall(s, k), u)
  {
    hide CallsLeft;
    var s' := MakeCall(s, k);
    CallsMeanStream(s, k);
    if u in s.streams {
      if s.jobs[k].uid == u {
        assert Busy(s, u, k);
        forall x | Busy(s', u, x) ensures Busy(s, u, x) {
          if x != k { CallElse(s, k, x); }
        }
      } else {
        LoggedFewer(s, s', u);
      }
    }
  }

  lemma CallsMeanStream(s: State, k: JobId)
    requires k in s.jobs && CallsLeft(s, k) != []
    ensures StreamJob(s.jobs[k].op) && s.jobs[k].uid in s.streams
    ensures MakeCall(s, k).jobs == s.jobs
  {
  }

  /** Another job's calls are not touched. */
  lemma CallElse(s: State, k: JobId, x: JobId)
    requires k in s.jobs && CallsLeft(s, k) != [] && x in s.jobs && x != k && s.jobs[x].uid == s.jobs[k].uid
    ensures CallsLeft(MakeCall(s, k), x) == CallsLeft(s, x)
  {
    CallsMeanStream(s, k);
    var log := s.streams[s.jobs[k].uid].log;
    CallsSnoc(log, Call(k, CallsLeft(s, k)[0]), x);
    hide CallsOf, FullWire;
  }

  lemma RunJobLogged(s: State, k: JobId, result: Option<Bytes>, err: Option<Bytes>, u: JobId)
    requires Inv(s) && k in s.jobs && s.jobs[k].ran.None?
    ensures Logged(s, RunJob(s, k, result, err), u)
  {
    hide Inv, RunJob, CallsLeft, Born, Logged;
    RunJobFrame(s, k, result, err);
    RunKeeps(s, k, result, err, u);
    LoggedFewer(s, RunJob(s, k, result, err), u);
  }

  lemma RunKeeps(s: State, k: JobId, result: Option<Bytes>, err: Option<Bytes>, u: JobId)
    requires Inv(s) && k in s.jobs && s.jobs[k].ran.None?
    ensures u in s.streams ==> u in RunJob(s, k, result, err).streams && RunJob(s, k, result, err).streams[u] == s.streams[u]
  {
    hide Inv, RunJob, Born;
    if s.jobs[k].op.OpenOp? && err.None? {
      RunOpenShape(s, k, result);
      UnbornUnused(s, k);
    } else {
      RunQuietShape(s, k, result, err);
    }
  }

  lemma UnbornUnused(s: State, k: JobId)
    requires Inv(s) && k in s.jobs && s.jobs[k].ran.None? && s.jobs[k].op.OpenOp?
    ensures k !in s.streams
  {
    hide Placed, Registry, Handled, Delayed, ConnRefsAgree, Books, Conserved, OwnJobs, Completions, Waiters,
      Attributed, WaiterSound, Owned, LostReason, Wholes, ConnHandled, JobStreams;
    JobsObject(s, k);
  }

  lemma NewStreamLogged(s: State, co: Co, r: Req, c: ConnId, typ: StreamType, req: Bytes, alloc: Id, u: JobId)
    requires Inv(s) && CoOf(s, co).run.Running? && c in s.connHandles && s.connHandles[c] && alloc !in s.sctxs
    ensures Logged(s, NewStream(s, co, r, c, typ, req, alloc), u) && NewStream(s, co, r, c, typ, req, alloc).streams == s.streams
  {
    hide Inv, NewStream, Logged, CleanId;
    var conns, id, ctx, info, job := NewStreamLaunch(s, co, r, c, typ, req, alloc);
    LaunchLogged(s, NewStream(s, co, r, c, typ, req, alloc), conns, s.streams, co, id, ctx, info, job, u);
  }

  lemma StreamOpLogged(s: State, co: Co, r: Req, id: Id, op: Op, u: JobId)
    requires Inv(s) && CoOf(s, co).run.Running? && id in s.handles && !(Admitted(s, r, id) && Refers(s, id, u))
    ensures Logged(s, StreamOp(s, co, r, id, op), u) && (u !in s.streams ==> u !in StreamOp(s, co, r, id, op).streams)
  {
    hide Inv, StreamOp, Logged, CleanId;
    if Admitted(s, r, id) {
      var streams, ctx, info, job := StreamOpLaunch(s, co, r, id, op);
      LaunchLogged(s, StreamOp(s, co, r, id, op), s.conns, streams, co, id, ctx, info, job, u);
    } else {
      StreamOpRefused(s, co, r, id, op);
      LoggedFewer(s, StreamOp(s, co, r, id, op), u);
    }
  }

  lemma AdmittedKicks(s: State, a: Step)
    requires Inv(s) && Enabled(s, a) && a.DoStreamOp? && Admitted(s, a.r, a.id)
    ensures KicksOff(s, a)
  {
    hide Inv, NewStream, NewStreamRefused, StreamOp, CloseConn, FinalizeConn, CloseStream, FinalizeStream,
      RunJob, MakeCall, CallsLeft, Report, WaitCheck, ThreadEvent, DrainOne, OpTimeout, Abort, CleanId,
      FrameHolds, FullWire, FreshPtrs, ResultShape, Offers;
    var streams, ctx, info, job := StreamOpLaunch(s, a.co, a.r, a.id, a.op);
    LaunchedOps(s, Apply(s, a), s.conns, streams, a.co, a.id, ctx, info, job);
  }

  lemma KickLogged(s: State, a: Step, u: JobId)
    requires Inv(s) && Enabled(s, a) && (a.DoNewStream? || a.DoStreamOp?) && !KicksOn(s, a, u)
    ensures Logged(s, Apply(s, a), u) && (u !in s.streams ==> u !in Apply(s, a).streams)
  {
    hide Inv, NewStream, NewStreamRefused, StreamOp, CloseConn, FinalizeConn, CloseStream, FinalizeStream, Admitted, KicksOff,
      RunJob, MakeCall, CallsLeft, Report, WaitCheck, ThreadEvent, DrainOne, OpTimeout, Abort,
      FrameHolds, FullWire, FreshPtrs, ResultShape, Offers, Logged;
    if a.DoNewStream? {
      NewStreamLogged(s, a.co, a.r, a.c, a.typ, a.req, a.alloc, u);
    } else {
      if Admitted(s, a.r, a.id) {
        AdmittedKicks(s, a);
      }
      StreamOpLogged(s, a.co, a.r, a.id, a.op, u);
    }
  }

  lemma ReportFrame(s: State, k: JobId)
    requires k in s.jobs && s.jobs[k].ran.Some?
    ensures Report(s, k).streams == s.streams && Report(s, k).jobs == s.jobs - {k} && Report(s, k).ops == s.ops
  {
  }

  lemma LogStep(s: State, a: Step, u: JobId)
    requires Inv(s) && Enabled(s, a) && !KicksOn(s, a, u)
    ensures Logged(s, Apply(s, a), u)
  {
    hide Inv, NewStream, NewStreamRefused, StreamOp, CloseConn, FinalizeConn, CloseStream, FinalizeStream,
      RunJob, MakeCall, CallsLeft, Report, WaitCheck, ThreadEvent, DrainOne, OpTimeout, Abort,
      FrameHolds, FullWire, FreshPtrs, Q.TimerExpire, Q.TimerFire, Q.WaitStart, ResultShape, Offers, Logged, KicksOn;
    if Elsewhere(a) {
      ElsewhereFrame(s, a);
      LoggedFewer(s, Apply(s, a), u);
    } else {
      match a {
        case DoNewStream(_, _, _, _, _, _) => KickLogged(s, a, u);
        case DoStreamOp(_, _, _, _) => KickLogged(s, a, u);
        case DoCall(k) => MakeCallLogged(s, k, u);
        case DoRunJob(k, result, err) => RunJobLogged(s, k, result, err, u);
        case DoReport(k) =>
          ReportFrame(s, k);
          LoggedFewer(s, Apply(s, a), u);
        case _ =>
      }
    }
  }

  /** A stream new to the engine holds its opening and nothing else. */
  ghost predicate NewBorn(s: State, u: JobId) {
    && u in s.streams && s.streams[u].kicks == [u] && Idle(s, u)
    && forall i :: 0 <= i < |s.streams[u].log| ==> s.streams[u].log[i].job == u
  }

  lemma BornStep(s: State, a: Step, u: JobId)
    requires Inv(s) && Enabled(s, a) && u !in s.streams && u in Apply(s, a).streams
    ensures NewBorn(Apply(s, a), u)
  {
    hide Inv, NewStream, NewStreamRefused, StreamOp, CloseConn, FinalizeConn, CloseStream, FinalizeStream,
      RunJob, MakeCall, CallsLeft, Report, WaitCheck, ThreadEvent, DrainOne, OpTimeout, Abort, NewBorn,
      FrameHolds, FullWire, FreshPtrs, Q.TimerExpire, Q.TimerFire, Q.WaitStart, ResultShape, Offers, KicksOn;
    if Elsewhere(a) {
      ElsewhereFrame(s, a);
      assert false;
    } else {
      match a {
        case DoRunJob(k, result, err) => BornNow(s, k, result, err, u);
        case DoCall(k) =>
          CalledKeys(s, k);
          assert false;
        case DoReport(k) =>
          ReportFrame(s, k);
          assert false;
        case _ =>
          UnreferencedKick(s, a, u);
          KickLogged(s, a, u);
          assert false;
      }
    }
  }

  lemma CalledKeys(s: State, k: JobId)
    requires k in s.jobs && CallsLeft(s, k) != []
    ensures MakeCall(s, k).streams.Keys == s.streams.Keys
  {
    CallsMeanStream(s, k);
  }

  lemma UnreferencedKick(s: State, a: Step, u: JobId)
    requires Inv(s) && Enabled(s, a) && u !in s.streams
    ensures !KicksOn(s, a, u)
  {
    hide Placed, Registry, Handled, Delayed, ConnRefsAgree, Books, Conserved, OwnJobs, Completions, Waiters, Enabled, Apply,
      Attributed, WaiterSound, Owned, LostReason, Wholes, ConnHandled, StreamSound;
  }

  lemma BornNow(s: State, k: JobId, result: Option<Bytes>, err: Option<Bytes>, u: JobId)
    requires Inv(s) && k in s.jobs && s.jobs[k].ran.None? && u !in s.streams && u in RunJob(s, k, result, err).streams
    ensures NewBorn(RunJob(s, k, result, err), u)
  {
    hide Inv, RunJob, CallsLeft, FullWire;
    var s' := RunJob(s, k, result, err);
    if s.jobs[k].op.OpenOp? && err.None? {
      RunOpenShape(s, k, result);
      forall x ensures !Busy(s', u, x) {
        if Unfinished(s.jobs, u, x) {
          BusyListed(s, u, x);
        }
      }
    } else {
      RunQuietShape(s, k, result, err);
    }
  }

  // ---------------------------------------------------------------- every run keeps the pace

  lemma LastCallOrder(s: State, u: JobId, log: seq<Call>)
    requires u in s.streams && Paced(s, u) && StreamSound(u, s.streams[u], s.ops)
    requires |log| == |s.streams[u].log| + 1 && s.streams[u].log <= log && Busy(s, u, log[|log| - 1].job)
    ensures InCallOrder(log)
  {
    hide CallsOf, FullWire, Busy;
    var st := s.streams[u];
    forall i | 0 <= i < |st.log| ensures st.log[i].job <= log[|log| - 1].job {
      var m :| 0 <= m < |st.kicks| && st.kicks[m] == st.log[i].job;
    }
  }

  lemma PacedStep(s: State, a: Step, u: JobId)
    requires Inv(s) && Enabled(s, a) && Paced(s, u) && (KicksOn(s, a, u) ==> Idle(s, u))
    ensures Paced(Apply(s, a), u)
  {
    hide Inv, Enabled, Apply, KicksOn, CallsLeft, InCallOrder, Busy;
    var s' := Apply(s, a);
    if KicksOn(s, a, u) {
      KickedBusy(s, a, u);
    } else if u in s.streams {
      LogStep(s, a, u);
      if s'.streams[u].log != s.streams[u].log {
        SoundAt(s, u);
        LastCallOrder(s, u, s'.streams[u].log);
      }
    } else if u in s'.streams {
      BornStep(s, a, u);
      BornOrder(s'.streams[u].log, u);
    }
  }

  lemma BornOrder(log: seq<Call>, u: JobId)
    requires forall i :: 0 <= i < |log| ==> log[i].job == u
    ensures InCallOrder(log)
  {
  }

  lemma {:induction false} PacedRuns(s: State, run: seq<Step>, u: JobId)
    requires Inv(s) && Paced(s, u) && Runs(s, run) && PacedRun(s, run, u)
    ensures Paced(After(s, run), u)
    decreases |run|
  {
    hide Inv, Enabled, Apply, Paced, KicksOn, Idle;
    if run != [] {
      PacedStep(s, run[0], u);
      StepInv(s, run[0]);
      PacedRuns(Apply(s, run[0]), run[1..], u);
    }
  }

  lemma {:induction false} UnkickedPaced(s: State, run: seq<Step>, u: JobId)
    requires Runs(s, run) && Unkicked(s, run, u)
    ensures PacedRun(s, run, u)
    decreases |run|
  {
    hide Enabled, Apply, KicksOn, Idle;
    if run != [] {
      UnkickedPaced(Apply(s, run[0]), run[1..], u);
    }
  }

  // ---------------------------------------------------------------- the exact condition

  /** A job with calls left can make its next one. */
  lemma CallNow(s: State, u: JobId, k: JobId)
    requires Inv(s) && s.faults == {} && Busy(s, u, k)
    ensures Enabled(s, DoCall(k)) && Apply(s, DoCall(k)) == MakeCall(s, k)
    ensures u in s.streams && u in MakeCall(s, k).streams && MakeCall(s, k).streams[u].log == s.streams[u].log + [Call(k, CallsLeft(s, k)[0])]
    ensures MakeCall(s, k).jobs == s.jobs && MakeCall(s, k).faults == {} && !KicksOn(s, DoCall(k), u)
  {
    hide NewStream, NewStreamRefused, StreamOp, CloseConn, FinalizeConn, CloseStream, FinalizeStream, RunJob, CallsLeft, Report,
      WaitCheck, ThreadEvent, DrainOne, OpTimeout, Abort, FrameHolds, FullWire, FreshPtrs, ResultShape, Offers, Inv;
    BusyListed(s, u, k);
  }

  /** One call less to make. */
  lemma CallsShift(s: State, k: JobId)
    requires k in s.jobs && CallsLeft(s, k) != []
    ensures CallsLeft(MakeCall(s, k), k) == CallsLeft(s, k)[1..]
  {
    CallsMeanStream(s, k);
    CallsSnoc(s.streams[s.jobs[k].uid].log, Call(k, CallsLeft(s, k)[0]), k);
    hide CallsOf, FullWire;
  }

  /** Two busy jobs can call in either order, so the later one can overtake the earlier. */
  lemma Overtake(s: State, u: JobId, j: JobId, k: JobId) returns (run: seq<Step>)
    requires Inv(s) && s.faults == {} && Busy(s, u, j) && Busy(s, u, k) && k < j
    ensures Runs(s, run) && Unkicked(s, run, u) && u in s.streams && u in After(s, run).streams
    ensures var log := s.streams[u].log;
            After(s, run).streams[u].log == log + [Call(j, CallsLeft(s, j)[0]), Call(k, CallsLeft(s, k)[0])]
  {
    hide Inv, Enabled, Apply, CallsLeft, MakeCall, KicksOn;
    CallNow(s, u, j);
    var s1 := MakeCall(s, j);
    StepInv(s, DoCall(j));
    CallElseBusy(s, u, j, k);
    CallNow(s1, u, k);
    PrependUnkicked(s1, DoCall(k), [], u);
    PrependUnkicked(s, DoCall(j), [DoCall(k)] + [], u);
    run := [DoCall(j)] + ([DoCall(k)] + []);
  }

  lemma PrependUnkicked(s: State, a: Step, run: seq<Step>, u: JobId)
    requires Enabled(s, a) && Runs(Apply(s, a), run) && !KicksOn(s, a, u) && Unkicked(Apply(s, a), run, u)
    ensures Runs(s, [a] + run) && After(s, [a] + run) == After(Apply(s, a), run) && Unkicked(s, [a] + run, u)
  {
    hide Enabled, Apply, KicksOn;
    Prepend(s, a, run);
    assert ([a] + run)[1..] == run;
  }

  lemma CallElseBusy(s: State, u: JobId, j: JobId, k: JobId)
    requires Busy(s, u, j) && Busy(s, u, k) && j != k
    ensures Busy(MakeCall(s, j), u, k) && CallsLeft(MakeCall(s, j), k) == CallsLeft(s, k)
  {
    hide CallsLeft;
    CallElse(s, j, k);
    CallsMeanStream(s, j);
  }

  /** What a kick-off on `u` leaves: one more job, with its whole script to make. */
  ghost predicate Joined(s: State, s': State, u: JobId, op: Op) {
    && u in s.streams && u in s'.streams && s'.streams[u] == s.streams[u].(kicks := s.streams[u].kicks + [|s.ops|])
    && |s'.ops| == |s.ops| + 1 && s.ops <= s'.ops && s'.ops[|s.ops|].op == op && StreamJob(op)
    && |s.ops| in s'.jobs && Busy(s', u, |s.ops|) && CallsLeft(s', |s.ops|) == FullWire(s.streams[u].typ, op)
    && (forall k: JobId :: Busy(s, u, k) ==>
          k < |s.ops| && k in s'.jobs && Busy(s', u, k) && CallsLeft(s', k) == CallsLeft(s, k))
    && (forall k: JobId :: Busy(s', u, k) ==> k == |s.ops| || Busy(s, u, k))
  }

  lemma KickedBusy(s: State, a: Step, u: JobId)
    requires Inv(s) && Enabled(s, a) && KicksOn(s, a, u)
    ensures Inv(Apply(s, a)) && Apply(s, a).faults == {} && Joined(s, Apply(s, a), u, a.op)
  {
    hide Inv, Enabled, Apply, KicksOff, CleanId, Joined;
    var streams, ctx, info, job := Kicked(s, a);
    StepInv(s, a);
    AfterKickOff(s, a);
    LaunchedBusy(s, Apply(s, a), streams, a.co, a.id, a.op, ctx, info, job, u);
  }

  lemma LaunchedBusy(s: State, s': State, streams: map<JobId, Stream>, co: Co, id: Id, op: Op, ctx: StreamCtx, info: OpInfo, job: Job, u: JobId)
    requires Inv(s) && Launch(s, s', s.conns, streams, co, id, ctx, info, job) && KickedOn(s, id, op, streams, job)
    requires StreamJob(op) && Refers(s, id, u)
    ensures Joined(s, s', u, op)
  {
    hide Inv, CleanId, CallsOf;
    SoundAt(s, u);
    FreshCalls(s, u);
    assert s'.streams == streams && s'.jobs == s.jobs[|s.ops| := job] && s'.ops == s.ops + [info];
    forall k: JobId | Busy(s, u, k)
      ensures k < |s.ops| && k in s'.jobs && Busy(s', u, k) && CallsLeft(s', k) == CallsLeft(s, k)
    {
      BusyListed(s, u, k);
    }
  }

  lemma FreshCalls(s: State, u: JobId)
    requires u in s.streams && StreamSound(u, s.streams[u], s.ops)
    ensures CallsOf(s.streams[u].log, |s.ops|) == []
  {
    hide FullWire;
    var st := s.streams[u];
    forall i | 0 <= i < |st.log| ensures st.log[i].job != |s.ops| {
      var m :| 0 <= m < |st.kicks| && st.kicks[m] == st.log[i].job;
    }
    CallsNone(st.log, |s.ops|);
  }

  /** Call order, exactly: while nothing more is started on the stream, its calls stay in the order
      Lua started the jobs if and only if no earlier job had calls left when the last was started. */
  lemma OrderExact(s: State, a: Step, u: JobId)
    requires Inv(s) && Enabled(s, a) && KicksOn(s, a, u) && Paced(s, u)
    ensures Idle(s, u) <==>
            forall run :: Runs(Apply(s, a), run) && Unkicked(Apply(s, a), run, u) && u in After(Apply(s, a), run).streams ==>
              InCallOrder(After(Apply(s, a), run).streams[u].log)
  {
    hide Inv, Enabled, Apply, KicksOn, CallsLeft, Busy;
    var s' := Apply(s, a);
    KickedBusy(s, a, u);
    if Idle(s, u) {
      PacedStep(s, a, u);
      forall run | Runs(s', run) && Unkicked(s', run, u) && u in After(s', run).streams
        ensures InCallOrder(After(s', run).streams[u].log)
      {
        hide InCallOrder;
        UnkickedPaced(s', run, u);
        PacedRuns(s', run, u);
      }
    } else {
      var k :| Busy(s, u, k);
      var run := Overtake(s', u, |s.ops|, k);
      var log := After(s', run).streams[u].log;
      assert log[|log| - 2].job == |s.ops| && log[|log| - 1].job == k;
    }
  }
}
