/** The result path: goroutine, Go queue, batch, posted queue, event loop. */
module Flow {
  import opened Base
  import opened Buffers
  import opened Machine
  import opened Invariants
  import Q = FinishedQueue

  type Jobs = map<JobId, Job>
  type Cos = map<Co, CoCtx>
  type Results = seq<TaskResult>

  // ---------------------------------------------------------------- Transit

  lemma OriginsConcat(a: seq<CRes>, b: seq<CRes>)
    ensures Origins(a + b) == Origins(a) + Origins(b)
  {
  }

  lemma OriginsPack(ts: Results, ps: seq<Ptr>)
    requires |ps| == |ts|
    ensures Origins(PackAll(ts, ps)) == ts
  {
  }

  /** Taking the head of the posted queue takes the oldest result in transit. */
  lemma TransitHead(posted: seq<CRes>, batch: seq<CRes>, tasks: Results)
    requires posted != []
    ensures Origins(posted) + Origins(batch) + tasks
         == [posted[0].origin] + (Origins(posted[1..]) + Origins(batch) + tasks)
  {
    assert Origins(posted) == [posted[0].origin] + Origins(posted[1..]);
  }

  // ---------------------------------------------------------------- Unsettled

  /** Reporting moves a job from running to in transit. */
  lemma UnsettledReport(jobs: Jobs, transit: Results, t: TaskResult, k: JobId)
    requires t.job in jobs
    ensures Unsettled(jobs - {t.job}, transit + [t], k) <==> Unsettled(jobs, transit, k)
  {
    var transit' := transit + [t];
    assert transit'[|transit|] == t;
    if Unsettled(jobs, transit, k) && k !in jobs {
      var i :| 0 <= i < |transit| && transit[i].job == k;
      assert transit'[i].job == k;
    }
  }

  lemma UnsettledHead(jobs: Jobs, x: TaskResult, rest: Results, k: JobId)
    ensures Unsettled(jobs, [x] + rest, k) <==> k == x.job || Unsettled(jobs, rest, k)
  {
    var all := [x] + rest;
    assert all[0] == x;
    if Unsettled(jobs, rest, k) && k !in jobs {
      var i :| 0 <= i < |rest| && rest[i].job == k;
      assert all[i + 1].job == k;
    }
  }

  // ---------------------------------------------------------------- Books

  lemma BooksKick(jobs: Jobs, ops: seq<OpInfo>, reported: Results, info: OpInfo, job: Job)
    requires Books(jobs, ops, reported)
    requires job.id == info.id && job.op == info.op && job.ran.None? && (job.op.OpenOp? ==> !job.typ.Unary?)
    ensures Books(jobs[|ops| := job], ops + [info], reported)
  {
    var jobs', ops' := jobs[|ops| := job], ops + [info];
    forall j | j in jobs' ensures JobSound(j, jobs'[j], ops') {
      if j != |ops| {
        assert JobSound(j, jobs[j], ops);
      }
    }
    forall j | 0 <= j < |ops'| ensures Unsettled(jobs', reported, j) {
      if j < |ops| {
        assert Unsettled(jobs, reported, j);
      }
    }
  }

  lemma BooksRun(jobs: Jobs, ops: seq<OpInfo>, reported: Results, j: JobId, job: Job)
    requires Books(jobs, ops, reported) && j in jobs && JobSound(j, job, ops)
    ensures Books(jobs[j := job], ops, reported)
  {
    var jobs' := jobs[j := job];
    forall k | 0 <= k < |ops| ensures Unsettled(jobs', reported, k) {
      assert Unsettled(jobs, reported, k);
    }
  }

  lemma BooksReport(jobs: Jobs, ops: seq<OpInfo>, reported: Results, t: TaskResult)
    requires Books(jobs, ops, reported) && t.job in jobs && jobs[t.job].ran == Some(t)
    ensures Books(jobs - {t.job}, ops, reported + [t])
  {
    assert JobSound(t.job, jobs[t.job], ops);
    forall k | 0 <= k < |ops| ensures Unsettled(jobs - {t.job}, reported + [t], k) {
      assert Unsettled(jobs, reported, k);
      UnsettledReport(jobs, reported, t, k);
    }
  }

  // ---------------------------------------------------------------- OwnJobs

  /** Kicking off under an id nobody waits on. */
  lemma OwnArm(cos: Cos, ops: seq<OpInfo>, jobs: Jobs, transit: Results, co: Co, k: CoCtx, info: OpInfo, job: Job)
    requires OwnJobs(cos, ops, jobs, transit)
    requires forall i :: 0 <= i < |transit| ==> transit[i].job < |ops|
    requires k.run == Waiting(|ops|)
    requires forall x :: x in cos && x != co && cos[x].run.Waiting? ==>
               cos[x].run.op < |ops| && ops[cos[x].run.op].id != info.id
    requires info.clean ==> forall j :: 0 <= j < |ops| && ops[j].id == info.id ==> !Unsettled(jobs, transit, j)
    ensures OwnJobs(cos[co := k], ops + [info], jobs[|ops| := job], transit)
  {
    var cos', ops', jobs' := cos[co := k], ops + [info], jobs[|ops| := job];
    forall j | 0 <= j < |ops| ensures Unsettled(jobs', transit, j) <==> Unsettled(jobs, transit, j) {
    }
    forall x | x in cos' && cos'[x].run.Waiting? ensures OwnJob(cos'[x].run.op, ops', jobs', transit) {
      if x != co {
        assert OwnJob(cos[x].run.op, ops, jobs, transit);
      }
    }
  }

  /** Fewer coroutines waiting. */
  lemma OwnDrop(cos: Cos, ops: seq<OpInfo>, jobs: Jobs, transit: Results, co: Co, k: CoCtx)
    requires OwnJobs(cos, ops, jobs, transit) && !k.run.Waiting?
    ensures OwnJobs(cos[co := k], ops, jobs, transit)
  {
  }

  /** The set of unsettled jobs did not change. */
  lemma OwnSame(cos: Cos, ops: seq<OpInfo>, jobs: Jobs, transit: Results, jobs': Jobs, transit': Results)
    requires OwnJobs(cos, ops, jobs, transit)
    requires forall k :: Unsettled(jobs', transit', k) <==> Unsettled(jobs, transit, k)
    ensures OwnJobs(cos, ops, jobs', transit')
  {
    forall x | x in cos && cos[x].run.Waiting? ensures OwnJob(cos[x].run.op, ops, jobs', transit') {
      assert OwnJob(cos[x].run.op, ops, jobs, transit);
    }
  }

  /** The oldest result in transit is handled; nobody is left waiting for its job. */
  lemma OwnDrain(cos: Cos, ops: seq<OpInfo>, jobs: Jobs, x: TaskResult, rest: Results)
    requires OwnJobs(cos, ops, jobs, [x] + rest)
    requires forall c :: c in cos && cos[c].run.Waiting? ==> cos[c].run.op != x.job
    ensures OwnJobs(cos, ops, jobs, rest)
  {
    forall c | c in cos && cos[c].run.Waiting? ensures OwnJob(cos[c].run.op, ops, jobs, rest) {
      var j := cos[c].run.op;
      assert OwnJob(j, ops, jobs, [x] + rest);
      UnsettledHead(jobs, x, rest, j);
      forall k | 0 <= k < |ops| && ops[j].clean && ops[k].id == ops[j].id && k != j
        ensures !Unsettled(jobs, rest, k)
      {
        UnsettledHead(jobs, x, rest, k);
      }
    }
  }

  // ---------------------------------------------------------------- Attributed

  lemma AttributedGrow(events: seq<Event>, ops: seq<OpInfo>, reported: Results, ops': seq<OpInfo>, reported': Results)
    requires Attributed(events, ops, reported) && ops <= ops' && reported <= reported'
    ensures Attributed(events, ops', reported')
  {
    forall i | 0 <= i < |events| && events[i].cause.Result?
      ensures AttributedTo(events[i].op, events[i].cause, ops', reported')
    {
      assert AttributedTo(events[i].op, events[i].cause, ops, reported);
    }
  }

  lemma AttributedAdd(events: seq<Event>, ops: seq<OpInfo>, reported: Results, e: Event)
    requires Attributed(events, ops, reported)
    requires e.cause.Result? ==> AttributedTo(e.op, e.cause, ops, reported)
    ensures Attributed(events + [e], ops, reported)
  {
  }

  // ---------------------------------------------------------------- the waiter

  lemma LiveTimer(q: Q.Queue, t: nat)
    requires Q.Live(q)
    ensures t in q.armed ==> Q.Live(Q.TimerExpire(q, t))
    ensures t in q.firing ==> Q.Live(Q.TimerFire(q, t))
  {
    assert forall x :: x in q.armed - {t} + (q.firing + {t}) ==> x == t || x in q.armed + q.firing;
    assert forall x :: x in q.armed + (q.firing - {t}) ==> x in q.armed + q.firing;
  }

  lemma LiveDone(q: Q.Queue, t: TaskResult)
    requires Q.Live(q)
    ensures Q.Live(Q.Done(q, t))
  {
  }

  lemma LiveWait(q: Q.Queue)
    requires Q.Live(q)
    ensures q.phase == Q.Queued ==> Q.Live(Q.WaitStart(q))
    ensures q.phase == Q.Entering || q.phase == Q.Woken ==> Q.Live(Q.WaitCheck(q))
  {
    assert forall x :: x in q.armed + {q.nextTimer} + q.firing ==> x == q.nextTimer || x in q.armed + q.firing;
    assert forall x :: x in q.armed - {q.own} + q.firing ==> x in q.armed + q.firing;
  }

  lemma ScheduleShape(s: State)
    requires WaiterSound(s.q, s.active, s.batch)
    ensures Schedule(s) == s.(active := true, q := if s.active then s.q else s.q.(phase := Q.Queued))
    ensures WaiterSound(Schedule(s).q, true, s.batch)
    ensures Transit(Schedule(s)) == Transit(s)
  {
  }

  /** Steps that touch neither the result path nor its logs. */
  lemma ConservedSame(s: State, s': State)
    requires Conserved(s) && s'.reported == s.reported && s'.processed == s.processed
    requires s'.posted == s.posted && s'.batch == s.batch && s'.q.tasks == s.q.tasks
    ensures Conserved(s') && Transit(s') == Transit(s)
  {
  }
}
