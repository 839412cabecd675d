/** The finished-task queue between goroutines and the one background waiter, as
    lock-protected state: each function is one critical section. */
module FinishedQueue {
  import opened Base

  /** Where the background thread is. `Off`: no task posted; `Queued`: posted, `Wait` not
      entered; `Entering`: timer armed, lock not yet taken; `Parked`: inside `cond.Wait`;
      `Woken`: signalled, lock not yet retaken; `Finished`: `Wait` returned, completion
      event not yet handled. */
  datatype Phase = Off | Queued | Entering | Parked | Woken | Finished

  /** `armed`: timers that may still be stopped; `firing`: expired timers whose callback has
      not yet taken the lock, which `Stop` can no longer prevent; `own`: the current wait's. */
  datatype Queue = Queue(
    done: bool, tasks: seq<TaskResult>, phase: Phase,
    armed: set<nat>, firing: set<nat>, own: nat, nextTimer: nat)

  const EMPTY := Queue(false, [], Off, {}, {}, 0, 0)

  function Signal(q: Queue): Queue {
    q.(done := true, phase := if q.phase == Parked then Woken else q.phase)
  }

  function Done(q: Queue, t: TaskResult): Queue {
    Signal(q.(tasks := q.tasks + [t]))
  }

  function TimerExpire(q: Queue, t: nat): Queue {
    q.(armed := q.armed - {t}, firing := q.firing + {t})
  }

  function TimerFire(q: Queue, t: nat): Queue {
    Signal(q.(firing := q.firing - {t}))
  }

  function WaitStart(q: Queue): Queue {
    q.(phase := Entering, armed := q.armed + {q.nextTimer}, own := q.nextTimer, nextTimer := q.nextTimer + 1)
  }

  /** The loop test, with the lock held: park again, or leave with everything queued. */
  function WaitCheck(q: Queue): Queue {
    if !q.done then q.(phase := Parked)
    else q.(done := false, tasks := [], phase := Finished, armed := q.armed - {q.own})
  }

  /** Queued work is always announced, and a parked waiter has nothing to collect and
      will be woken by its own timer at the latest. */
  predicate Live(q: Queue) {
    && (q.tasks != [] ==> q.done)
    && (q.phase == Parked ==> !q.done && q.own in q.armed + q.firing)
    && (q.phase == Woken ==> q.done)
    && (q.phase == Entering ==> q.done || q.own in q.armed + q.firing)
    && (forall t :: t in q.armed + q.firing ==> t < q.nextTimer)
  }
}
