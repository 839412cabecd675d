/** How keeping, unkeeping, arming and completing keep the registry and the coroutines. */
module Registration {
  import opened Base
  import opened Machine
  import opened Invariants

  type Ctxs = map<Id, StreamCtx>
  type Cos = map<Co, CoCtx>

  // ---------------------------------------------------------------- Registry

  lemma RegistryKeep(ongoing: set<Id>, num: int, sctxs: Ctxs, id: Id, ctx: StreamCtx)
    requires Registry(ongoing, num, sctxs) && id !in ongoing
    requires ctx.node && (ctx.place.Pending? || ctx.place.InFlight? || ctx.place.Held?)
    ensures Registry(ongoing + {id}, num + 1, sctxs[id := ctx])
  {
  }

  lemma RegistryDrop(ongoing: set<Id>, num: int, sctxs: Ctxs, id: Id, ctx: StreamCtx)
    requires Registry(ongoing, num, sctxs) && id in ongoing
    requires !ctx.node && !ctx.place.Pending? && !ctx.place.InFlight?
    ensures Registry(ongoing - {id}, num - 1, sctxs[id := ctx])
  {
  }

  lemma RegistryIdle(ongoing: set<Id>, num: int, sctxs: Ctxs, id: Id, ctx: StreamCtx)
    requires Registry(ongoing, num, sctxs) && id !in ongoing
    requires !ctx.node && !ctx.place.Pending? && !ctx.place.InFlight?
    ensures Registry(ongoing, num, sctxs[id := ctx])
  {
  }

  lemma RegistryFree(ongoing: set<Id>, num: int, sctxs: Ctxs, gone: set<Id>)
    requires Registry(ongoing, num, sctxs)
    requires forall id :: id in gone ==> id in sctxs && sctxs[id].place.Free?
    ensures Registry(ongoing, num, sctxs - gone)
  {
    forall id | id in ongoing ensures id !in gone {
      assert KeptPlace(sctxs[id]);
    }
  }

  // ---------------------------------------------------------------- Waiters

  lemma WaitersArm(ongoing: set<Id>, sctxs: Ctxs, cos: Cos, ops: seq<OpInfo>, id: Id, co: Co, ctx: StreamCtx, info: OpInfo)
    requires Waiters(ongoing, sctxs, cos, ops) && id !in ongoing
    requires co in cos ==> cos[co].run.Running?
    requires ctx.waitCo == Some(co) && !ctx.timedOut
    requires info.id == id && info.co == co && OpFits(info.op, ctx.place)
    ensures Waiters(ongoing + {id}, sctxs[id := ctx], cos[co := CoCtx(Waiting(|ops|), true, true, id)], ops + [info])
  {
    var ops' := ops + [info];
    var cos' := cos[co := CoCtx(Waiting(|ops|), true, true, id)];
    assert ops'[|ops|] == info;
    forall k | k in cos' ensures CoSound(ongoing + {id}, sctxs[id := ctx], k, cos'[k], ops') {
      if k != co {
        assert CoSound(ongoing, sctxs, k, cos[k], ops);
      }
    }
  }

  /** The coroutine registered for `id` stops waiting, whatever the reason. */
  lemma WaitersDrop(ongoing: set<Id>, sctxs: Ctxs, cos: Cos, ops: seq<OpInfo>, id: Id, ctx: StreamCtx, k: CoCtx)
    requires Waiters(ongoing, sctxs, cos, ops) && id in ongoing
    requires !k.run.Waiting? && !k.timer && !k.cleanup
    ensures Waiters(ongoing - {id}, sctxs[id := ctx], cos[sctxs[id].waitCo.value := k], ops)
  {
    var co := sctxs[id].waitCo.value;
    var cos', sctxs', ongoing' := cos[co := k], sctxs[id := ctx], ongoing - {id};
    forall y | y in ongoing'
      ensures sctxs'[y].waitCo.Some? && sctxs'[y].waitCo.value != co
    {
    }
    forall x | x in cos' ensures CoSound(ongoing', sctxs', x, cos'[x], ops) {
      if x != co {
        assert CoSound(ongoing, sctxs, x, cos[x], ops);
      }
    }
  }

  /** A context nobody waits on may change or disappear. */
  lemma WaitersIdle(ongoing: set<Id>, sctxs: Ctxs, cos: Cos, ops: seq<OpInfo>, sctxs': Ctxs)
    requires Waiters(ongoing, sctxs, cos, ops)
    requires forall id :: id in ongoing ==> id in sctxs' && sctxs'[id] == sctxs[id]
    ensures Waiters(ongoing, sctxs', cos, ops)
  {
    forall co | co in cos ensures CoSound(ongoing, sctxs', co, cos[co], ops) {
      assert CoSound(ongoing, sctxs, co, cos[co], ops);
    }
  }

  // ---------------------------------------------------------------- Completions

  lemma CompletionsArm(events: seq<Event>, cos: Cos, ops: seq<OpInfo>, co: Co, k: CoCtx, info: OpInfo)
    requires Completions(events, cos, ops)
    requires co in cos ==> cos[co].run.Running?
    requires info.co == co && k.run == Waiting(|ops|)
    ensures Completions(events, cos[co := k], ops + [info])
  {
    var ops', cos' := ops + [info], cos[co := k];
    assert Awaited(cos', ops', |ops|);
    forall j | 0 <= j < |ops| ensures Awaited(cos', ops', j) <==> Awaited(cos, ops, j) {
    }
  }

  lemma CompletionsAdd(events: seq<Event>, cos: Cos, ops: seq<OpInfo>, co: Co, k: CoCtx, cause: Cause)
    requires Completions(events, cos, ops)
    requires co in cos && cos[co].run.Waiting? && cos[co].run.op < |ops| && ops[cos[co].run.op].co == co
    requires !k.run.Waiting?
    ensures Completions(events + [Event(cos[co].run.op, cause)], cos[co := k], ops)
  {
    var j := cos[co].run.op;
    var events', cos' := events + [Event(j, cause)], cos[co := k];
    assert Awaited(cos, ops, j);
    assert events'[|events|].op == j;
    forall i | 0 <= i < |ops| && !Awaited(cos', ops, i)
      ensures exists n :: 0 <= n < |events'| && events'[n].op == i
    {
      if i != j {
        assert !Awaited(cos, ops, i);
        var n :| 0 <= n < |events| && events[n].op == i;
        assert events'[n].op == i;
      }
    }
  }
}
