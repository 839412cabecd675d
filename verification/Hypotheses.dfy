/** Hypotheses on runs, and the invariants that follow from them. */
module Hypotheses {
  import opened Base
  import opened Machine
  import opened Invariants
  import opened Reachability
  import opened Undisturbed
  import opened Orderly
  import opened OrderlyCompletion
  import opened Attribution
  import Q = FinishedQueue

  // ---------------------------------------------------------------- hypotheses on runs

  /** No operation is kicked off under an id while an earlier job under it is unreported or in
      transit. */
  predicate NeverReissued(s: State, run: seq<Step>)
    requires Runs(s, run)
    decreases |run|
  {
    run == [] || ((KicksOff(s, run[0]) ==> CleanId(s, KickedId(s, run[0]))) && NeverReissued(Apply(s, run[0]), run[1..]))
  }

  lemma CleanStep(s: State, a: Step)
    requires Inv(s) && Enabled(s, a)
    ensures AllClean(Apply(s, a).ops) <==> AllClean(s.ops) && (KicksOff(s, a) ==> CleanId(s, KickedId(s, a)))
  {
    hide Inv, Enabled, Apply, CleanId;
    OpsStep(s, a);
    if KicksOff(s, a) {
      AfterKickOff(s, a);
    }
  }

  /** The hypothesis on a run is what its history flags record. */
  lemma {:induction false} ReissueFlags(s: State, run: seq<Step>)
    requires Inv(s) && Runs(s, run)
    ensures AllClean(After(s, run).ops) <==> AllClean(s.ops) && NeverReissued(s, run)
    decreases |run|
  {
    hide Inv, Enabled, Apply, CleanId, KicksOff, KickedId, AllClean;
    if run != [] {
      CleanStep(s, run[0]);
      StepInv(s, run[0]);
      ReissueFlags(Apply(s, run[0]), run[1..]);
    }
  }

  // ---------------------------------------------------------------- orderly runs

  lemma InitOrder()
    ensures OrderInv(INIT)
  {
    assert Transit(INIT) == [];
  }

  lemma {:induction false} OrderRun(s: State, run: seq<Step>)
    requires Inv(s) && OrderInv(s) && Runs(s, run) && AllClean(After(s, run).ops)
    ensures OrderInv(After(s, run))
    decreases |run|
  {
    hide Inv, OrderInv, Enabled, Apply, AllClean;
    if run != [] {
      var s1 := Apply(s, run[0]);
      StepInv(s, run[0]);
      OpsRun(s1, run[1..]);
      CleanPrefix(s1.ops, After(s, run).ops);
      OrderStep(s, run[0]);
      OrderRun(s1, run[1..]);
    }
  }

  lemma CleanPrefix(ops: seq<OpInfo>, more: seq<OpInfo>)
    requires ops <= more && AllClean(more)
    ensures AllClean(ops)
  {
  }

  /** Both invariants after every run that reissues no id early. */
  lemma Orderliness(run: seq<Step>)
    requires Runs(INIT, run) && NeverReissued(INIT, run)
    ensures Inv(After(INIT, run)) && OrderInv(After(INIT, run))
  {
    hide Enabled, Apply, Inv, OrderInv;
    InitInv();
    InitOrder();
    RunInv(INIT, run);
    ReissueFlags(INIT, run);
    OrderRun(INIT, run);
  }
}
