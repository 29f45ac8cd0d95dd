/** A deployment serving traffic: the run theorems read off the objects themselves. */
module DeploymentRuns {
  import opened Vocabulary
  import opened Stores
  import opened Enforcement
  import opened Conservation
  import opened ReservationRuns
  import opened ReservationLife
  import opened StoreObjects
  import opened Deployments

  predicate Traffic(steps: seq<Step>) {
    forall i | 0 <= i < |steps| :: !steps[i].OfRow?
  }

  /** Serve calls and batches one after another; a deployment whose accounts were settled keeps them settled. */
  method ServeAll(d: Deployment, steps: seq<Step>)
    requires Traffic(steps)
    modifies d.at, d.outbox, d.obligations, d.connector, d.audit
    ensures d.State() == Run(old(d.State()), d.Config(), steps)
    ensures Conserved(old(d.State()), {}) && AllWired(d.Config(), steps) ==> Conserved(d.State(), {})
  {
    ghost var w := d.State();
    var i := 0;
    assert steps[0..] == steps;
    while i < |steps|
      invariant 0 <= i <= |steps|
      invariant Run(w, d.Config(), steps) == Run(d.State(), d.Config(), steps[i..])
    {
      assert steps[i..][0] == steps[i] && steps[i..][1..] == steps[i + 1..];
      ServeStep(d, steps[i]);
      i := i + 1;
    }
    if Conserved(w, {}) && AllWired(d.Config(), steps) {
      SettledRun(w, d.Config(), steps);
    }
  }

  method ServeStep(d: Deployment, step: Step)
    requires !step.OfRow?
    modifies d.at, d.outbox, d.obligations, d.connector, d.audit
    ensures d.State() == Apply(old(d.State()), d.Config(), step)
  {
    match step {
      case Call(a, mode) =>
        var _ := d.Serve(a, mode);
      case Batch(p, ops, mode) =>
        if ops != [] {
          var _ := d.ServeBatch(p, ops, mode);
        }
    }
  }

  lemma SettledRun(w: World, g: Gateway, steps: seq<Step>)
    requires Conserved(w, {}) && AllWired(g, steps)
    ensures Conserved(Run(w, g, steps), {})
  {
    var left := RunConserves(w, g, steps, {});
    WiredRunDanglesNone(w, g, steps);
    assert left == {};
  }
}
