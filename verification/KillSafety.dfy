/** A pulled kill switch stops every path of both modes before anything is staged, executed or reserved. */
module KillSafety {
  import opened Vocabulary
  import opened Stores
  import opened Pipeline
  import opened Enforcement
  import Kill

  /** The order covers everything this party does through this gateway, whatever it resolves to. */
  predicate Covers(order: Kill.Order, d: Deps, p: Party) {
    && order.active && order.predicate_.None?
    && (order.scope.Global? || order.scope == Kill.Agent(d.AgentName()) || order.scope == Kill.InSession(p.session.id))
  }

  /** At every look the kill store is readable and holds a covering order. */
  ghost predicate Pulled(d: Deps, p: Party) {
    d.kill.Some? && forall n: nat :: d.kill.value(n).Some? && exists o :: o in d.kill.value(n).value && Covers(o, d, p)
  }

  lemma EarlyKillFires(d: Deps, p: Party, at: nat)
    requires Pulled(d, p)
    ensures EarlyKill(d, p, at).Some?
  {
    var orders := d.kill.value(at).value;
    var target := Kill.Target(d.AgentName(), p.session.id, None, None);
    Kill.FirstMatchIsFirst(orders, target, d.killPredicate);
    var o :| o in orders && Covers(o, d, p);
    var i :| 0 <= i < |orders| && orders[i] == o;
    assert Kill.OrderMatches(orders[i], target, d.killPredicate);
  }

  /** A verdict that stands in both modes: the kill's own halt, or the denial of a name nobody can address. */
  predicate Stopped(v: Decided) {
    && Refused(v.decision) && v.claim.None?
    && (v.resolved.Some? ==> v.decision == Decision.Halt && KillCaused(v.rule))
  }

  lemma DecideIsStopped(d: Deps, call: RawCall, p: Party, env: RequestEnv, at: nat, history: seq<AuditRecord>)
    requires Pulled(d, p)
    ensures Stopped(Decide(d, call, p, env, at, history))
    ensures d.resolve(call).Some? ==>
      exists o :: Decide(d, call, p, env, at, history).rule == KillOrder(o) && Decide(d, call, p, env, at, history).outcome == Halted
  {
    EarlyKillFires(d, p, at);
  }

  /** Nothing staged, executed or reserved. */
  ghost predicate Untouched(w: World, w': World) {
    w'.rows == w.rows && w'.executed == w.executed && w'.lines == w.lines
  }

  lemma StoppedStays(v: Decided, s: Setup)
    requires Stopped(v)
    ensures AsAdvised(v, s).decided == v
  {
  }

  lemma WholeStops(w: World, g: Gateway, a: Attempt, mode: Mode)
    requires Pulled(g.deps, a.party)
    ensures var (w', r) := EnforceWhole(w, g, a, mode);
      && Untouched(w, w') && Refused(r.decision)
      && (g.deps.resolve(a.call).Some? ==> r.decision == Decision.Halt)
  {
    DecideIsStopped(g.deps, a.call, a.party, a.env, w.calls, w.audit);
    StoppedStays(DecideIn(w, g, a.call, a.party, a.env).1, g.setup);
  }

  lemma {:induction false} ItemsStopped(w: World, g: Gateway, a: Attempt, def: ItemsDef, values: seq<Value>)
    requires Pulled(g.deps, a.party)
    ensures var (w', ds) := DecideItems(w, g, a, def, values);
      Untouched(w, w') && forall i | 0 <= i < |ds| :: Stopped(ds[i])
    decreases |values|
  {
    if values != [] {
      var call := ItemCall(a.call, def, [values[0]]);
      DecideIsStopped(g.deps, call, a.party, a.env, w.calls, w.audit);
      ItemsStopped(DecideIn(w, g, call, a.party, a.env).0, g, a, def, values[1..]);
    }
  }

  lemma {:induction false} SettleStops(w: World, g: Gateway, a: Attempt, mode: Mode, names: seq<string>, items: seq<Advised>)
    requires |names| == |items| && ItemsCommittable(items)
    requires forall i | 0 <= i < |items| :: Stopped(items[i].decided)
    ensures var (w', verdicts) := SettleItems(w, g, a, mode, names, items);
      Untouched(w, w') && forall i | 0 <= i < |verdicts| :: Refused(verdicts[i].decision)
    decreases |items|
  {
    if items != [] {
      SettleStops(SettleItem(w, g, a, mode, items[0]).0, g, a, mode, names[1..], items[1..]);
    }
  }

  lemma FanOutStops(w: World, g: Gateway, a: Attempt, def: ItemsDef, values: seq<Value>, mode: Mode)
    requires Pulled(g.deps, a.party) && values != []
    ensures var (w', r) := FanOut(w, g, a, def, values, mode);
      Untouched(w, w') && Refused(r.decision) && r.applied == []
  {
    var names := ItemNames(values, def, g.setup.text);
    var (decidedIn, ds) := DecideItems(w, g, a, def, values);
    ItemsStopped(w, g, a, def, values);
    var items := Translate(ds, g.setup, mode);
    forall i | 0 <= i < |items| ensures items[i].decided == ds[i] {
      StoppedStays(ds[i], g.setup);
    }
    SettleStops(decidedIn, g, a, mode, names, items);
    var verdicts := SettleItems(decidedIn, g, a, mode, names, items).1;
    var settled := Reconcile(verdicts, None, mode);
    assert DecisionsOf(settled)[0] == verdicts[0].decision;
    assert Template(items).None?;
  }

  lemma {:induction false} OperationsStopped(w: World, g: Gateway, p: Party, ops: seq<Operation>)
    requires Pulled(g.deps, p)
    ensures var (w', ds) := DecideAll(w, g, p, ops);
      Untouched(w, w') && forall i | 0 <= i < |ds| :: Stopped(ds[i])
    decreases |ops|
  {
    if ops != [] {
      DecideIsStopped(g.deps, ops[0].call, p, ops[0].env, w.calls, w.audit);
      OperationsStopped(DecideIn(w, g, ops[0].call, p, ops[0].env).0, g, p, ops[1..]);
    }
  }

  lemma {:induction false} RefuseStops(w: World, g: Gateway, p: Party, ops: seq<Operation>, ds: seq<Decided>,
                                       stamp: Option<Stamp>, closings: seq<Closing>)
    requires |ops| == |ds| == |closings|
    ensures Untouched(w, RefuseAll(w, g, p, ops, ds, stamp, closings).0)
    decreases |ds|
  {
    if ds != [] {
      var j := JobOf(g, p, ops[0].env, Enforced, stamp);
      RefuseStops(Finish(w, j, ds[0], closings[0]).0, g, p, ops[1..], ds[1..], stamp, closings[1..]);
    }
  }

  lemma {:induction false} CommitStops(w: World, g: Gateway, p: Party, mode: Mode, ops: seq<Operation>,
                                       ds: seq<Decided>, stamps: seq<Option<Stamp>>)
    requires |ops| == |ds| == |stamps| && AllCommittable(ds)
    requires forall i | 0 <= i < |ds| :: Stopped(ds[i])
    ensures var (w', results) := CommitAll(w, g, p, mode, ops, ds, stamps);
      Untouched(w, w') && forall i | 0 <= i < |results| :: Refused(results[i].decision)
    decreases |ds|
  {
    if ds != [] {
      assert Stopped(ds[0]);
      var j := JobOf(g, p, ops[0].env, mode, stamps[0]);
      CommitStops(Commit(w, j, ds[0]).0, g, p, mode, ops[1..], ds[1..], stamps[1..]);
    }
  }

  lemma AdviseStops(w: World, g: Gateway, p: Party, ops: seq<Operation>, ds: seq<Decided>)
    requires |ops| == |ds| && ds != [] && AllCommittable(ds)
    requires forall i | 0 <= i < |ds| :: Stopped(ds[i])
    ensures var (w', r) := AdviseBatch(w, g, p, ops, ds); Untouched(w, w') && Refused(r.decision)
  {
    if FirstKill(ds) < |ds| {
      RefuseStops(w, g, p, ops, ds, Some(Stamp(None, Judged, None, None)), RefusalClosings(ds));
    } else {
      var failing := FirstRefusal(ds);
      var note := if failing < |ds| then Some(BatchAdvice(failing, ds[failing].decision)) else None;
      var items := Translate(ds, g.setup, Advisory);
      var translated := seq(|ds|, i requires 0 <= i < |ds| => items[i].decided);
      var stamps := seq(|ds|, i requires 0 <= i < |ds| =>
        Some(Stamp(items[i].advice, items[i].coverage, note, None)));
      forall i | 0 <= i < |ds| ensures translated[i] == ds[i] {
        StoppedStays(ds[i], g.setup);
      }
      CommitStops(w, g, p, Advisory, ops, translated, stamps);
      assert Refused(CommitAll(w, g, p, Advisory, ops, translated, stamps).1[0].decision);
    }
  }

  /** While the switch is pulled, no call in any form or mode gets anything done. */
  lemma CallsStop(w: World, g: Gateway, a: Attempt, mode: Mode)
    requires Pulled(g.deps, a.party)
    ensures var (w', r) := Enforce(w, g, a, mode); Untouched(w, w') && Refused(r.decision)
  {
    match ItemsDeclaration(g.deps, a.call)
    case None => WholeStops(w, g, a, mode);
    case Some(def) =>
      if !OverCeiling(def, ItemValues(a.call, def)) {
        FanOutStops(w, g, a, def, ItemValues(a.call, def), mode);
      } else {
        DecideIsStopped(g.deps, a.call, a.party, a.env, w.calls, w.audit);
        StoppedStays(DecideIn(w, g, a.call, a.party, a.env).1, g.setup);
      }
  }

  /** Nor does any batch. */
  lemma BatchesStop(w: World, g: Gateway, p: Party, ops: seq<Operation>, mode: Mode)
    requires Pulled(g.deps, p) && ops != []
    ensures var (w', r) := EnforceBatch(w, g, p, ops, mode); Untouched(w, w') && Refused(r.decision)
  {
    var (after, ds) := DecideAll(w, g, p, ops);
    OperationsStopped(w, g, p, ops);
    assert Stopped(ds[0]);
    if mode == Advisory {
      AdviseStops(after, g, p, ops, ds);
    } else {
      RefuseStops(after, g, p, ops, ds, None, RefusalClosings(ds));
    }
  }
}
