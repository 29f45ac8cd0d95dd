/** Under enforcement nothing is staged, executed or reserved for an action the policy does not authorize. */
module AuthorizedWork {
  import opened Vocabulary
  import opened Stores
  import opened Pipeline
  import opened Enforcement
  import opened FanOutPartition
  import opened ReservationRuns
  import opened ReservationLife
  import opened KillSafety
  import opened Verdicts
  import Compiler
  import HoldDedupe

  /** The registry knows the call and the policy authorizes what it resolves to. */
  predicate Permits(d: Deps, call: RawCall) {
    d.resolve(call).Some? && Authorized(d, d.resolve(call).value)
  }

  lemma UnpermittedIsRefused(w: World, g: Gateway, call: RawCall, p: Party, env: RequestEnv)
    ensures var d := DecideIn(w, g, call, p, env).1;
      && (!Refused(d.decision) ==> d.resolved == g.deps.resolve(call) && Permits(g.deps, call))
      && (!Permits(g.deps, call) ==> Refused(d.decision))
  {
    var q := Question(call, p, env, w.calls, w.audit);
    AllowedExactly(g.deps, q);
    HeldExactly(g.deps, q);
    VerdictIsAbout(g.deps, q);
  }

  // ---- calls -----------------------------------------------------------------------------

  lemma WholeUnpermitted(w: World, g: Gateway, a: Attempt)
    requires !Permits(g.deps, a.call)
    ensures var (w', r) := EnforceWhole(w, g, a, Enforced); Untouched(w, w') && Refused(r.decision)
  {
    UnpermittedIsRefused(w, g, a.call, a.party, a.env);
  }

  ghost predicate AllRefused(ds: seq<Decided>) {
    forall i | 0 <= i < |ds| :: Refused(ds[i].decision)
  }

  lemma {:induction false} ItemsUnpermitted(w: World, g: Gateway, a: Attempt, def: ItemsDef, values: seq<Value>)
    requires forall i | 0 <= i < |values| :: !Permits(g.deps, ItemCall(a.call, def, [values[i]]))
    ensures var (w', ds) := DecideItems(w, g, a, def, values); Untouched(w, w') && AllRefused(ds)
    decreases |values|
  {
    if values != [] {
      var call := ItemCall(a.call, def, [values[0]]);
      UnpermittedIsRefused(w, g, call, a.party, a.env);
      ItemsUnpermitted(DecideIn(w, g, call, a.party, a.env).0, g, a, def, values[1..]);
    }
  }

  lemma {:induction false} RefusedItemsSettle(w: World, g: Gateway, a: Attempt, names: seq<string>, items: seq<Advised>)
    requires |names| == |items| && ItemsCommittable(items)
    requires forall i | 0 <= i < |items| :: Refused(items[i].decided.decision)
    ensures var (w', verdicts) := SettleItems(w, g, a, Enforced, names, items);
      Untouched(w, w') && forall i | 0 <= i < |verdicts| :: Refused(verdicts[i].decision)
    decreases |items|
  {
    if items != [] {
      RefusedItemsSettle(SettleItem(w, g, a, Enforced, items[0]).0, g, a, names[1..], items[1..]);
    }
  }

  lemma FanOutUnpermitted(w: World, g: Gateway, a: Attempt, def: ItemsDef, values: seq<Value>)
    requires values != [] && forall i | 0 <= i < |values| :: !Permits(g.deps, ItemCall(a.call, def, [values[i]]))
    ensures var (w', r) := FanOut(w, g, a, def, values, Enforced); Untouched(w, w') && Refused(r.decision)
  {
    var names := ItemNames(values, def, g.setup.text);
    var (m, ds) := DecideItems(w, g, a, def, values);
    ItemsUnpermitted(w, g, a, def, values);
    var items := Translate(ds, g.setup, Enforced);
    EnforcedItems(ds, g.setup);
    RefusedItemsSettle(m, g, a, names, items);
    RefusedEnvelope(names, items, SettleItems(m, g, a, Enforced, names, items).1);
  }

  lemma RefusedEnvelope(names: seq<string>, items: seq<Advised>, verdicts: seq<ItemVerdict>)
    requires |names| == |items| == |verdicts| && items != []
    requires forall i | 0 <= i < |items| :: Refused(items[i].decided.decision) && Refused(verdicts[i].decision)
    ensures Template(items).None? && Refused(Worst(DecisionsOf(Reconcile(verdicts, None, Enforced))))
  {
    assert DecisionsOf(Reconcile(verdicts, None, Enforced))[0] == verdicts[0].decision;
  }

  /** A call for nothing permitted, as one unit or item by item, is refused and leaves the stores alone. */
  lemma CallUnpermitted(w: World, g: Gateway, a: Attempt)
    requires match ItemsDeclaration(g.deps, a.call)
             case None => !Permits(g.deps, a.call)
             case Some(def) => var values := ItemValues(a.call, def);
               forall i | 0 <= i < |values| :: !Permits(g.deps, ItemCall(a.call, def, [values[i]]))
    ensures var (w', r) := Enforce(w, g, a, Enforced); Untouched(w, w') && Refused(r.decision)
  {
    match ItemsDeclaration(g.deps, a.call)
    case None => WholeUnpermitted(w, g, a);
    case Some(def) =>
      if !OverCeiling(def, ItemValues(a.call, def)) {
        FanOutUnpermitted(w, g, a, def, ItemValues(a.call, def));
      }
  }

  // ---- batches ---------------------------------------------------------------------------

  lemma {:induction false} OperationsPermitted(w: World, g: Gateway, p: Party, ops: seq<Operation>)
    ensures var (w', ds) := DecideAll(w, g, p, ops);
      && Untouched(w, w')
      && forall i | 0 <= i < |ops| ::
           && (!Permits(g.deps, ops[i].call) ==> Refused(ds[i].decision))
           && (!Refused(ds[i].decision) ==> ds[i].resolved == g.deps.resolve(ops[i].call) && Permits(g.deps, ops[i].call))
    decreases |ops|
  {
    if ops != [] {
      UnpermittedIsRefused(w, g, ops[0].call, p, ops[0].env);
      OperationsPermitted(DecideIn(w, g, ops[0].call, p, ops[0].env).0, g, p, ops[1..]);
    }
  }

  /** One operation that is not permitted refuses its whole batch, before anything is reserved. */
  lemma BatchUnpermitted(w: World, g: Gateway, p: Party, ops: seq<Operation>, k: nat)
    requires k < |ops| && !Permits(g.deps, ops[k].call)
    ensures var (w', b) := EnforceBatch(w, g, p, ops, Enforced); Untouched(w, w') && Refused(b.decision)
  {
    var (after, ds) := DecideAll(w, g, p, ops);
    OperationsPermitted(w, g, p, ops);
    assert Refused(ds[k].decision);
    RefuseStops(after, g, p, ops, ds, None, RefusalClosings(ds));
  }

  // ---- whole runs --------------------------------------------------------------------------

  predicate SameName(a: ResolvedAction, b: ResolvedAction) {
    a.kind == b.kind && a.resource == b.resource && a.action == b.action
  }

  /** The policy goes by kind, resource and action alone, as a compiled one does. */
  ghost predicate ByName(d: Deps) {
    forall a, b | SameName(a, b) :: Authorized(d, a) == Authorized(d, b)
  }

  ghost predicate Compiled(d: Deps, p: Compiler.Policy) {
    d.policy.Some? && forall a: ResolvedAction ::
      var answer := Compiler.Authorize(p, a.kind, a.resource, a.action);
      d.policy.value.authorize(a) == Authorization(answer.allowed, answer.rule)
  }

  /** A compiled policy does: default deny, deny wins, and no look at the payload. */
  lemma CompiledGoesByName(d: Deps, p: Compiler.Policy)
    requires Compiled(d, p)
    ensures ByName(d)
    ensures forall a :: Authorized(d, a) <==>
      && (exists g :: g in Compiler.Flat(p.allow) && Compiler.MatchOf(g, a.kind, a.resource, a.action).Some?)
      && !(exists g :: g in Compiler.Flat(p.deny) && Compiler.MatchOf(g, a.kind, a.resource, a.action).Some?)
  {
    forall a
      ensures Authorized(d, a) <==>
        && (exists g :: g in Compiler.Flat(p.allow) && Compiler.MatchOf(g, a.kind, a.resource, a.action).Some?)
        && !(exists g :: g in Compiler.Flat(p.deny) && Compiler.MatchOf(g, a.kind, a.resource, a.action).Some?)
    {
      Compiler.ScanIsTheMaximum(Compiler.Flat(p.allow), a.kind, a.resource, a.action);
      Compiler.ScanIsTheMaximum(Compiler.Flat(p.deny), a.kind, a.resource, a.action);
    }
  }

  /** Every row ever staged and every execution is of an action the policy authorizes. */
  ghost predicate AllAuthorized(w: World, d: Deps) {
    && (forall i | 0 <= i < |w.rows| :: Authorized(d, w.rows[i].resolved))
    && (forall i | 0 <= i < |w.executed| :: Authorized(d, w.executed[i].resolved))
  }

  lemma QuietKeeps(w: World, w': World, d: Deps)
    requires AllAuthorized(w, d) && w'.rows == w.rows && w'.executed == w.executed
    ensures AllAuthorized(w', d)
  {
  }

  lemma OwnWorkKeeps(w: World, w': World, j: Job, v: Decided, d: Deps)
    requires AllAuthorized(w, d) && Committable(v) && OwnWork(w, w', j, v)
    requires !Refused(v.decision) ==> Authorized(d, v.resolved.value)
    ensures AllAuthorized(w', d)
  {
    forall i | 0 <= i < |w'.rows| ensures Authorized(d, w'.rows[i].resolved) {
      if i < |w.rows| {
        assert w'.rows[i] == w.rows[i].(attempts := w'.rows[i].attempts);
      }
    }
  }

  lemma CommitKeeps(w: World, j: Job, v: Decided, d: Deps)
    requires AllAuthorized(w, d) && Committable(v) && (!Refused(v.decision) ==> Authorized(d, v.resolved.value))
    ensures AllAuthorized(Commit(w, j, v).0, d)
  {
    CommitWork(w, j, v);
    OwnWorkKeeps(w, Commit(w, j, v).0, j, v, d);
  }

  ghost predicate ItemsAuthorized(items: seq<Advised>, d: Deps) {
    ItemsCommittable(items)
    && forall i | 0 <= i < |items| && !Refused(items[i].decided.decision) :: Authorized(d, items[i].decided.resolved.value)
  }

  lemma {:induction false} DecidedItemsAuthorized(w: World, g: Gateway, a: Attempt, def: ItemsDef, values: seq<Value>)
    ensures var (w', ds) := DecideItems(w, g, a, def, values);
      && Untouched(w, w')
      && forall i | 0 <= i < |ds| && !Refused(ds[i].decision) :: Authorized(g.deps, ds[i].resolved.value)
    decreases |values|
  {
    if values != [] {
      var call := ItemCall(a.call, def, [values[0]]);
      UnpermittedIsRefused(w, g, call, a.party, a.env);
      DecidedItemsAuthorized(DecideIn(w, g, call, a.party, a.env).0, g, a, def, values[1..]);
    }
  }

  lemma {:induction false} SettleKeeps(w: World, g: Gateway, a: Attempt, names: seq<string>, items: seq<Advised>)
    requires |names| == |items| && AllAuthorized(w, g.deps) && ItemsAuthorized(items, g.deps)
    ensures AllAuthorized(SettleItems(w, g, a, Enforced, names, items).0, g.deps)
    decreases |items|
  {
    if items != [] {
      CommitKeeps(w, JobOf(g, a.party, a.env, Enforced, StampFor(Enforced, items[0])), items[0].decided, g.deps);
      SettleKeeps(SettleItem(w, g, a, Enforced, items[0]).0, g, a, names[1..], items[1..]);
    }
  }

  lemma MergedKeeps(w: World, g: Gateway, a: Attempt, def: ItemsDef, names: seq<string>, values: seq<Value>, items: seq<Advised>)
    requires |names| == |values| == |items| && AllAuthorized(w, g.deps) && ItemsAuthorized(items, g.deps) && ByName(g.deps)
    ensures AllAuthorized(CommitMerged(w, g, a, def, Enforced, names, values, items).0, g.deps)
  {
    if Template(items).Some? {
      var template := Template(items).value.decided;
      var merged := MergedDecided(template, a.call, def, AllowedValues(values, items));
      assert SameName(template.resolved.value, merged.resolved.value);
      CommitKeeps(w, JobOf(g, a.party, a.env, Enforced, CallStamp(Enforced, names, items)), merged, g.deps);
    }
  }

  lemma FanOutKeeps(w: World, g: Gateway, a: Attempt, def: ItemsDef, values: seq<Value>)
    requires values != [] && AllAuthorized(w, g.deps) && ByName(g.deps)
    ensures AllAuthorized(FanOut(w, g, a, def, values, Enforced).0, g.deps)
  {
    var names := ItemNames(values, def, g.setup.text);
    var (m, ds) := DecideItems(w, g, a, def, values);
    DecidedItemsAuthorized(w, g, a, def, values);
    var items := Translate(ds, g.setup, Enforced);
    EnforcedItems(ds, g.setup);
    QuietKeeps(w, m, g.deps);
    SettleKeeps(m, g, a, names, items);
    MergedKeeps(SettleItems(m, g, a, Enforced, names, items).0, g, a, def, names, values, items);
  }

  lemma CallKeeps(w: World, g: Gateway, a: Attempt)
    requires AllAuthorized(w, g.deps) && ByName(g.deps)
    ensures AllAuthorized(Enforce(w, g, a, Enforced).0, g.deps)
  {
    match ItemsDeclaration(g.deps, a.call)
    case None =>
      var (after, d) := DecideIn(w, g, a.call, a.party, a.env);
      UnpermittedIsRefused(w, g, a.call, a.party, a.env);
      QuietKeeps(w, after, g.deps);
      CommitKeeps(after, JobOf(g, a.party, a.env, Enforced, None), d, g.deps);
    case Some(def) =>
      if !OverCeiling(def, ItemValues(a.call, def)) {
        FanOutKeeps(w, g, a, def, ItemValues(a.call, def));
      }
  }

  lemma {:induction false} CommitsKeep(w: World, g: Gateway, p: Party, ops: seq<Operation>, ds: seq<Decided>,
                                       stamps: seq<Option<Stamp>>)
    requires |ops| == |ds| == |stamps| && AllCommittable(ds) && AllAuthorized(w, g.deps)
    requires forall i | 0 <= i < |ds| && !Refused(ds[i].decision) :: Authorized(g.deps, ds[i].resolved.value)
    ensures AllAuthorized(CommitAll(w, g, p, Enforced, ops, ds, stamps).0, g.deps)
    decreases |ds|
  {
    if ds != [] {
      var j := JobOf(g, p, ops[0].env, Enforced, stamps[0]);
      CommitKeeps(w, j, ds[0], g.deps);
      CommitsKeep(Commit(w, j, ds[0]).0, g, p, ops[1..], ds[1..], stamps[1..]);
    }
  }

  lemma {:induction false} PassIsQuiet(w: World, g: Gateway, ds: seq<Decided>)
    ensures var w' := ReserveAll(w, g, ds).world; w'.rows == w.rows && w'.executed == w.executed
    decreases |ds|
  {
    if ds != [] {
      match ClaimPlan(ds[0].gates)
      case None => PassIsQuiet(w, g, ds[1..]);
      case Some(plan) => PassIsQuiet(ReserveClaim(w, g.setup, g.outside, plan).0, g, ds[1..]);
    }
  }

  lemma {:induction false} ReturnIsQuiet(w: World, g: Gateway, ds: seq<Decided>)
    ensures var w' := ReleaseAll(w, g, ds); w'.rows == w.rows && w'.executed == w.executed
    decreases |ds|
  {
    if ds != [] {
      ReturnIsQuiet(ReleaseClaim(w, g.setup, g.outside, ds[0].claim), g, ds[1..]);
    }
  }

  lemma CommittedBatchKeeps(w: World, g: Gateway, p: Party, ops: seq<Operation>, ds: seq<Decided>)
    requires |ops| == |ds| && AllCommittable(ds) && AllAuthorized(w, g.deps)
    requires forall i | 0 <= i < |ds| && !Refused(ds[i].decision) :: Authorized(g.deps, ds[i].resolved.value)
    ensures AllAuthorized(CommitBatch(w, g, p, ops, ds).0, g.deps)
  {
    var pass := ReserveAll(w, g, ds);
    PassIsQuiet(w, g, ds);
    QuietKeeps(w, pass.world, g.deps);
    ReserveAllKeepsVerdicts(w, g, ds);
    if pass.refusal.Some? {
      var released := ReleaseAll(pass.world, g, pass.ds);
      var held := pass.ds + ds[|pass.ds|..];
      ReturnIsQuiet(pass.world, g, pass.ds);
      RefuseStops(released, g, p, ops, held, None, ReservationClosings(held, |pass.ds|, pass.refusal.value));
      QuietKeeps(w, CommitBatch(w, g, p, ops, ds).0, g.deps);
    } else {
      CommitsKeep(pass.world, g, p, ops, pass.ds, NoStamps(|ds|));
    }
  }

  lemma BatchKeeps(w: World, g: Gateway, p: Party, ops: seq<Operation>)
    requires ops != [] && AllAuthorized(w, g.deps)
    ensures AllAuthorized(EnforceBatch(w, g, p, ops, Enforced).0, g.deps)
  {
    var (after, ds) := DecideAll(w, g, p, ops);
    OperationsPermitted(w, g, p, ops);
    QuietKeeps(w, after, g.deps);
    if FirstRefusal(ds) < |ds| {
      RefuseStops(after, g, p, ops, ds, None, RefusalClosings(ds));
      QuietKeeps(after, EnforceBatch(w, g, p, ops, Enforced).0, g.deps);
    } else {
      CommittedBatchKeeps(after, g, p, ops, ds);
    }
  }

  lemma LaterKeeps(w: World, g: Gateway, step: Life)
    requires AllAuthorized(w, g.deps)
    ensures AllAuthorized(Later(w, g, step), g.deps)
  {
    var w' := Later(w, g, step);
    HoldDedupe.LaterRows(w, g, step);
    forall i | 0 <= i < |w'.rows| ensures Authorized(g.deps, w'.rows[i].resolved) {
      assert w'.rows[i] == w.rows[i].(state := w'.rows[i].state);
    }
  }

  ghost predicate Enforcing(steps: seq<Step>) {
    forall i | 0 <= i < |steps| :: steps[i].OfRow? || steps[i].mode == Enforced
  }

  /** Over any enforced traffic and whatever becomes of the rows, only authorized actions are ever staged or executed. */
  lemma {:induction false} AuthorizedOverRuns(w: World, g: Gateway, steps: seq<Step>)
    requires AllAuthorized(w, g.deps) && ByName(g.deps) && Enforcing(steps)
    ensures AllAuthorized(Run(w, g, steps), g.deps)
    decreases |steps|
  {
    if steps != [] {
      match steps[0] {
        case Call(a, mode) => CallKeeps(w, g, a);
        case Batch(p, ops, mode) => if ops != [] { BatchKeeps(w, g, p, ops); }
        case OfRow(life) => LaterKeeps(w, g, life);
      }
      assert Enforcing(steps[1..]);
      AuthorizedOverRuns(Apply(w, g, steps[0]), g, steps[1..]);
    }
  }
}
