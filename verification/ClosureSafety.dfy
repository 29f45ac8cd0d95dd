/** Whole-run closure safety: nothing is closed as done while the record holds a refusal for the same actor and run. */
module ClosureSafety {
  import opened Vocabulary
  import opened Stores
  import opened Pipeline
  import opened Enforcement
  import opened AuditTotality
  import opened FanOutPartition
  import opened AdvisoryMode
  import opened ReservationRuns
  import opened ReservationLife
  import opened BatchAtomicity
  import opened Closure

  // ---- the record only grows -----------------------------------------------------

  lemma CommitGrows(w: World, j: Job, d: Decided)
    requires Committable(d) && NeverStagedBefore(d)
    ensures w.audit <= Commit(w, j, d).0.audit
  {
    CommitAudits(w, j, d);
  }

  lemma FanOutGrows(w: World, g: Gateway, a: Attempt, def: ItemsDef, values: seq<Value>, mode: Mode)
    requires values != []
    ensures w.audit <= FanOut(w, g, a, def, values, mode).0.audit
  {
    var names := ItemNames(values, def, g.setup.text);
    var (decidedIn, ds) := DecideItems(w, g, a, def, values);
    DecideItemsOutcomes(w, g, a, def, values);
    var items := Translate(ds, g.setup, mode);
    forall i | 0 <= i < |items| ensures NeverStagedBefore(items[i].decided) {
      assert items[i] == TranslateOne(ds[i], g.setup, mode);
    }
    SettleAll(decidedIn, g, a, mode, names, items);
    MergedWork(SettleItems(decidedIn, g, a, mode, names, items).0, g, a, def, mode, names, values, items);
  }

  lemma EnforceGrows(w: World, g: Gateway, a: Attempt, mode: Mode)
    ensures w.audit <= Enforce(w, g, a, mode).0.audit
  {
    match ItemsDeclaration(g.deps, a.call)
    case None => EnforceAudits(w, g, a, mode);
    case Some(def) =>
      if OverCeiling(def, ItemValues(a.call, def)) {
        EnforceAudits(w, g, a, mode);
      } else {
        FanOutGrows(w, g, a, def, ItemValues(a.call, def), mode);
      }
  }

  ghost predicate NeverStaged(ds: seq<Decided>) {
    forall i | 0 <= i < |ds| :: NeverStagedBefore(ds[i])
  }

  lemma {:induction false} CommitAllGrows(w: World, g: Gateway, p: Party, mode: Mode, ops: seq<Operation>,
                                          ds: seq<Decided>, stamps: seq<Option<Stamp>>)
    requires |ops| == |ds| == |stamps| && AllCommittable(ds) && NeverStaged(ds)
    ensures w.audit <= CommitAll(w, g, p, mode, ops, ds, stamps).0.audit
    decreases |ds|
  {
    if ds != [] {
      var j := JobOf(g, p, ops[0].env, mode, stamps[0]);
      assert NeverStagedBefore(ds[0]);
      CommitGrows(w, j, ds[0]);
      CommitAllGrows(Commit(w, j, ds[0]).0, g, p, mode, ops[1..], ds[1..], stamps[1..]);
    }
  }

  lemma {:induction false} RefuseAllGrows(w: World, g: Gateway, p: Party, ops: seq<Operation>, ds: seq<Decided>,
                                          stamp: Option<Stamp>, closings: seq<Closing>)
    requires |ops| == |ds| == |closings|
    ensures w.audit <= RefuseAll(w, g, p, ops, ds, stamp, closings).0.audit
    decreases |ds|
  {
    if ds != [] {
      var j := JobOf(g, p, ops[0].env, Enforced, stamp);
      RefuseAllGrows(Finish(w, j, ds[0], closings[0]).0, g, p, ops[1..], ds[1..], stamp, closings[1..]);
    }
  }

  lemma {:induction false} DecideAllOutcomes(w: World, g: Gateway, p: Party, ops: seq<Operation>)
    ensures NeverStaged(DecideAll(w, g, p, ops).1)
    decreases |ops|
  {
    if ops != [] {
      DecideOutcome(g.deps, ops[0].call, p, ops[0].env, w.calls, w.audit);
      DecideAllOutcomes(DecideIn(w, g, ops[0].call, p, ops[0].env).0, g, p, ops[1..]);
    }
  }

  lemma AdviseGrows(w: World, g: Gateway, p: Party, ops: seq<Operation>, ds: seq<Decided>)
    requires |ops| == |ds| && AllCommittable(ds) && NeverStaged(ds)
    ensures w.audit <= AdviseBatch(w, g, p, ops, ds).0.audit
  {
    if FirstKill(ds) < |ds| {
      RefuseAllGrows(w, g, p, ops, ds, Some(Stamp(None, Judged, None, None)), RefusalClosings(ds));
    } else {
      var failing := FirstRefusal(ds);
      var note := if failing < |ds| then Some(BatchAdvice(failing, ds[failing].decision)) else None;
      var items := Translate(ds, g.setup, Advisory);
      var translated := seq(|ds|, i requires 0 <= i < |ds| => items[i].decided);
      var stamps := seq(|ds|, i requires 0 <= i < |ds| =>
        Some(Stamp(items[i].advice, items[i].coverage, note, None)));
      forall i | 0 <= i < |ds| ensures NeverStagedBefore(translated[i]) {
        assert items[i] == TranslateOne(ds[i], g.setup, Advisory);
      }
      CommitAllGrows(w, g, p, Advisory, ops, translated, stamps);
    }
  }

  lemma CommitBatchGrows(w: World, g: Gateway, p: Party, ops: seq<Operation>, ds: seq<Decided>)
    requires |ops| == |ds| && AllCommittable(ds) && NeverStaged(ds)
    ensures w.audit <= CommitBatch(w, g, p, ops, ds).0.audit
  {
    var pass := ReserveAll(w, g, ds);
    PrePassQuiet(w, g, ds);
    if pass.refusal.Some? {
      ReleaseAllQuiet(pass.world, g, pass.ds);
      var held := pass.ds + ds[|pass.ds|..];
      RefuseAllGrows(ReleaseAll(pass.world, g, pass.ds), g, p, ops, held, None,
                     ReservationClosings(held, |pass.ds|, pass.refusal.value));
    } else {
      ReserveAllKeepsVerdicts(w, g, ds);
      forall i | 0 <= i < |ds| ensures NeverStagedBefore(pass.ds[i]) {
        assert pass.ds[i] == ds[i].(claim := pass.ds[i].claim) && NeverStagedBefore(ds[i]);
      }
      CommitAllGrows(pass.world, g, p, Enforced, ops, pass.ds, NoStamps(|ds|));
    }
  }

  lemma {:induction false} PrePassQuiet(w: World, g: Gateway, ds: seq<Decided>)
    ensures ReserveAll(w, g, ds).world.audit == w.audit
    decreases |ds|
  {
    if ds != [] {
      match ClaimPlan(ds[0].gates)
      case None => PrePassQuiet(w, g, ds[1..]);
      case Some(plan) => PrePassQuiet(ReserveClaim(w, g.setup, g.outside, plan).0, g, ds[1..]);
    }
  }

  lemma {:induction false} ReleaseAllQuiet(w: World, g: Gateway, ds: seq<Decided>)
    ensures ReleaseAll(w, g, ds).audit == w.audit
    decreases |ds|
  {
    if ds != [] {
      ReleaseAllQuiet(ReleaseClaim(w, g.setup, g.outside, ds[0].claim), g, ds[1..]);
    }
  }

  lemma BatchGrows(w: World, g: Gateway, p: Party, ops: seq<Operation>, mode: Mode)
    requires ops != []
    ensures w.audit <= EnforceBatch(w, g, p, ops, mode).0.audit
  {
    var (after, ds) := DecideAll(w, g, p, ops);
    DecideAllIs(w, g, p, ops);
    DecideAllOutcomes(w, g, p, ops);
    if mode == Advisory {
      AdviseGrows(after, g, p, ops, ds);
    } else if FirstRefusal(ds) < |ds| {
      RefuseAllGrows(after, g, p, ops, ds, None, RefusalClosings(ds));
    } else {
      CommitBatchGrows(after, g, p, ops, ds);
    }
  }

  lemma StepGrows(w: World, g: Gateway, step: Step)
    ensures w.audit <= Apply(w, g, step).audit
  {
    match step
    case Call(a, mode) => EnforceGrows(w, g, a, mode);
    case Batch(p, ops, mode) => if ops != [] { BatchGrows(w, g, p, ops, mode); }
    case OfRow(life) =>
  }

  /** No step of any run removes or changes an earlier record. */
  lemma {:induction false} RunGrows(w: World, g: Gateway, steps: seq<Step>)
    ensures w.audit <= Run(w, g, steps).audit
    decreases |steps|
  {
    if steps != [] {
      StepGrows(w, g, steps[0]);
      RunGrows(Apply(w, g, steps[0]), g, steps[1..]);
    }
  }

  // ---- the gates, wired to the pipeline's own sink -------------------------------------

  function GatesOf(x: Wiring): (nat, ResolvedAction, Actor, Session, RequestEnv, seq<AuditRecord>) -> GateOutcome {
    (at: nat, resolved, actor, session, env, history) => GateVerdict(x, Request(at, resolved, actor, session, env, history))
  }

  ghost predicate ClosureWired(g: Gateway, x: Wiring) {
    g.deps.gates == Some(GatesOf(x))
  }

  /** The call resolves to an action whose closure check is unconditional, with a disposition that claims completion. */
  ghost predicate ClaimsCompletion(g: Gateway, x: Wiring, call: RawCall) {
    g.deps.resolve(call).Some? && ClaimsDone(x, g.deps.resolve(call).value)
  }

  /** A call is allowed only if the gates passed it. */
  lemma AllowNeedsPass(d: Deps, call: RawCall, p: Party, env: RequestEnv, at: nat, history: seq<AuditRecord>,
                       verdict: GateOutcome)
    requires d.resolve(call).Some? && d.gates.Some?
    requires verdict == d.gates.value(at + 2, d.resolve(call).value, p.actor, p.session, env, history)
    requires verdict.outcome != Outcome.Pass
    ensures Decide(d, call, p, env, at, history).decision != Decision.Allow
  {
  }

  lemma WiredVerdict(g: Gateway, x: Wiring, q: Request)
    requires ClosureWired(g, x)
    ensures g.deps.gates.value(q.at, q.resolved, q.actor, q.session, q.env, q.history) == GateVerdict(x, q)
  {
  }

  /** No decision on such a call is ALLOW while the record holds a refusal for its actor and run. */
  lemma DecisionIsNeverAllow(g: Gateway, x: Wiring, call: RawCall, p: Party, env: RequestEnv, at: nat,
                             history: seq<AuditRecord>)
    requires ClosureWired(g, x) && ClaimsCompletion(g, x, call)
    requires RefusedBefore(history, p.actor.id, RunKey(p.session))
    ensures Decide(g.deps, call, p, env, at, history).decision != Decision.Allow
  {
    var q := Request(at + 2, g.deps.resolve(call).value, p.actor, p.session, env, history);
    FalseClosureNeverPasses(x, q);
    WiredVerdict(g, x, q);
    AllowNeedsPass(g.deps, call, p, env, at, history, GateVerdict(x, q));
  }

  // ---- every path a call may take -------------------------------------------------------

  /** Whole or item by item, every decision the call rests on is such a claim. */
  ghost predicate ClaimsThroughout(g: Gateway, x: Wiring, a: Attempt) {
    match ItemsDeclaration(g.deps, a.call)
    case None => ClaimsCompletion(g, x, a.call)
    case Some(def) => EachClaims(g, x, a.call, def, ItemValues(a.call, def))
  }

  ghost predicate EachClaims(g: Gateway, x: Wiring, call: RawCall, def: ItemsDef, values: seq<Value>) {
    forall i | 0 <= i < |values| :: ClaimsCompletion(g, x, ItemCall(call, def, [values[i]]))
  }

  lemma {:induction false} ItemsNeverAllowed(w: World, g: Gateway, x: Wiring, a: Attempt, def: ItemsDef, values: seq<Value>)
    requires ClosureWired(g, x) && EachClaims(g, x, a.call, def, values)
    requires RefusedBefore(w.audit, a.party.actor.id, RunKey(a.party.session))
    ensures forall i | 0 <= i < |values| :: DecideItems(w, g, a, def, values).1[i].decision != Decision.Allow
    decreases |values|
  {
    if values != [] {
      var call := ItemCall(a.call, def, [values[0]]);
      DecisionIsNeverAllow(g, x, call, a.party, a.env, w.calls, w.audit);
      ItemsNeverAllowed(DecideIn(w, g, call, a.party, a.env).0, g, x, a, def, values[1..]);
    }
  }

  lemma WholeNeverAllows(w: World, g: Gateway, x: Wiring, a: Attempt)
    requires ClosureWired(g, x) && ClaimsCompletion(g, x, a.call)
    requires RefusedBefore(w.audit, a.party.actor.id, RunKey(a.party.session))
    ensures EnforceWhole(w, g, a, Enforced).1.decision != Decision.Allow
  {
    DecisionIsNeverAllow(g, x, a.call, a.party, a.env, w.calls, w.audit);
    var (after, d) := DecideIn(w, g, a.call, a.party, a.env);
    CommitAnswers(after, JobOf(g, a.party, a.env, Enforced, None), d);
  }

  lemma FanOutNeverAllows(w: World, g: Gateway, x: Wiring, a: Attempt, def: ItemsDef, values: seq<Value>)
    requires values != [] && ClosureWired(g, x) && EachClaims(g, x, a.call, def, values)
    requires RefusedBefore(w.audit, a.party.actor.id, RunKey(a.party.session))
    ensures FanOut(w, g, a, def, values, Enforced).1.decision != Decision.Allow
  {
    ItemsNeverAllowed(w, g, x, a, def, values);
    FanOutIsPartition(w, g, a, def, values);
    var ds := DecideItems(w, g, a, def, values).1;
    var items := Translate(ds, g.setup, Enforced);
    EnforcedItems(ds, g.setup);
    AllowedNamesCount(ItemNames(values, def, g.setup.text), items);
  }

  lemma CallNeverAllows(w: World, g: Gateway, x: Wiring, a: Attempt)
    requires ClosureWired(g, x) && ClaimsThroughout(g, x, a)
    requires RefusedBefore(w.audit, a.party.actor.id, RunKey(a.party.session))
    ensures Enforce(w, g, a, Enforced).1.decision != Decision.Allow
  {
    match ItemsDeclaration(g.deps, a.call)
    case None => WholeNeverAllows(w, g, x, a);
    case Some(def) =>
      if !OverCeiling(def, ItemValues(a.call, def)) {
        FanOutNeverAllows(w, g, x, a, def, ItemValues(a.call, def));
      }
  }

  lemma {:induction false} OperationNeverAllowed(w: World, g: Gateway, x: Wiring, p: Party, ops: seq<Operation>, k: nat)
    requires ClosureWired(g, x) && k < |ops| && ClaimsCompletion(g, x, ops[k].call)
    requires RefusedBefore(w.audit, p.actor.id, RunKey(p.session))
    ensures DecideAll(w, g, p, ops).1[k].decision != Decision.Allow
    decreases |ops|
  {
    if k == 0 {
      DecisionIsNeverAllow(g, x, ops[0].call, p, ops[0].env, w.calls, w.audit);
    } else {
      OperationNeverAllowed(DecideIn(w, g, ops[0].call, p, ops[0].env).0, g, x, p, ops[1..], k - 1);
    }
  }

  lemma {:induction false} RefusedResult(w: World, g: Gateway, p: Party, ops: seq<Operation>, ds: seq<Decided>,
                                         stamp: Option<Stamp>, closings: seq<Closing>, k: nat)
    requires |ops| == |ds| == |closings| && k < |ds|
    ensures RefuseAll(w, g, p, ops, ds, stamp, closings).1[k].decision == closings[k].decision
    decreases |ds|
  {
    if k > 0 {
      RefusedResult(Finish(w, JobOf(g, p, ops[0].env, Enforced, stamp), ds[0], closings[0]).0, g, p, ops[1..], ds[1..],
                    stamp, closings[1..], k - 1);
    }
  }

  lemma {:induction false} CommittedResult(w: World, g: Gateway, p: Party, mode: Mode, ops: seq<Operation>,
                                           ds: seq<Decided>, stamps: seq<Option<Stamp>>, k: nat)
    requires |ops| == |ds| == |stamps| && k < |ds| && AllCommittable(ds) && ds[k].decision != Decision.Allow
    ensures CommitAll(w, g, p, mode, ops, ds, stamps).1[k].decision != Decision.Allow
    decreases |ds|
  {
    var (after, first) := Commit(w, JobOf(g, p, ops[0].env, mode, stamps[0]), ds[0]);
    var rest := CommitAll(after, g, p, mode, ops[1..], ds[1..], stamps[1..]);
    assert CommitAll(w, g, p, mode, ops, ds, stamps).1 == [WithFeedback(first, ds[0])] + rest.1;
    if k == 0 {
      CommitAnswers(w, JobOf(g, p, ops[0].env, mode, stamps[0]), ds[0]);
    } else {
      CommittedResult(after, g, p, mode, ops[1..], ds[1..], stamps[1..], k - 1);
    }
  }

  lemma RefusedPassNeverAllows(g: Gateway, p: Party, ops: seq<Operation>, ds: seq<Decided>, pass: PrePass, k: nat)
    requires |ops| == |ds| && k < |ds| && ds[k].decision != Decision.Allow && pass.refusal.Some? && |pass.ds| < |ds|
    requires forall i | 0 <= i < |pass.ds| :: pass.ds[i] == ds[i].(claim := pass.ds[i].claim)
    ensures var held := pass.ds + ds[|pass.ds|..];
      RefuseAll(ReleaseAll(pass.world, g, pass.ds), g, p, ops, held, None,
                ReservationClosings(held, |pass.ds|, pass.refusal.value)).1[k].decision != Decision.Allow
  {
    var held := pass.ds + ds[|pass.ds|..];
    RefusedResult(ReleaseAll(pass.world, g, pass.ds), g, p, ops, held, None,
                  ReservationClosings(held, |pass.ds|, pass.refusal.value), k);
    assert k < |pass.ds| ==> held[k] == pass.ds[k];
  }

  lemma CommitBatchNeverAllows(w: World, g: Gateway, p: Party, ops: seq<Operation>, ds: seq<Decided>, k: nat)
    requires |ops| == |ds| && AllCommittable(ds) && k < |ds| && ds[k].decision != Decision.Allow
    ensures var b := CommitBatch(w, g, p, ops, ds).1; k < |b.results| && b.results[k].decision != Decision.Allow
  {
    var pass := ReserveAll(w, g, ds);
    ReserveAllKeepsVerdicts(w, g, ds);
    if pass.refusal.Some? {
      RefusedPassNeverAllows(g, p, ops, ds, pass, k);
    } else {
      assert pass.ds[k] == ds[k].(claim := pass.ds[k].claim);
      CommittedResult(pass.world, g, p, Enforced, ops, pass.ds, NoStamps(|ds|), k);
    }
  }

  lemma BatchNeverAllows(w: World, g: Gateway, x: Wiring, p: Party, ops: seq<Operation>, k: nat)
    requires ClosureWired(g, x) && k < |ops| && ClaimsCompletion(g, x, ops[k].call)
    requires RefusedBefore(w.audit, p.actor.id, RunKey(p.session))
    ensures var b := EnforceBatch(w, g, p, ops, Enforced).1;
      k < |b.results| && b.results[k].decision != Decision.Allow
  {
    var (after, ds) := DecideAll(w, g, p, ops);
    OperationNeverAllowed(w, g, x, p, ops, k);
    if FirstRefusal(ds) < |ds| {
      RefusedResult(after, g, p, ops, ds, None, RefusalClosings(ds), k);
    } else {
      CommitBatchNeverAllows(after, g, p, ops, ds, k);
    }
  }

  /**
   * Once a refusal is on the record, after any further run of calls, batches and row steps in either mode, an
   * enforced completion claim by the same actor in the same run is not allowed: not as a call, not item by item,
   * and not as an operation of a batch.
   */
  lemma ClosureSafetyOverRuns(w: World, g: Gateway, x: Wiring, steps: seq<Step>, a: Attempt, ops: seq<Operation>, k: nat)
    requires ClosureWired(g, x) && RefusedBefore(w.audit, a.party.actor.id, RunKey(a.party.session))
    ensures var later := Run(w, g, steps);
      && (ClaimsThroughout(g, x, a) ==> Enforce(later, g, a, Enforced).1.decision != Decision.Allow)
      && (k < |ops| && ClaimsCompletion(g, x, ops[k].call) ==>
            var b := EnforceBatch(later, g, a.party, ops, Enforced).1;
            k < |b.results| && b.results[k].decision != Decision.Allow)
  {
    var later := Run(w, g, steps);
    RunGrows(w, g, steps);
    var i :| 0 <= i < |w.audit| && IsRefusal(w.audit[i], a.party.actor.id, RunKey(a.party.session));
    assert later.audit[i] == w.audit[i];
    if ClaimsThroughout(g, x, a) {
      CallNeverAllows(later, g, x, a);
    }
    if k < |ops| && ClaimsCompletion(g, x, ops[k].call) {
      BatchNeverAllows(later, g, x, a.party, ops, k);
    }
  }

  // ---- every enforced answer but ALLOW is such a record --------------------------------------------

  lemma RememberedLater(before: seq<AuditRecord>, after: seq<AuditRecord>, actor: string, run: string)
    requires RefusedBefore(before, actor, run) && before <= after
    ensures RefusedBefore(after, actor, run)
  {
    var i :| 0 <= i < |before| && IsRefusal(before[i], actor, run);
    assert IsRefusal(after[i], actor, run);
  }

  /** The record of a commit that does not answer ALLOW. */
  lemma CommitRemembers(w: World, j: Job, d: Decided)
    requires Committable(d) && NeverStagedBefore(d) && Commit(w, j, d).1.decision != Decision.Allow
    ensures RefusedBefore(Commit(w, j, d).0.audit, j.party.actor.id, RunKey(j.party.session))
    ensures w.audit <= Commit(w, j, d).0.audit
  {
    CommitAudits(w, j, d);
    assert IsRefusal(Commit(w, j, d).0.audit[|w.audit|], j.party.actor.id, RunKey(j.party.session));
  }

  lemma FinishRemembers(w: World, j: Job, d: Decided, c: Closing)
    requires c.decision != Decision.Allow
    ensures RefusedBefore(Finish(w, j, d, c).0.audit, j.party.actor.id, RunKey(j.party.session))
  {
    FinishAudits(w, w, j, d, c);
    assert IsRefusal(Finish(w, j, d, c).0.audit[|w.audit|], j.party.actor.id, RunKey(j.party.session));
  }

  lemma {:induction false} SettleRemembers(w: World, g: Gateway, a: Attempt, names: seq<string>, items: seq<Advised>, i: nat)
    requires |names| == |items| && ItemsCommittable(items) && i < |items| && !IsAllowed(items[i])
    requires forall k | 0 <= k < |items| :: NeverStagedBefore(items[k].decided)
    ensures RefusedBefore(SettleItems(w, g, a, Enforced, names, items).0.audit, a.party.actor.id, RunKey(a.party.session))
    decreases i
  {
    var after := SettleItem(w, g, a, Enforced, items[0]).0;
    if i > 0 {
      SettleRemembers(after, g, a, names[1..], items[1..], i - 1);
    } else {
      SettledRemembers(w, g, a, items[0]);
      SettleAll(after, g, a, Enforced, names[1..], items[1..]);
      RememberedLater(after.audit, SettleItems(after, g, a, Enforced, names[1..], items[1..]).0.audit,
                      a.party.actor.id, RunKey(a.party.session));
    }
  }

  lemma SettledRemembers(w: World, g: Gateway, a: Attempt, item: Advised)
    requires Committable(item.decided) && NeverStagedBefore(item.decided) && !IsAllowed(item)
    ensures RefusedBefore(SettleItem(w, g, a, Enforced, item).0.audit, a.party.actor.id, RunKey(a.party.session))
  {
    var d := item.decided;
    var j := JobOf(g, a.party, a.env, Enforced, StampFor(Enforced, item));
    if d.decision == Decision.Hold {
      HoldVerdict(w, j, d);
      CommitRemembers(w, j, d);
    } else {
      FinishRemembers(w, j, d, Close(d.decision, d.rule, d.outcome));
    }
  }

  lemma MergedRemembers(w: World, g: Gateway, a: Attempt, def: ItemsDef, names: seq<string>, values: seq<Value>,
                        items: seq<Advised>)
    requires |names| == |values| == |items| && ItemsCommittable(items)
    requires var merged := CommitMerged(w, g, a, def, Enforced, names, values, items).1;
      merged.Some? && merged.value.decision != Decision.Allow
    ensures RefusedBefore(CommitMerged(w, g, a, def, Enforced, names, values, items).0.audit,
                          a.party.actor.id, RunKey(a.party.session))
  {
    var template := Template(items).value;
    var merged := MergedDecided(template.decided, a.call, def, AllowedValues(values, items));
    CommitRemembers(w, JobOf(g, a.party, a.env, Enforced, CallStamp(Enforced, names, items)), merged);
  }

  lemma FanOutRemembers(w: World, g: Gateway, a: Attempt, def: ItemsDef, values: seq<Value>)
    requires values != [] && FanOut(w, g, a, def, values, Enforced).1.decision != Decision.Allow
    ensures RefusedBefore(FanOut(w, g, a, def, values, Enforced).0.audit, a.party.actor.id, RunKey(a.party.session))
  {
    var names := ItemNames(values, def, g.setup.text);
    var (decidedIn, ds) := DecideItems(w, g, a, def, values);
    DecideItemsOutcomes(w, g, a, def, values);
    var items := Translate(ds, g.setup, Enforced);
    FanOutIsPartition(w, g, a, def, values);
    AllowedNamesCount(names, items);
    var settledIn := SettleItems(decidedIn, g, a, Enforced, names, items).0;
    MergedWork(settledIn, g, a, def, Enforced, names, values, items);
    if i :| 0 <= i < |items| && !IsAllowed(items[i]) {
      SettleRemembers(decidedIn, g, a, names, items, i);
      RememberedLater(settledIn.audit, CommitMerged(settledIn, g, a, def, Enforced, names, values, items).0.audit,
                      a.party.actor.id, RunKey(a.party.session));
    } else {
      assert IsAllowed(items[0]);
      MergedRemembers(settledIn, g, a, def, names, values, items);
    }
  }

  lemma {:induction false} CommitAllRemembers(w: World, g: Gateway, p: Party, ops: seq<Operation>, ds: seq<Decided>,
                                              stamps: seq<Option<Stamp>>, k: nat)
    requires |ops| == |ds| == |stamps| && AllCommittable(ds) && NeverStaged(ds) && k < |ds|
    requires CommitAll(w, g, p, Enforced, ops, ds, stamps).1[k].decision != Decision.Allow
    ensures RefusedBefore(CommitAll(w, g, p, Enforced, ops, ds, stamps).0.audit, p.actor.id, RunKey(p.session))
    decreases k
  {
    var j := JobOf(g, p, ops[0].env, Enforced, stamps[0]);
    assert NeverStagedBefore(ds[0]);
    var after := Commit(w, j, ds[0]).0;
    if k > 0 {
      CommitAllRemembers(after, g, p, ops[1..], ds[1..], stamps[1..], k - 1);
    } else {
      CommitRemembers(w, j, ds[0]);
      CommitAllGrows(after, g, p, Enforced, ops[1..], ds[1..], stamps[1..]);
      RememberedLater(after.audit, CommitAll(after, g, p, Enforced, ops[1..], ds[1..], stamps[1..]).0.audit,
                      p.actor.id, RunKey(p.session));
    }
  }

  lemma {:induction false} RefuseAllRemembers(w: World, g: Gateway, p: Party, ops: seq<Operation>, ds: seq<Decided>,
                                              stamp: Option<Stamp>, closings: seq<Closing>, k: nat)
    requires |ops| == |ds| == |closings| && k < |ds|
    requires RefuseAll(w, g, p, ops, ds, stamp, closings).1[k].decision != Decision.Allow
    ensures RefusedBefore(RefuseAll(w, g, p, ops, ds, stamp, closings).0.audit, p.actor.id, RunKey(p.session))
    decreases k
  {
    var j := JobOf(g, p, ops[0].env, Enforced, stamp);
    var after := Finish(w, j, ds[0], closings[0]).0;
    if k > 0 {
      RefuseAllRemembers(after, g, p, ops[1..], ds[1..], stamp, closings[1..], k - 1);
    } else {
      FinishRemembers(w, j, ds[0], closings[0]);
      RefuseAllGrows(after, g, p, ops[1..], ds[1..], stamp, closings[1..]);
      RememberedLater(after.audit, RefuseAll(after, g, p, ops[1..], ds[1..], stamp, closings[1..]).0.audit,
                      p.actor.id, RunKey(p.session));
    }
  }

  lemma CommitBatchRemembers(w: World, g: Gateway, p: Party, ops: seq<Operation>, ds: seq<Decided>, k: nat)
    requires |ops| == |ds| && AllCommittable(ds) && NeverStaged(ds) && k < |CommitBatch(w, g, p, ops, ds).1.results|
    requires CommitBatch(w, g, p, ops, ds).1.results[k].decision != Decision.Allow
    ensures RefusedBefore(CommitBatch(w, g, p, ops, ds).0.audit, p.actor.id, RunKey(p.session))
  {
    var pass := ReserveAll(w, g, ds);
    if pass.refusal.Some? {
      var held := pass.ds + ds[|pass.ds|..];
      RefuseAllRemembers(ReleaseAll(pass.world, g, pass.ds), g, p, ops, held, None,
                         ReservationClosings(held, |pass.ds|, pass.refusal.value), k);
    } else {
      ReserveAllKeepsVerdicts(w, g, ds);
      forall i | 0 <= i < |ds| ensures NeverStagedBefore(pass.ds[i]) {
        assert pass.ds[i] == ds[i].(claim := pass.ds[i].claim) && NeverStagedBefore(ds[i]);
      }
      CommitAllRemembers(pass.world, g, p, ops, pass.ds, NoStamps(|ds|), k);
    }
  }

  /**
   * And every enforced answer other than ALLOW is on the record for every later claim: a call's, fanned out or not,
   * and an operation's of a batch.
   */
  lemma RefusalIsRemembered(w: World, g: Gateway, a: Attempt, ops: seq<Operation>, k: nat)
    ensures Enforce(w, g, a, Enforced).1.decision != Decision.Allow ==>
      RefusedBefore(Enforce(w, g, a, Enforced).0.audit, a.party.actor.id, RunKey(a.party.session))
    ensures ops != [] ==>
      var (w', b) := EnforceBatch(w, g, a.party, ops, Enforced);
      k < |b.results| && b.results[k].decision != Decision.Allow ==>
        RefusedBefore(w'.audit, a.party.actor.id, RunKey(a.party.session))
  {
    if Enforce(w, g, a, Enforced).1.decision != Decision.Allow {
      CallIsRemembered(w, g, a);
    }
    if ops != [] {
      BatchIsRemembered(w, g, a.party, ops, k);
    }
  }

  lemma CallIsRemembered(w: World, g: Gateway, a: Attempt)
    requires Enforce(w, g, a, Enforced).1.decision != Decision.Allow
    ensures RefusedBefore(Enforce(w, g, a, Enforced).0.audit, a.party.actor.id, RunKey(a.party.session))
  {
    match ItemsDeclaration(g.deps, a.call)
    case None =>
      var (after, d) := DecideIn(w, g, a.call, a.party, a.env);
      DecideOutcome(g.deps, a.call, a.party, a.env, w.calls, w.audit);
      CommitRemembers(after, JobOf(g, a.party, a.env, Enforced, None), d);
    case Some(def) =>
      var values := ItemValues(a.call, def);
      if OverCeiling(def, values) {
        FinishRemembers(w, JobOf(g, a.party, a.env, Enforced, None), Verdict(a.call, None, Decision.Deny, ItemsOverCeiling),
                        Close(Decision.Deny, ItemsOverCeiling, NotExecuted));
      } else {
        FanOutRemembers(w, g, a, def, values);
      }
  }

  lemma BatchIsRemembered(w: World, g: Gateway, p: Party, ops: seq<Operation>, k: nat)
    requires ops != []
    ensures var (w', b) := EnforceBatch(w, g, p, ops, Enforced);
      k < |b.results| && b.results[k].decision != Decision.Allow ==> RefusedBefore(w'.audit, p.actor.id, RunKey(p.session))
  {
    var (after, ds) := DecideAll(w, g, p, ops);
    DecideAllOutcomes(w, g, p, ops);
    var b := EnforceBatch(w, g, p, ops, Enforced).1;
    if k < |b.results| && b.results[k].decision != Decision.Allow {
      if FirstRefusal(ds) < |ds| {
        RefuseAllRemembers(after, g, p, ops, ds, None, RefusalClosings(ds), k);
      } else {
        CommitBatchRemembers(after, g, p, ops, ds, k);
      }
    }
  }
}
