/** On every entry path: where everything is allowed the two modes do the same thing; and what an advised path refuses. */
module ModesAgree {
  import opened Vocabulary
  import opened Stores
  import opened Pipeline
  import opened Enforcement
  import opened AuditTotality
  import opened FanOutPartition
  import opened AdvisoryMode
  import opened AdvisedPaths
  import HoldDedupe

  // ---- a fan-out with nothing to translate --------------------------------------------

  /** The policy allows and no scope narrows: there is nothing an advisory deployment would change. */
  predicate Plain(d: Decided) {
    d.decision == Decision.Allow && d.scope.None?
  }

  predicate AllPlain(ds: seq<Decided>) {
    forall i | 0 <= i < |ds| :: Plain(ds[i])
  }

  predicate Undivided(items: seq<Advised>) {
    forall i | 0 <= i < |items| :: IsAllowed(items[i]) && items[i].advice.None?
  }

  lemma PlainItems(ds: seq<Decided>, s: Setup)
    requires AllPlain(ds)
    ensures Translate(ds, s, Advisory) == Translate(ds, s, Enforced) && Undivided(Translate(ds, s, Enforced))
  {
    forall i | 0 <= i < |ds| ensures TranslateOne(ds[i], s, Advisory) == TranslateOne(ds[i], s, Enforced) {
      assert Plain(ds[i]);
    }
    assert Translate(ds, s, Advisory) == Translate(ds, s, Enforced);
  }

  lemma {:induction false} NothingSettles(w: World, g: Gateway, a: Attempt, mode: Mode, names: seq<string>, items: seq<Advised>)
    requires |names| == |items| && ItemsCommittable(items) && Undivided(items)
    ensures var (w', verdicts) := SettleItems(w, g, a, mode, names, items);
      && w' == w
      && forall i | 0 <= i < |items| :: verdicts[i] == VerdictOf(names[i], items[i].decided, None)
    decreases |items|
  {
    if items != [] {
      NothingSettles(w, g, a, mode, names[1..], items[1..]);
    }
  }

  lemma {:induction false} NothingDiverges(names: seq<string>, items: seq<Advised>)
    requires |names| == |items| && Undivided(items)
    ensures Divergent(names, items) == []
  {
    if items != [] {
      NothingDiverges(names[1..], items[1..]);
    }
  }

  ghost predicate SameMerged(a: (World, Option<EvalResult>), b: (World, Option<EvalResult>)) {
    SameButLabels(a.0, b.0) && a.1 == b.1
  }

  lemma MergedAlike(w: World, g: Gateway, a: Attempt, def: ItemsDef, names: seq<string>, values: seq<Value>, items: seq<Advised>)
    requires |names| == |values| == |items| && ItemsCommittable(items) && Undivided(items)
    ensures SameMerged(CommitMerged(w, g, a, def, Advisory, names, values, items),
                       CommitMerged(w, g, a, def, Enforced, names, values, items))
  {
    if Template(items).Some? {
      NothingDiverges(names, items);
      var merged := MergedDecided(Template(items).value.decided, a.call, def, AllowedValues(values, items));
      ModeIsALabel(w, w, JobOf(g, a.party, a.env, Advisory, CallStamp(Advisory, names, items)),
                   JobOf(g, a.party, a.env, Enforced, None), merged);
    }
  }

  /** The same answer, but for the rules named beside the items. */
  ghost predicate SameButItemRules(a: EvalResult, b: EvalResult) {
    && a == b.(items := a.items) && |a.items| == |b.items|
    && forall i | 0 <= i < |a.items| :: a.items[i] == b.items[i].(rule := a.items[i].rule)
  }

  predicate OneRule(ds: seq<Decided>) {
    forall i | 0 < i < |ds| :: ds[i].rule == ds[0].rule
  }

  ghost predicate SameVerdicts(ds: seq<Decided>, a: EvalResult, b: EvalResult) {
    SameButItemRules(a, b) && (OneRule(ds) ==> a == b)
  }

  /**
   * A fan-out whose every item is plain: the same stores, findings and answers in both modes. Only the rule beside an
   * applied item may differ: an advised one names the merged call's, an enforced one its own.
   */
  lemma AllowedFanOutAlike(w: World, g: Gateway, a: Attempt, def: ItemsDef, values: seq<Value>)
    requires values != [] && AllPlain(DecideItems(w, g, a, def, values).1)
    ensures
      var advised, enforced := FanOut(w, g, a, def, values, Advisory), FanOut(w, g, a, def, values, Enforced);
      var ds := DecideItems(w, g, a, def, values).1;
      SameButLabels(advised.0, enforced.0) && SameVerdicts(ds, advised.1, enforced.1)
  {
    var names := ItemNames(values, def, g.setup.text);
    var (m, ds) := DecideItems(w, g, a, def, values);
    var items := Translate(ds, g.setup, Enforced);
    BothFanOuts(w, g, a, def, values, names, m, ds, items);
  }

  function Unsettled(names: seq<string>, ds: seq<Decided>): (r: seq<ItemVerdict>)
    requires |names| == |ds|
    ensures |r| == |ds| && forall i | 0 <= i < |ds| :: r[i] == VerdictOf(names[i], ds[i], None)
  {
    seq(|ds|, i requires 0 <= i < |ds| => VerdictOf(names[i], ds[i], None))
  }

  function AppliedNames(names: seq<string>, items: seq<Advised>, merged: Option<EvalResult>): seq<string>
    requires |names| == |items|
  {
    if merged.Some? && merged.value.decision == Decision.Allow then AllowedNames(names, items) else []
  }

  lemma PlainFanOut(w: World, g: Gateway, a: Attempt, def: ItemsDef, values: seq<Value>, mode: Mode, names: seq<string>,
                    m: World, ds: seq<Decided>, items: seq<Advised>)
    requires values != [] && names == ItemNames(values, def, g.setup.text)
    requires (m, ds) == DecideItems(w, g, a, def, values) && AllPlain(ds) && items == Translate(ds, g.setup, Enforced)
    ensures
      var (done, merged) := CommitMerged(m, g, a, def, mode, names, values, items);
      FanOut(w, g, a, def, values, mode)
      == (done, Envelope(Reconcile(Unsettled(names, ds), merged, mode), AppliedNames(names, items, merged), merged,
                         ds[0].feedback))
  {
    PlainItems(ds, g.setup);
    NothingSettles(m, g, a, mode, names, items);
    assert SettleItems(m, g, a, mode, names, items).1 == Unsettled(names, ds);
  }

  /** The merged call is allowed under the rule of some item, or refused. */
  lemma MergedRule(w: World, g: Gateway, a: Attempt, def: ItemsDef, names: seq<string>, values: seq<Value>, items: seq<Advised>)
    requires |names| == |values| == |items| && ItemsCommittable(items) && Undivided(items) && items != []
    ensures var merged := CommitMerged(w, g, a, def, Advisory, names, values, items).1;
      && merged.Some?
      && (merged.value.decision == Decision.Allow ==>
            exists i :: 0 <= i < |items| && items[i].decided.rule == merged.value.rule)
  {
    assert IsAllowed(items[0]);
    var template := Template(items).value;
    var i :| 0 <= i < |items| && items[i] == template;
    var merged := MergedDecided(template.decided, a.call, def, AllowedValues(values, items));
    CommitAnswers(w, JobOf(g, a.party, a.env, Advisory, CallStamp(Advisory, names, items)), merged);
  }

  /** Both modes answer from the same unsettled items and the same merged call. */
  lemma BothFanOuts(w: World, g: Gateway, a: Attempt, def: ItemsDef, values: seq<Value>, names: seq<string>, m: World,
                    ds: seq<Decided>, items: seq<Advised>)
    requires values != [] && names == ItemNames(values, def, g.setup.text)
    requires (m, ds) == DecideItems(w, g, a, def, values) && AllPlain(ds) && items == Translate(ds, g.setup, Enforced)
    ensures SameButLabels(FanOut(w, g, a, def, values, Advisory).0, FanOut(w, g, a, def, values, Enforced).0)
    ensures SameVerdicts(ds, FanOut(w, g, a, def, values, Advisory).1, FanOut(w, g, a, def, values, Enforced).1)
  {
    PlainItems(ds, g.setup);
    PlainFanOut(w, g, a, def, values, Advisory, names, m, ds, items);
    PlainFanOut(w, g, a, def, values, Enforced, names, m, ds, items);
    MergedAlike(m, g, a, def, names, values, items);
    MergedRule(m, g, a, def, names, values, items);
    var merged := CommitMerged(m, g, a, def, Advisory, names, values, items).1;
    EnvelopesAlike(ds, Unsettled(names, ds), AppliedNames(names, items, merged), merged, ds[0].feedback);
  }

  lemma EnvelopesAlike(ds: seq<Decided>, verdicts: seq<ItemVerdict>, applied: seq<string>, merged: Option<EvalResult>,
                       feedback: Feedback)
    requires |ds| == |verdicts| && ds != [] && merged.Some?
    requires forall i | 0 <= i < |ds| :: verdicts[i].decision == Decision.Allow && verdicts[i].rule == ds[i].rule
    requires merged.value.decision == Decision.Allow ==> exists i :: 0 <= i < |ds| && ds[i].rule == merged.value.rule
    ensures
      var advised := Envelope(Reconcile(verdicts, merged, Advisory), applied, merged, feedback);
      var enforced := Envelope(Reconcile(verdicts, merged, Enforced), applied, merged, feedback);
      SameVerdicts(ds, advised, enforced)
  {
    var a, b := Reconcile(verdicts, merged, Advisory), Reconcile(verdicts, merged, Enforced);
    assert DecisionsOf(a) == DecisionsOf(b);
    if merged.value.decision == Decision.Allow {
      WorstIsAllow(a);
      if OneRule(ds) {
        assert forall i | 0 <= i < |ds| :: a[i] == b[i];
        assert a == b;
      }
    } else {
      assert forall i | 0 <= i < |ds| :: a[i] == b[i];
      assert a == b;
    }
  }

  /** Every verdict the call depends on is plain, and it is not refused for its number of items. */
  ghost predicate PlainCall(w: World, g: Gateway, a: Attempt) {
    match ItemsDeclaration(g.deps, a.call)
    case None => Plain(DecideIn(w, g, a.call, a.party, a.env).1)
    case Some(def) =>
      var values := ItemValues(a.call, def);
      !OverCeiling(def, values) && AllPlain(DecideItems(w, g, a, def, values).1)
  }

  /** Where the policy allows and no scope narrows, the two modes do the same thing with any call. */
  lemma AllowedCallsAlike(w: World, g: Gateway, a: Attempt)
    requires PlainCall(w, g, a)
    ensures
      var advised, enforced := Enforce(w, g, a, Advisory), Enforce(w, g, a, Enforced);
      SameButLabels(advised.0, enforced.0) && SameButItemRules(advised.1, enforced.1)
  {
    match ItemsDeclaration(g.deps, a.call)
    case None => AllowedRunsAlike(w, g, a);
    case Some(def) => AllowedFanOutAlike(w, g, a, def, ItemValues(a.call, def));
  }

  // ---- a batch with nothing to translate and nothing to reserve -------------------------------

  predicate NothingPlanned(ds: seq<Decided>) {
    forall i | 0 <= i < |ds| :: ClaimPlan(ds[i].gates).None?
  }

  lemma {:induction false} NothingReserved(w: World, g: Gateway, ds: seq<Decided>)
    requires NothingPlanned(ds)
    ensures ReserveAll(w, g, ds) == PrePass(w, ds, None)
  {
    if ds != [] {
      assert ClaimPlan(ds[0].gates).None?;
      NothingReserved(w, g, ds[1..]);
    }
  }

  predicate WithoutAdvice(stamps: seq<Option<Stamp>>) {
    forall i | 0 <= i < |stamps| :: stamps[i].Some? ==> stamps[i].value.advice.None?
  }

  /** Commits in a row read the mode no more than one commit does. */
  lemma {:induction false} CommitsAlike(a: World, b: World, g: Gateway, p: Party, ops: seq<Operation>, ds: seq<Decided>,
                                        xs: seq<Option<Stamp>>, ys: seq<Option<Stamp>>)
    requires SameButLabels(a, b) && |ops| == |ds| == |xs| == |ys| && AllCommittable(ds)
    requires WithoutAdvice(xs) && WithoutAdvice(ys)
    ensures
      var x, y := CommitAll(a, g, p, Advisory, ops, ds, xs), CommitAll(b, g, p, Enforced, ops, ds, ys);
      SameButLabels(x.0, y.0) && x.1 == y.1
    decreases |ds|
  {
    if ds != [] {
      assert WithoutAdvice(xs[1..]) && WithoutAdvice(ys[1..]);
      var j, k := JobOf(g, p, ops[0].env, Advisory, xs[0]), JobOf(g, p, ops[0].env, Enforced, ys[0]);
      ModeIsALabel(a, b, j, k, ds[0]);
      CommitsAlike(Commit(a, j, ds[0]).0, Commit(b, k, ds[0]).0, g, p, ops[1..], ds[1..], xs[1..], ys[1..]);
    }
  }

  lemma SameAsItself(w: World)
    ensures SameButLabels(w, w)
  {
  }

  /** A batch whose every operation is plain and plans no reservation runs alike in both modes. */
  lemma AllowedBatchAlike(w: World, g: Gateway, p: Party, ops: seq<Operation>)
    requires ops != []
    requires var ds := DecideAll(w, g, p, ops).1; AllPlain(ds) && NothingPlanned(ds)
    ensures
      var advised, enforced := EnforceBatch(w, g, p, ops, Advisory), EnforceBatch(w, g, p, ops, Enforced);
      SameButLabels(advised.0, enforced.0) && advised.1 == enforced.1
  {
    var (m, ds) := DecideAll(w, g, p, ops);
    assert FirstRefusal(ds) == |ds| && FirstKill(ds) == |ds|;
    NothingReserved(m, g, ds);
    PlainItems(ds, g.setup);
    var items := Translate(ds, g.setup, Advisory);
    AdviseBatchIs(m, g, p, ops, ds, items);
    assert TranslatedOf(items) == ds by {
      assert forall i | 0 <= i < |ds| :: items[i] == TranslateOne(ds[i], g.setup, Enforced);
    }
    SameAsItself(m);
    CommitsAlike(m, m, g, p, ops, ds, StampsOf(items, BatchNote(ds)), NoStamps(|ds|));
  }

  // ---- a batch that reserves is not run alike ---------------------------------------------------

  /** An allowed effect that is staged with no more ado than its reservation. */
  predicate Stageable(g: Gateway, d: Decided, plan: (string, string, ConsumePlan)) {
    && Plain(d) && d.resolved.Some? && d.resolved.value.kind == Effect && d.claim.None?
    && ClaimPlan(d.gates) == Some(plan)
    && g.setup.outbox && g.setup.freshness.None?
  }

  /** With the line free and nothing failing, the first to ask gets it and the second does not. */
  lemma SecondIsDeclined(w: World, g: Gateway, plan: (string, string, ConsumePlan))
    requires g.setup.adapters.Some? && plan.0 in g.setup.adapters.value && LineAt(w, Key(plan.0, plan.1)) == Free
    requires forall n: nat :: g.outside.fault(n) == Answers
    ensures var (m, first) := ReserveClaim(w, g.setup, g.outside, plan);
      first.Held? && ReserveClaim(m, g.setup, g.outside, plan).1 == Rejected(NoMatch)
  {
  }

  lemma PrePassDeclines(w: World, g: Gateway, ds: seq<Decided>, plan: (string, string, ConsumePlan))
    requires |ds| == 2 && ClaimPlan(ds[0].gates) == Some(plan) == ClaimPlan(ds[1].gates)
    requires var (m, first) := ReserveClaim(w, g.setup, g.outside, plan);
      first.Held? && ReserveClaim(m, g.setup, g.outside, plan).1 == Rejected(NoMatch)
    ensures ReserveAll(w, g, ds).refusal == Some(NoMatch)
  {
    var m := ReserveClaim(w, g.setup, g.outside, plan).0;
    assert ds[1..][0] == ds[1] && ReserveAll(m, g, ds[1..]).refusal == Some(NoMatch);
  }

  lemma {:induction false} CommitsKeepRows(w: World, g: Gateway, p: Party, mode: Mode, ops: seq<Operation>, ds: seq<Decided>,
                                           stamps: seq<Option<Stamp>>)
    requires |ops| == |ds| == |stamps| && AllCommittable(ds)
    ensures RowsKept(w, CommitAll(w, g, p, mode, ops, ds, stamps).0)
    decreases |ds|
  {
    if ds != [] {
      var j := JobOf(g, p, ops[0].env, mode, stamps[0]);
      CommitWork(w, j, ds[0]);
      CommitsKeepRows(Commit(w, j, ds[0]).0, g, p, mode, ops[1..], ds[1..], stamps[1..]);
    }
  }

  lemma FirstIsStaged(w: World, j: Job, d: Decided, g: Gateway, plan: (string, string, ConsumePlan))
    requires Stageable(g, d, plan) && j.setup == g.setup && j.outside == g.outside
    requires ReserveClaim(w, g.setup, g.outside, plan).1.Held? && forall n: nat :: g.outside.fault(n) == Answers
    ensures |Commit(w, j, d).0.rows| == |w.rows| + 1
  {
  }

  lemma RefusedPassStages(w: World, g: Gateway, p: Party, ops: seq<Operation>, ds: seq<Decided>)
    requires |ops| == |ds| && AllCommittable(ds) && ReserveAll(w, g, ds).refusal.Some?
    ensures var (w', b) := CommitBatch(w, g, p, ops, ds); w'.rows == w.rows && b.decision == Decision.Deny
  {
    var pass := ReserveAll(w, g, ds);
    var released := ReleaseAll(pass.world, g, pass.ds);
    var held := pass.ds + ds[|pass.ds|..];
    HoldDedupe.ReserveAllRows(w, g, ds);
    HoldDedupe.ReleaseAllRows(pass.world, g, pass.ds);
    HoldDedupe.RefuseAllRows(released, g, p, ops, held, None, ReservationClosings(held, |pass.ds|, pass.refusal.value));
  }

  /**
   * Two allowed, unscoped operations that match one obligation: enforced, the second reservation is refused and with it
   * the batch, so nothing is staged. Advised there is no pre-pass: the first is staged, and no record advises a refusal.
   */
  lemma ReservingBatchDiffers(w: World, g: Gateway, p: Party, ops: seq<Operation>, plan: (string, string, ConsumePlan))
    requires |ops| == 2 && g.setup.adapters.Some? && plan.0 in g.setup.adapters.value && LineAt(w, Key(plan.0, plan.1)) == Free
    requires forall n: nat :: g.outside.fault(n) == Answers
    requires var ds := DecideAll(w, g, p, ops).1; Stageable(g, ds[0], plan) && Stageable(g, ds[1], plan)
    ensures
      var advised, enforced := EnforceBatch(w, g, p, ops, Advisory), EnforceBatch(w, g, p, ops, Enforced);
      && enforced.0.rows == w.rows && enforced.1.decision == Decision.Deny
      && |w.rows| < |advised.0.rows| && BatchNote(DecideAll(w, g, p, ops).1).None?
  {
    var (m, ds) := DecideAll(w, g, p, ops);
    BatchQuiet(w, g, p, ops);
    SecondIsDeclined(m, g, plan);
    EnforcedStagesNothing(m, g, p, ops, ds, plan);
    AdvisedStages(m, g, p, ops, ds, plan);
  }

  lemma EnforcedStagesNothing(w: World, g: Gateway, p: Party, ops: seq<Operation>, ds: seq<Decided>,
                              plan: (string, string, ConsumePlan))
    requires |ops| == |ds| == 2 && AllCommittable(ds) && Stageable(g, ds[0], plan) && Stageable(g, ds[1], plan)
    requires var (m, first) := ReserveClaim(w, g.setup, g.outside, plan);
      first.Held? && ReserveClaim(m, g.setup, g.outside, plan).1 == Rejected(NoMatch)
    ensures FirstRefusal(ds) == |ds|
    ensures var (w', b) := CommitBatch(w, g, p, ops, ds); w'.rows == w.rows && b.decision == Decision.Deny
  {
    PrePassDeclines(w, g, ds, plan);
    RefusedPassStages(w, g, p, ops, ds);
  }

  lemma AdvisedStages(w: World, g: Gateway, p: Party, ops: seq<Operation>, ds: seq<Decided>, plan: (string, string, ConsumePlan))
    requires |ops| == |ds| == 2 && AllCommittable(ds) && Stageable(g, ds[0], plan) && Stageable(g, ds[1], plan)
    requires ReserveClaim(w, g.setup, g.outside, plan).1.Held? && forall n: nat :: g.outside.fault(n) == Answers
    ensures |w.rows| < |AdviseBatch(w, g, p, ops, ds).0.rows|
  {
    var items := Translate(ds, g.setup, Advisory);
    AdviseBatchIs(w, g, p, ops, ds, items);
    assert TranslatedOf(items)[0] == ds[0] by {
      assert items[0] == TranslateOne(ds[0], g.setup, Advisory);
    }
    CommitsStage(w, g, p, ops, TranslatedOf(items), StampsOf(items, BatchNote(ds)), plan);
  }

  lemma CommitsStage(w: World, g: Gateway, p: Party, ops: seq<Operation>, ds: seq<Decided>, stamps: seq<Option<Stamp>>,
                     plan: (string, string, ConsumePlan))
    requires |ops| == |ds| == |stamps| && AllCommittable(ds) && ds != [] && Stageable(g, ds[0], plan)
    requires ReserveClaim(w, g.setup, g.outside, plan).1.Held? && forall n: nat :: g.outside.fault(n) == Answers
    ensures |w.rows| < |CommitAll(w, g, p, Advisory, ops, ds, stamps).0.rows|
  {
    var j := JobOf(g, p, ops[0].env, Advisory, stamps[0]);
    FirstIsStaged(w, j, ds[0], g, plan);
    CommitsKeepRows(Commit(w, j, ds[0]).0, g, p, Advisory, ops[1..], ds[1..], stamps[1..]);
  }

  // ---- what an advised path refuses ----------------------------------------------------------------

  /** An item of an advised call, settled on its own, is never held. */
  lemma AdvisedItemSettles(w: World, g: Gateway, a: Attempt, name: string, d: Decided, s: Setup)
    requires Decidable(d)
    ensures
      var item := AsAdvised(d, s);
      var v := VerdictOf(name, item.decided, SettleItem(w, g, a, Advisory, item).1);
      AdvisedAnswer(v.decision, v.rule, d) && (v.decision == Decision.Allow <==> IsAllowed(item))
  {
  }

  lemma {:induction false} AdvisedItemsSettle(w: World, g: Gateway, a: Attempt, names: seq<string>, ds: seq<Decided>,
                                              items: seq<Advised>)
    requires |names| == |ds| == |items| && ItemsCommittable(items) && AllDecidable(ds)
    requires forall i | 0 <= i < |ds| :: items[i] == AsAdvised(ds[i], g.setup)
    ensures var verdicts := SettleItems(w, g, a, Advisory, names, items).1;
      forall i | 0 <= i < |ds| :: AdvisedVerdict(verdicts[i], ds[i])
    decreases |ds|
  {
    if ds != [] {
      AdvisedItemSettles(w, g, a, names[0], ds[0], g.setup);
      AdvisedItemsSettle(SettleItem(w, g, a, Advisory, items[0]).0, g, a, names[1..], ds[1..], items[1..]);
    }
  }

  ghost predicate AdvisedVerdict(v: ItemVerdict, d: Decided) {
    AdvisedAnswer(v.decision, v.rule, d)
  }

  /** The merged call is applied, or refused by a store. */
  lemma MergedStops(w: World, g: Gateway, a: Attempt, def: ItemsDef, names: seq<string>, values: seq<Value>, items: seq<Advised>)
    requires |names| == |values| == |items| && ItemsCommittable(items)
    ensures var merged := CommitMerged(w, g, a, def, Advisory, names, values, items).1;
      merged.Some? ==>
        merged.value.decision == Decision.Allow || (merged.value.decision == Decision.Deny && StoreRefusal(merged.value.rule))
  {
    if Template(items).Some? {
      var merged := MergedDecided(Template(items).value.decided, a.call, def, AllowedValues(values, items));
      CommitAnswers(w, JobOf(g, a.party, a.env, Advisory, CallStamp(Advisory, names, items)), merged);
    }
  }

  lemma ReconciledStops(verdicts: seq<ItemVerdict>, ds: seq<Decided>, merged: Option<EvalResult>)
    requires |verdicts| == |ds| && forall i | 0 <= i < |ds| :: AdvisedVerdict(verdicts[i], ds[i])
    requires merged.Some? ==>
      merged.value.decision == Decision.Allow || (merged.value.decision == Decision.Deny && StoreRefusal(merged.value.rule))
    ensures var settled := Reconcile(verdicts, merged, Advisory);
      forall i | 0 <= i < |ds| :: AdvisedVerdict(settled[i], ds[i])
  {
    forall i | 0 <= i < |ds| ensures AdvisedVerdict(ReconcileOne(verdicts[i], merged, Advisory), ds[i]) {
      assert AdvisedVerdict(verdicts[i], ds[i]);
    }
  }

  lemma {:induction false} FirstWithIsOne(verdicts: seq<ItemVerdict>, decision: Decision)
    requires decision in DecisionsOf(verdicts)
    ensures FirstWith(verdicts, decision).Some?
    ensures exists i :: 0 <= i < |verdicts| && verdicts[i] == FirstWith(verdicts, decision).value
                        && verdicts[i].decision == decision
  {
    if verdicts[0].decision != decision {
      assert DecisionsOf(verdicts) == [verdicts[0].decision] + DecisionsOf(verdicts[1..]);
      FirstWithIsOne(verdicts[1..], decision);
      var i :| 0 <= i < |verdicts| - 1 && verdicts[1..][i] == FirstWith(verdicts, decision).value
        && verdicts[1..][i].decision == decision;
      assert verdicts[i + 1] == FirstWith(verdicts, decision).value;
    }
  }

  /** Every item's answer is an advised one, and a call that is not allowed answers with the decision and rule of an item. */
  ghost predicate AdvisedItems(r: EvalResult, ds: seq<Decided>) {
    && |r.items| == |ds| && (forall i | 0 <= i < |ds| :: AdvisedVerdict(r.items[i], ds[i]))
    && (r.decision != Decision.Allow ==>
          exists i :: 0 <= i < |ds| && r.items[i].decision == r.decision && r.items[i].rule == r.rule)
  }

  lemma EnvelopeStops(verdicts: seq<ItemVerdict>, ds: seq<Decided>, applied: seq<string>, merged: Option<EvalResult>,
                      feedback: Feedback)
    requires |verdicts| == |ds| && ds != [] && forall i | 0 <= i < |ds| :: AdvisedVerdict(verdicts[i], ds[i])
    ensures AdvisedItems(Envelope(verdicts, applied, merged, feedback), ds)
  {
    var overall := Worst(DecisionsOf(verdicts));
    WorstIsOne(DecisionsOf(verdicts));
    FirstWithIsOne(verdicts, overall);
    var r := Envelope(verdicts, applied, merged, feedback);
    var i :| 0 <= i < |verdicts| && verdicts[i] == FirstWith(verdicts, overall).value && verdicts[i].decision == overall;
    if r.decision != Decision.Allow {
      assert r.items[i].decision == r.decision && r.items[i].rule == r.rule;
    }
  }

  lemma AdvisedFanOutStops(w: World, g: Gateway, a: Attempt, def: ItemsDef, values: seq<Value>)
    requires values != []
    ensures AdvisedItems(FanOut(w, g, a, def, values, Advisory).1, DecideItems(w, g, a, def, values).1)
  {
    var names := ItemNames(values, def, g.setup.text);
    var (m, ds) := DecideItems(w, g, a, def, values);
    ItemsDecided(w, g, a, def, values);
    var items := Translate(ds, g.setup, Advisory);
    AdvisedItemsSettle(m, g, a, names, ds, items);
    var (n, verdicts) := SettleItems(m, g, a, Advisory, names, items);
    MergedStops(n, g, a, def, names, values, items);
    var merged := CommitMerged(n, g, a, def, Advisory, names, values, items).1;
    ReconciledStops(verdicts, ds, merged);
    EnvelopeStops(Reconcile(verdicts, merged, Advisory), ds, AppliedNames(names, items, merged), merged,
                  items[0].decided.feedback);
  }

  /** Down every path an advisory call answers only so: as one unit, over the ceiling, and item by item. */
  lemma AdvisedCallStops(w: World, g: Gateway, a: Attempt)
    ensures
      var r := Enforce(w, g, a, Advisory).1;
      match ItemsDeclaration(g.deps, a.call)
      case Some(def) =>
        var values := ItemValues(a.call, def);
        if OverCeiling(def, values) then AdvisedAnswer(r.decision, r.rule, DecideIn(w, g, a.call, a.party, a.env).1)
        else AdvisedItems(r, DecideItems(w, g, a, def, values).1)
      case None => AdvisedAnswer(r.decision, r.rule, DecideIn(w, g, a.call, a.party, a.env).1)
  {
    match ItemsDeclaration(g.deps, a.call)
    case None => AdvisoryRefusals(w, g, a);
    case Some(def) =>
      var values := ItemValues(a.call, def);
      if OverCeiling(def, values) {
        var (after, d) := DecideIn(w, g, a.call, a.party, a.env);
        UnresolvedIsDenied(g.deps, a.call, a.party, a.env, w.calls, w.audit);
        var stamp := CeilingStamp(AsAdvised(d, g.setup));
        AdvisedCommit(after, JobOf(g, a.party, a.env, Advisory, Some(stamp)), d, g.setup);
      } else {
        AdvisedFanOutStops(w, g, a, def, values);
      }
  }

  lemma {:induction false} BatchDecided(w: World, g: Gateway, p: Party, ops: seq<Operation>)
    ensures AllDecidable(DecideAll(w, g, p, ops).1)
    decreases |ops|
  {
    if ops != [] {
      UnresolvedIsDenied(g.deps, ops[0].call, p, ops[0].env, w.calls, w.audit);
      BatchDecided(DecideIn(w, g, ops[0].call, p, ops[0].env).0, g, p, ops[1..]);
    }
  }

  ghost predicate AdvisedResults(results: seq<EvalResult>, ds: seq<Decided>) {
    |results| == |ds| && forall i | 0 <= i < |ds| :: AdvisedAnswer(results[i].decision, results[i].rule, ds[i])
  }

  lemma {:induction false} AdvisedCommitsStop(w: World, g: Gateway, p: Party, ops: seq<Operation>, ds: seq<Decided>,
                                              forwarded: seq<Decided>, stamps: seq<Option<Stamp>>)
    requires |ops| == |ds| == |forwarded| == |stamps| && AllCommittable(forwarded) && AllDecidable(ds)
    requires forall i | 0 <= i < |ds| :: forwarded[i] == AsAdvised(ds[i], g.setup).decided
    ensures AdvisedResults(CommitAll(w, g, p, Advisory, ops, forwarded, stamps).1, ds)
    decreases |ds|
  {
    if ds != [] {
      var j := JobOf(g, p, ops[0].env, Advisory, stamps[0]);
      AdvisedCommit(w, j, ds[0], g.setup);
      AdvisedCommitsStop(Commit(w, j, forwarded[0]).0, g, p, ops[1..], ds[1..], forwarded[1..], stamps[1..]);
    }
  }

  /** A batch whose results are all so is refused only with one of them, and not held. */
  lemma SummaryStops(results: seq<EvalResult>, ds: seq<Decided>)
    requires AdvisedResults(results, ds)
    ensures var b := Summary(results);
      && b.decision != Decision.Hold && b.results == results
      && (b.failingIndex.Some? <==> Refused(b.decision))
      && (b.failingIndex.Some? ==>
            b.failingIndex.value < |results| && results[b.failingIndex.value].decision == b.decision)
  {
    forall r | r in results ensures r.decision != Decision.Hold {
      var i :| 0 <= i < |results| && results[i] == r;
      assert AdvisedAnswer(results[i].decision, results[i].rule, ds[i]);
    }
  }

  /**
   * An advised batch is never held. With no operation halted by the kill switch, each operation answers only so and
   * the batch with the first refusal among them; with one, the batch is refused as halted at the first.
   */
  lemma AdvisedBatchStops(w: World, g: Gateway, p: Party, ops: seq<Operation>)
    requires ops != []
    ensures
      var b := EnforceBatch(w, g, p, ops, Advisory).1;
      var ds := DecideAll(w, g, p, ops).1;
      && b.decision != Decision.Hold
      && (FirstKill(ds) < |ds| ==> b.decision == Decision.Halt && b.failingIndex == Some(FirstKill(ds)))
      && (FirstKill(ds) == |ds| ==>
            && AdvisedResults(b.results, ds)
            && (b.failingIndex.Some? <==> Refused(b.decision))
            && (b.failingIndex.Some? ==>
                  b.failingIndex.value < |ops| && b.results[b.failingIndex.value].decision == b.decision))
  {
    var (m, ds) := DecideAll(w, g, p, ops);
    if FirstKill(ds) == |ds| {
      BatchDecided(w, g, p, ops);
      var items := Translate(ds, g.setup, Advisory);
      AdviseBatchIs(m, g, p, ops, ds, items);
      AdvisedCommitsStop(m, g, p, ops, ds, TranslatedOf(items), StampsOf(items, BatchNote(ds)));
      SummaryStops(CommitAll(m, g, p, Advisory, ops, TranslatedOf(items), StampsOf(items, BatchNote(ds))).1, ds);
    }
  }
}
