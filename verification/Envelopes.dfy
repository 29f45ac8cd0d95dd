/** What a call with items and a batch answer as a whole, in terms of their items and operations. */
module Envelopes {
  import opened Vocabulary
  import opened Stores
  import opened Holds
  import opened Pipeline
  import opened Enforcement
  import opened AdvisedPaths
  import ReservationRuns

  // ---- a call with items ---------------------------------------------------------------------

  ghost predicate SomeAnswers(verdicts: seq<ItemVerdict>, decision: Decision) {
    exists i :: 0 <= i < |verdicts| && verdicts[i].decision == decision
  }

  /** The first item with this answer. */
  ghost predicate FirstAnswering(verdicts: seq<ItemVerdict>, decision: Decision, k: nat) {
    k < |verdicts| && verdicts[k].decision == decision && forall i | 0 <= i < k :: verdicts[i].decision != decision
  }

  lemma AnswersAreDecisions(verdicts: seq<ItemVerdict>, decision: Decision)
    ensures SomeAnswers(verdicts, decision) <==> decision in DecisionsOf(verdicts)
  {
    if SomeAnswers(verdicts, decision) {
      var i :| 0 <= i < |verdicts| && verdicts[i].decision == decision;
      assert DecisionsOf(verdicts)[i] == decision;
    }
  }

  lemma {:induction false} FirstWithIsFirst(verdicts: seq<ItemVerdict>, decision: Decision) returns (k: nat)
    requires SomeAnswers(verdicts, decision)
    ensures FirstAnswering(verdicts, decision, k) && FirstWith(verdicts, decision) == Some(verdicts[k])
  {
    if verdicts[0].decision == decision {
      k := 0;
    } else {
      var rest := verdicts[1..];
      var i :| 0 <= i < |verdicts| && verdicts[i].decision == decision;
      assert rest[i - 1].decision == decision;
      k := FirstWithIsFirst(rest, decision);
      assert verdicts[k + 1] == rest[k];
      assert forall j | 1 <= j < k + 1 :: verdicts[j] == rest[j - 1];
      k := k + 1;
    }
  }

  /** HALT before DENY before HOLD, in the name of the first item that earned it; ALLOW only when every item was. */
  ghost predicate WorstOfItems(r: EvalResult) {
    && (r.decision == Decision.Halt <==> SomeAnswers(r.items, Decision.Halt))
    && (r.decision == Decision.Deny <==> !SomeAnswers(r.items, Decision.Halt) && SomeAnswers(r.items, Decision.Deny))
    && (r.decision == Decision.Hold <==>
          !SomeAnswers(r.items, Decision.Halt) && !SomeAnswers(r.items, Decision.Deny) && SomeAnswers(r.items, Decision.Hold))
    && (r.decision == Decision.Allow <==> forall i | 0 <= i < |r.items| :: r.items[i].decision == Decision.Allow)
    && (r.decision != Decision.Allow ==> exists k: nat ::
          FirstAnswering(r.items, r.decision, k) && r.rule == r.items[k].rule && r.reason == r.items[k].reason)
  }

  lemma EnvelopeIsWorst(verdicts: seq<ItemVerdict>, applied: seq<string>, merged: Option<EvalResult>, feedback: Feedback)
    ensures WorstOfItems(Envelope(verdicts, applied, merged, feedback))
  {
    AnswersAreDecisions(verdicts, Decision.Halt);
    AnswersAreDecisions(verdicts, Decision.Deny);
    AnswersAreDecisions(verdicts, Decision.Hold);
    var r := Envelope(verdicts, applied, merged, feedback);
    if r.decision != Decision.Allow {
      AnswersAreDecisions(verdicts, r.decision);
      var k := FirstWithIsFirst(verdicts, r.decision);
      assert r.rule == r.items[k].rule;
    } else {
      forall i | 0 <= i < |verdicts| ensures verdicts[i].decision == Decision.Allow {
        assert DecisionsOf(verdicts)[i] == verdicts[i].decision;
      }
    }
  }

  /** The rest of the envelope is the merged call's own answer, and empty when nothing was merged. */
  ghost predicate ShowsMerged(r: EvalResult, merged: Option<EvalResult>, feedback: Feedback) {
    match merged
    case None =>
      r.gates == [] && r.ticket.None? && r.output.None? && r.scopeApplied == [] && r.feedback == feedback
    case Some(m) =>
      && r.gates == m.gates && r.ticket == m.ticket && r.output == m.output && r.scopeApplied == m.scopeApplied
      && r.feedback == m.feedback
      && (r.decision == Decision.Allow ==> r.rule == m.rule && r.reason == Reason(NoCode, None))
  }

  lemma EnvelopeShowsMerged(verdicts: seq<ItemVerdict>, applied: seq<string>, merged: Option<EvalResult>, feedback: Feedback)
    ensures var r := Envelope(verdicts, applied, merged, feedback);
      r.items == verdicts && r.applied == applied && ShowsMerged(r, merged, feedback)
  {
  }

  /** A fanned-out call, in either mode. */
  lemma FanOutAnswersWorst(w: World, g: Gateway, a: Attempt, def: ItemsDef, values: seq<Value>, mode: Mode)
    returns (merged: Option<EvalResult>)
    requires values != []
    ensures var r := FanOut(w, g, a, def, values, mode).1;
      WorstOfItems(r) && ShowsMerged(r, merged, DecideItems(w, g, a, def, values).1[0].feedback)
  {
    var names := ItemNames(values, def, g.setup.text);
    var (n, ds) := DecideItems(w, g, a, def, values);
    var items := Translate(ds, g.setup, mode);
    var (m, verdicts) := SettleItems(n, g, a, mode, names, items);
    merged := CommitMerged(m, g, a, def, mode, names, values, items).1;
    var applied := if merged.Some? && merged.value.decision == Decision.Allow then AllowedNames(names, items) else [];
    EnvelopeIsWorst(Reconcile(verdicts, merged, mode), applied, merged, items[0].decided.feedback);
    EnvelopeShowsMerged(Reconcile(verdicts, merged, mode), applied, merged, items[0].decided.feedback);
    assert items[0] == TranslateOne(ds[0], g.setup, mode);
    FeedbackSurvives(ds[0], g.setup, mode);
  }

  lemma FeedbackSurvives(d: Decided, s: Setup, mode: Mode)
    ensures TranslateOne(d, s, mode).decided.feedback == d.feedback
  {
  }

  /** The call brings at least two items for an action that takes them one by one. */
  ghost predicate BringsItems(d: Deps, call: RawCall, def: ItemsDef) {
    && d.resolve(call).Some? && d.resolve(call).value.items == Some(def) && def.independent
    && def.field in call.data && exists values :: call.data[def.field] == List(values) && |values| >= 2
  }

  /** A call is decided item by item exactly then, and is too much beyond the declared number, where there is one. */
  lemma FansOutExactly(d: Deps, call: RawCall, def: ItemsDef)
    ensures ItemsDeclaration(d, call) == Some(def) <==> BringsItems(d, call, def)
    ensures BringsItems(d, call, def) ==>
      var values := ItemValues(call, def);
      && call.data[def.field] == List(values)
      && (OverCeiling(def, values) <==> exists most :: def.maxItems == Some(most) && most < |values|)
  {
    if def.field in call.data && call.data[def.field].List? {
      assert call.data[def.field] == List(call.data[def.field].items);
    }
    if def.maxItems.Some? { assert def.maxItems == Some(def.maxItems.value); }
  }

  /** A scalar names itself; a record goes by its declared key, blank without it. */
  lemma ItemsAreNamed(value: Value, def: ItemsDef, text: Rendering)
    ensures var name := ItemName(value, def, text);
      && (!value.Rec? || def.key == "" ==> name == text.show(value))
      && (value.Rec? && def.key != "" && def.key in value.fields ==> name == text.show(value.fields[def.key]))
      && (value.Rec? && def.key != "" && def.key !in value.fields ==> name == "")
  {
  }

  /** More items than the action takes at once. */
  ghost predicate TooMany(call: RawCall, def: ItemsDef) {
    def.maxItems.Some? && exists values :: def.field in call.data && call.data[def.field] == List(values) && |values| > def.maxItems.value
  }

  /**
   * A call that brings no items is one unit; one that brings too many is refused as it stands, touching nothing; any
   * other is decided item by item. An advisory deployment lets the one that brings too many through as one unit.
   */
  lemma ThreeWays(w: World, g: Gateway, a: Attempt, mode: Mode, def: ItemsDef)
    ensures (forall d :: !BringsItems(g.deps, a.call, d)) ==> Enforce(w, g, a, mode) == EnforceWhole(w, g, a, mode)
    ensures BringsItems(g.deps, a.call, def) && !TooMany(a.call, def) ==>
      Enforce(w, g, a, mode) == FanOut(w, g, a, def, a.call.data[def.field].items, mode)
    ensures BringsItems(g.deps, a.call, def) && TooMany(a.call, def) && mode == Enforced ==>
      var (w', r) := Enforce(w, g, a, mode);
      r.decision == Decision.Deny && r.rule == ItemsOverCeiling && w' == w.(audit := w'.audit)
    ensures BringsItems(g.deps, a.call, def) && TooMany(a.call, def) && mode == Advisory ==>
      var decided := AsAdvised(DecideIn(w, g, a.call, a.party, a.env).1, g.setup);
      Enforce(w, g, a, mode).0
        == Commit(DecideIn(w, g, a.call, a.party, a.env).0, JobOf(g, a.party, a.env, Advisory, Some(CeilingStamp(decided))),
                  decided.decided).0
  {
    var declared := ItemsDeclaration(g.deps, a.call);
    FansOutExactly(g.deps, a.call, def);
    if declared.Some? { FansOutExactly(g.deps, a.call, declared.value); }
    if BringsItems(g.deps, a.call, def) {
      var values := ItemValues(a.call, def);
      assert a.call.data[def.field] == List(values);
      assert TooMany(a.call, def) <==> OverCeiling(def, values);
    }
  }

  /** An item allowed by its own verdict takes the merged call's answer; any other keeps its own. */
  lemma ReconciledTells(verdicts: seq<ItemVerdict>, merged: Option<EvalResult>, mode: Mode, i: nat)
    requires i < |verdicts|
    ensures |Reconcile(verdicts, merged, mode)| == |verdicts|
    ensures var v, r := verdicts[i], Reconcile(verdicts, merged, mode)[i];
      && r.item == v.item
      && (v.decision != Decision.Allow || merged.None? ==> r == v)
      && (v.decision == Decision.Allow && merged.Some? ==>
            && r.decision == merged.value.decision
            && (merged.value.decision == Decision.Allow ==>
                  r.rule == (if mode == Advisory then merged.value.rule else v.rule) && r.reason == v.reason && r.ticket == v.ticket)
            && (merged.value.decision != Decision.Allow ==>
                  r.rule == merged.value.rule && r.reason == merged.value.reason && r.ticket == merged.value.ticket))
  {
  }

  ghost predicate FirstForwarded(items: seq<Advised>, k: nat) {
    && k < |items| && items[k].decided.decision == Decision.Allow
    && forall i | 0 <= i < k :: items[i].decided.decision != Decision.Allow
  }

  /** The first item allowed without advice, where there is one. */
  ghost predicate FirstPlain(items: seq<Advised>, k: nat) {
    && k < |items| && PlainlyAllowed(items[k]) && forall i | 0 <= i < k :: !PlainlyAllowed(items[i])
  }

  ghost predicate PlainlyAllowed(item: Advised) {
    item.decided.decision == Decision.Allow && item.advice.None?
  }

  /** The merged call speaks as its first plainly allowed item, and as the first forwarded one when there is none. */
  lemma TemplateTells(items: seq<Advised>, k: nat)
    ensures FirstPlain(items, k) ==> Template(items) == Some(items[k])
    ensures (forall i | 0 <= i < |items| :: !PlainlyAllowed(items[i])) && FirstForwarded(items, k) ==>
      Template(items) == Some(items[k])
    ensures (forall i | 0 <= i < |items| :: items[i].decided.decision != Decision.Allow) ==> Template(items).None?
  {
    if FirstPlain(items, k) {
      PlainIsFirst(items, k);
    } else if (forall i | 0 <= i < |items| :: !PlainlyAllowed(items[i])) && FirstForwarded(items, k) {
      NonePlain(items);
      ForwardedIsFirst(items, k);
    }
  }

  lemma {:induction false} ForwardedIsFirst(items: seq<Advised>, k: nat)
    requires FirstForwarded(items, k)
    ensures FirstAllowed(items) == Some(items[k])
    decreases |items|
  {
    if k > 0 {
      assert items[1..][k - 1] == items[k] && forall i | 0 <= i < k - 1 :: items[1..][i] == items[i + 1];
      ForwardedIsFirst(items[1..], k - 1);
    }
  }

  lemma {:induction false} PlainIsFirst(items: seq<Advised>, k: nat)
    requires FirstPlain(items, k)
    ensures FirstAllowed(Undiverged(items)) == Some(items[k])
    decreases |items|
  {
    var rest := Undiverged(items[1..]);
    if k > 0 {
      assert items[1..][k - 1] == items[k] && forall i | 0 <= i < k - 1 :: items[1..][i] == items[i + 1];
      PlainIsFirst(items[1..], k - 1);
      assert !PlainlyAllowed(items[0]);
    }
    if items[0].advice.None? {
      assert ([items[0]] + rest)[1..] == rest;
    } else {
      assert [] + rest == rest;
    }
  }

  lemma NonePlain(items: seq<Advised>)
    requires forall i | 0 <= i < |items| :: !PlainlyAllowed(items[i])
    ensures FirstAllowed(Undiverged(items)).None?
  {
    assert forall item | item in items :: !PlainlyAllowed(item);
  }

  /** The merged call is the template's verdict about the call with the applied values in place of its items. */
  lemma MergedTells(template: Decided, call: RawCall, def: ItemsDef, subset: seq<Value>)
    ensures var m := MergedDecided(template, call, def, subset);
      && m == template.(call := m.call, resolved := m.resolved)
      && m.call.resource == call.resource && m.call.action == call.action && HoldsInstead(call.data, m.call.data, def.field, subset)
      && (m.resolved.Some? <==> template.resolved.Some?)
      && (m.resolved.Some? ==>
            && m.resolved.value == template.resolved.value.(data := m.resolved.value.data)
            && HoldsInstead(template.resolved.value.data, m.resolved.value.data, def.field, subset))
  {
  }

  ghost predicate HoldsInstead(before: Payload, after: Payload, field: string, values: seq<Value>) {
    && after.Keys == before.Keys + {field} && after[field] == List(values)
    && forall k | k in before && k != field :: after[k] == before[k]
  }

  // ---- a batch ---------------------------------------------------------------------------------

  ghost predicate FirstRefused(results: seq<EvalResult>, k: nat) {
    k < |results| && Refused(results[k].decision) && forall i | 0 <= i < k :: !Refused(results[i].decision)
  }

  /** It answers as its first refused operation; otherwise it is held if any operation is, and allowed if none. */
  ghost predicate Summarised(b: BatchResult) {
    && (forall k: nat :: b.failingIndex == Some(k) <==> FirstRefused(b.results, k))
    && match b.failingIndex
       case Some(k) => k < |b.results| && b.decision == b.results[k].decision
       case None =>
         && (b.decision == Decision.Hold <==> exists i :: 0 <= i < |b.results| && b.results[i].decision == Decision.Hold)
         && (b.decision == Decision.Hold || b.decision == Decision.Allow)
  }

  lemma SummaryIsSummarised(results: seq<EvalResult>)
    ensures Summarised(Summary(results)) && Summary(results).results == results
  {
    var b, failed := Summary(results), FirstFailed(results);
    forall k: nat ensures b.failingIndex == Some(k) <==> FirstRefused(results, k) {
    }
    if failed == |results| {
      if i :| 0 <= i < |results| && results[i].decision == Decision.Hold {
        assert results[i] in results;
      }
      if r :| r in results && r.decision == Decision.Hold {
        var i :| 0 <= i < |results| && results[i] == r;
      }
    }
  }

  /** A batch that commits, in either mode. */
  lemma CommittedBatchIsSummarised(w: World, g: Gateway, p: Party, ops: seq<Operation>, mode: Mode)
    requires ops != []
    requires var (after, ds) := DecideAll(w, g, p, ops);
      if mode == Enforced then ReservationRuns.Commits(after, g, ds) else FirstKill(ds) == |ds|
    ensures Summarised(EnforceBatch(w, g, p, ops, mode).1) && |EnforceBatch(w, g, p, ops, mode).1.results| == |ops|
  {
    var (after, ds) := DecideAll(w, g, p, ops);
    if mode == Enforced {
      var pass := ReserveAll(after, g, ds);
      SummaryIsSummarised(CommitAll(pass.world, g, p, Enforced, ops, pass.ds, NoStamps(|ds|)).1);
    } else {
      var items := Translate(ds, g.setup, Advisory);
      AdviseBatchIs(after, g, p, ops, ds, items);
      SummaryIsSummarised(CommitAll(after, g, p, Advisory, ops, TranslatedOf(items), StampsOf(items, BatchNote(ds))).1);
    }
  }
}
