/** What an advisory deployment makes of a verdict, and at which level every path answers its agent. */
module Translations {
  import opened Vocabulary
  import opened Stores
  import opened Holds
  import opened Pipeline
  import opened Enforcement
  import opened AdvisedPaths
  import ReservationRuns

  // ---- one verdict ------------------------------------------------------------------------------

  /** The kill switch speaking: an order, or a store nobody can read. */
  ghost predicate ByKillSwitch(d: Decided) {
    d.decision == Decision.Halt && (d.rule == KillUnavailable || exists id :: d.rule == KillOrder(id))
  }

  /** The rules a dependency's failure decides by. */
  const UNAVAILABLE := [ScopeUnavailable, KillUnavailable, FreshnessUnavailable, OutboxUnavailable, ReservationUnavailable,
                        ConnectorUnavailable]

  ghost predicate ByFailure(d: Decided) {
    exists i :: 0 <= i < |UNAVAILABLE| && d.rule == UNAVAILABLE[i]
  }

  /** Let through as it is: refused still, because no mode translates it. */
  ghost predicate Stands(d: Decided) {
    d.decision != Decision.Allow && (ByKillSwitch(d) || d.resolved.None?)
  }

  lemma FailuresAreListed(d: Decided)
    ensures ByFailure(d) <==> UnavailableRule(d.rule)
    ensures d.decision == Decision.Halt ==> (ByKillSwitch(d) <==> KillCaused(d.rule))
  {
    assert UNAVAILABLE[0] == ScopeUnavailable && UNAVAILABLE[1] == KillUnavailable && UNAVAILABLE[2] == FreshnessUnavailable
      && UNAVAILABLE[3] == OutboxUnavailable && UNAVAILABLE[4] == ReservationUnavailable && UNAVAILABLE[5] == ConnectorUnavailable;
    if d.rule.KillOrder? { assert d.rule == KillOrder(d.rule.id); }
  }

  /** The scope moves from what is applied to what is counted. */
  ghost predicate MovesScope(d: Decided, v: Decided, cap: nat) {
    match d.scope
    case None => v.scope.None? && v.scopeApplied == d.scopeApplied && v.measure == d.measure
    case Some(scope) =>
      && v.scope.None? && v.scopeApplied == []
      && v.measure.Some? && v.measure.value.predicate_ == scope && v.measure.value.cap == cap
      && (d.scopeApplied == [] ==> v.measure.value.shown.None?)
      && (d.scopeApplied != [] ==> v.measure.value.shown == Some(d.scopeApplied[0]))
  }

  /** An allowance stays, without its scope; every other verdict is let through, unless it stands. */
  lemma TranslationTells(d: Decided, s: Setup)
    ensures var t := AsAdvised(d, s);
      if Stands(d) then t.decided == d
      else
        && t.decided.decision == Decision.Allow && MovesScope(d, t.decided, s.measureCap)
        && t.decided.call == d.call && t.decided.resolved == d.resolved && t.decided.gates == d.gates
        && t.decided.feedback == d.feedback && t.decided.claim == d.claim
        && if d.decision == Decision.Allow
           then t.decided.rule == d.rule && t.decided.releases == d.releases && t.decided.outcome == d.outcome
           else t.decided.rule == AdvisoryRule && t.decided.releases == [] && t.decided.outcome == NotExecuted
  {
    FailuresAreListed(d);
  }

  /** Advice is given exactly where the deployment does other than the verdict said, and says what it said. */
  lemma AdviceTells(d: Decided, s: Setup)
    ensures var t := AsAdvised(d, s);
      && (t.advice.None? <==> d.decision == Decision.Allow || Stands(d))
      && (t.advice.Some? ==>
            var a := t.advice.value;
            && a.decision == d.decision && a.rule == d.rule && a.reason == Classify(d.decision, d.rule, d.gates)
            && a.question == if d.decision == Decision.Hold then HoldIdentity(d.resolved.value, d.gates, s.text) else None)
      && (t.coverage == Unjudged <==>
            d.decision != Decision.Allow && !ByKillSwitch(d) && (d.resolved.None? || ByFailure(d)))
  {
    FailuresAreListed(d);
  }

  /** Over the ceiling what was forwarded is not judged, and the advice is the ceiling's refusal. */
  lemma CeilingTells(d: Decided, s: Setup)
    ensures var t, stamp := AsAdvised(d, s), CeilingStamp(AsAdvised(d, s));
      && stamp.batchAdvice.None? && stamp.itemAdvice.None?
      && if Stands(d) then stamp.advice.None? && stamp.coverage == t.coverage
         else
           && stamp.coverage == Unjudged && stamp.advice.Some?
           && var a := stamp.advice.value;
              && a.decision == Decision.Deny && a.rule == ItemsOverCeiling && a.question.None?
              && a.reason == Reason(RuleCode(ItemsOverCeiling), Some(Terminal))
  {
    TranslationTells(d, s);
  }

  /** The one record of a call with items is unjudged exactly when some item it forwards is. */
  lemma CallCoverageTells(names: seq<string>, items: seq<Advised>)
    requires |names| == |items|
    ensures CallStamp(Enforced, names, items).None?
    ensures CallStamp(Advisory, names, items).Some?
    ensures CallStamp(Advisory, names, items).value.coverage == Unjudged <==>
      exists item :: item in items && item.decided.decision == Decision.Allow && item.coverage == Unjudged
  {
    if item :| item in items && item.decided.decision == Decision.Allow && item.coverage == Unjudged {
      var i :| 0 <= i < |items| && items[i] == item;
      assert IsAllowed(items[i]);
    }
  }

  /** A commit runs as the policy's agent and under its failure mode; with no policy it fails closed. */
  lemma CommitsUnderThePolicy(g: Gateway, p: Party, env: RequestEnv, mode: Mode, stamp: Option<Stamp>)
    ensures var j := JobOf(g, p, env, mode, stamp);
      && j.party == p && j.env == env && j.mode == mode && j.stamp == stamp && j.setup == g.setup && j.outside == g.outside
      && (g.deps.policy.Some? ==> j.agent == g.deps.policy.value.agent && j.failureMode == g.deps.policy.value.failureMode)
      && (g.deps.policy.None? ==> j.agent == g.deps.agent && j.failureMode == Closed)
  {
  }

  // ---- the level an answer is given at ----------------------------------------------------------------

  /** One call decided as a unit answers at the level its own verdict says, in either mode. */
  lemma UnitAnswersAtItsLevel(w: World, g: Gateway, a: Attempt, mode: Mode)
    ensures EnforceWhole(w, g, a, mode).1.feedback == DecideIn(w, g, a.call, a.party, a.env).1.feedback
  {
    if mode == Advisory { TranslationTells(DecideIn(w, g, a.call, a.party, a.env).1, g.setup); }
  }

  lemma {:induction false} CommitsAnswerAtTheirLevel(w: World, g: Gateway, p: Party, mode: Mode, ops: seq<Operation>,
                                                     ds: seq<Decided>, stamps: seq<Option<Stamp>>, i: nat)
    requires |ops| == |ds| == |stamps| && AllCommittable(ds) && i < |ds|
    ensures CommitAll(w, g, p, mode, ops, ds, stamps).1[i].feedback == ds[i].feedback
    decreases |ds|
  {
    if i > 0 {
      var after := Commit(w, JobOf(g, p, ops[0].env, mode, stamps[0]), ds[0]).0;
      CommitsAnswerAtTheirLevel(after, g, p, mode, ops[1..], ds[1..], stamps[1..], i - 1);
    }
  }

  lemma {:induction false} RefusalsAnswerAtTheirLevel(w: World, g: Gateway, p: Party, ops: seq<Operation>, ds: seq<Decided>,
                                                      stamp: Option<Stamp>, closings: seq<Closing>, i: nat)
    requires |ops| == |ds| == |closings| && i < |ds|
    ensures var r := RefuseAll(w, g, p, ops, ds, stamp, closings).1[i];
      r.feedback == ds[i].feedback && r.decision == closings[i].decision && r.rule == closings[i].rule
    decreases |ds|
  {
    if i > 0 {
      var after := Finish(w, JobOf(g, p, ops[0].env, Enforced, stamp), ds[0], closings[0]).0;
      RefusalsAnswerAtTheirLevel(after, g, p, ops[1..], ds[1..], stamp, closings[1..], i - 1);
    }
  }

  /** And each operation of a batch at its own, refused, committed or advised. */
  lemma BatchAnswersAtItsLevels(w: World, g: Gateway, p: Party, ops: seq<Operation>, mode: Mode, i: nat)
    requires i < |ops|
    ensures |EnforceBatch(w, g, p, ops, mode).1.results| == |ops|
    ensures EnforceBatch(w, g, p, ops, mode).1.results[i].feedback == DecideAll(w, g, p, ops).1[i].feedback
  {
    var (after, ds) := DecideAll(w, g, p, ops);
    if mode == Advisory {
      AdvisedLevels(after, g, p, ops, ds, i);
    } else if FirstRefusal(ds) < |ds| {
      RefusalsAnswerAtTheirLevel(after, g, p, ops, ds, None, RefusalClosings(ds), i);
    } else {
      CommittedLevels(after, g, p, ops, ds, i);
    }
  }

  ghost predicate AtLevels(results: seq<EvalResult>, ds: seq<Decided>, i: nat) {
    |results| == |ds| && i < |ds| && results[i].feedback == ds[i].feedback
  }

  lemma {:induction false} AdvisedLevels(w: World, g: Gateway, p: Party, ops: seq<Operation>, ds: seq<Decided>, i: nat)
    requires |ops| == |ds| && AllCommittable(ds) && i < |ds|
    ensures AtLevels(AdviseBatch(w, g, p, ops, ds).1.results, ds, i)
  {
    if FirstKill(ds) < |ds| {
      RefusalsAnswerAtTheirLevel(w, g, p, ops, ds, Some(Stamp(None, Judged, None, None)), RefusalClosings(ds), i);
    } else {
      ForwardedLevels(w, g, p, ops, ds, i, Translate(ds, g.setup, Advisory));
    }
  }

  lemma {:induction false} ForwardedLevels(w: World, g: Gateway, p: Party, ops: seq<Operation>, ds: seq<Decided>, i: nat, items: seq<Advised>)
    requires |ops| == |ds| && AllCommittable(ds) && i < |ds|
    requires FirstKill(ds) == |ds| && items == Translate(ds, g.setup, Advisory)
    ensures AtLevels(AdviseBatch(w, g, p, ops, ds).1.results, ds, i)
  {
    AdviseBatchIs(w, g, p, ops, ds, items);
    CommitsAnswerAtTheirLevel(w, g, p, Advisory, ops, TranslatedOf(items), StampsOf(items, BatchNote(ds)), i);
    TranslationTells(ds[i], g.setup);
  }

  lemma {:induction false} CommittedLevels(w: World, g: Gateway, p: Party, ops: seq<Operation>, ds: seq<Decided>, i: nat)
    requires |ops| == |ds| && AllCommittable(ds) && i < |ds|
    ensures AtLevels(CommitBatch(w, g, p, ops, ds).1.results, ds, i)
  {
    var pass := ReserveAll(w, g, ds);
    ReservationRuns.ReserveAllKeepsVerdicts(w, g, ds);
    if pass.refusal.Some? {
      UnreservedLevels(w, g, p, ops, ds, i, pass);
    } else {
      CommitsAnswerAtTheirLevel(pass.world, g, p, Enforced, ops, pass.ds, NoStamps(|ds|), i);
    }
  }

  lemma {:induction false} UnreservedLevels(w: World, g: Gateway, p: Party, ops: seq<Operation>, ds: seq<Decided>, i: nat, pass: PrePass)
    requires |ops| == |ds| && AllCommittable(ds) && i < |ds|
    requires pass == ReserveAll(w, g, ds) && pass.refusal.Some?
    requires i < |pass.ds| ==> pass.ds[i].feedback == ds[i].feedback
    ensures AtLevels(CommitBatch(w, g, p, ops, ds).1.results, ds, i)
  {
    var held := pass.ds + ds[|pass.ds|..];
    assert held[i].feedback == ds[i].feedback;
    RefusalsAnswerAtTheirLevel(ReleaseAll(pass.world, g, pass.ds), g, p, ops, held, None,
                               ReservationClosings(held, |pass.ds|, pass.refusal.value), i);
  }
}
