/** What a decision depends on, step by step, and that enforcement never touches an action nobody authorized. */
module Verdicts {
  import opened Vocabulary
  import opened Stores
  import opened Holds
  import opened Pipeline
  import opened Enforcement
  import Kill

  // ---- the steps, each on its own ---------------------------------------------------------

  /** The attempted call with the index its decision starts at and the records it may read. */
  datatype Question = Question(call: RawCall, party: Party, env: RequestEnv, at: nat, history: seq<AuditRecord>)

  function DecideOn(d: Deps, q: Question): Decided {
    Decide(d, q.call, q.party, q.env, q.at, q.history)
  }

  predicate Known(d: Deps, q: Question) {
    d.resolve(q.call).Some?
  }

  /** The agent the decision is about: the policy's, or the deployment's while there is none. */
  function AgentOf(d: Deps): string {
    match d.policy
    case None => d.agent
    case Some(policy) => policy.agent
  }

  /** A failed dependency does not refuse: only in a policy's open mode, and never an irreversible effect. */
  predicate Admits(d: Deps, action: ResolvedAction) {
    && d.policy.Some? && d.policy.value.failureMode == Open
    && (action.kind == Effect ==> action.reversibility != Irreversible)
  }

  /** An order the kill store answers with halts this target. */
  ghost predicate Ordered(d: Deps, at: nat, target: Kill.Target) {
    && d.kill.Some? && d.kill.value(at).Some?
    && exists i :: 0 <= i < |d.kill.value(at).value| && Kill.OrderMatches(d.kill.value(at).value[i], target, d.killPredicate)
  }

  ghost predicate StoppedEarly(d: Deps, q: Question) {
    Ordered(d, q.at, Kill.Target(AgentOf(d), q.party.session.id, None, None))
  }

  predicate Authorized(d: Deps, action: ResolvedAction) {
    d.policy.Some? && d.policy.value.authorize(action).allowed
  }

  function ScopeOf(d: Deps, action: ResolvedAction): Option<string> {
    match d.scopes
    case None => None
    case Some(scopeFor) => scopeFor(action.resource)
  }

  /** An effect under a scope must have its target visible, when there is a connector to ask. */
  predicate InSight(d: Deps, q: Question, action: ResolvedAction) {
    ScopeOf(d, action).Some? && action.kind == Effect && d.fetchTarget.Some? ==>
      var probe := d.fetchTarget.value(q.at + 1, action, ScopeOf(d, action).value, q.party.actor);
      probe == Visible || (probe == Raised && Admits(d, action))
  }

  function GatesOf(d: Deps, q: Question, action: ResolvedAction): Option<GateOutcome> {
    match d.gates
    case None => None
    case Some(evaluate) => Some(evaluate(q.at + 2, action, q.party.actor, q.party.session, q.env, q.history))
  }

  predicate GatesPass(d: Deps, q: Question, action: ResolvedAction) {
    GatesOf(d, q, action).Some? ==> GatesOf(d, q, action).value.outcome == Outcome.Pass
  }

  predicate GatesHold(d: Deps, q: Question, action: ResolvedAction) {
    GatesOf(d, q, action).Some? && GatesOf(d, q, action).value.outcome == Outcome.Hold
  }

  function FullTarget(d: Deps, q: Question, action: ResolvedAction): Kill.Target {
    Kill.Target(AgentOf(d), q.party.session.id, Some(action), Some(q.party.actor))
  }

  /** The last check halts: an order matches the resolved action, or the store is unreadable and nothing admits that. */
  ghost predicate StoppedLate(d: Deps, q: Question, action: ResolvedAction) {
    || Ordered(d, q.at + 3, FullTarget(d, q, action))
    || (d.kill.Some? && d.kill.value(q.at + 3).None? && !Admits(d, action))
  }

  /** Everything before the gates lets the action through. */
  ghost predicate ReachesGates(d: Deps, q: Question) {
    && Known(d, q) && !StoppedEarly(d, q)
    && Authorized(d, d.resolve(q.call).value) && InSight(d, q, d.resolve(q.call).value)
  }

  // ---- the four decisions -------------------------------------------------------------------

  lemma OrderedIsFirstMatch(orders: seq<Kill.Order>, target: Kill.Target, eval: (string, Kill.Target) -> Option<bool>)
    ensures Kill.FirstMatch(orders, target, eval).Some? <==>
      exists i :: 0 <= i < |orders| && Kill.OrderMatches(orders[i], target, eval)
  {
    Kill.FirstMatchIsFirst(orders, target, eval);
  }

  lemma KillsAreOrders(d: Deps, q: Question)
    ensures d.kill.Some? && d.kill.value(q.at).Some? ==>
      (StoppedEarly(d, q) <==>
         Kill.FirstMatch(d.kill.value(q.at).value, Kill.Target(AgentOf(d), q.party.session.id, None, None), d.killPredicate).Some?)
    ensures Known(d, q) && d.kill.Some? && d.kill.value(q.at + 3).Some? ==>
      var action := d.resolve(q.call).value;
      (Ordered(d, q.at + 3, FullTarget(d, q, action)) <==>
         Kill.FirstMatch(d.kill.value(q.at + 3).value, FullTarget(d, q, action), d.killPredicate).Some?)
  {
    if d.kill.Some? && d.kill.value(q.at).Some? {
      OrderedIsFirstMatch(d.kill.value(q.at).value, Kill.Target(AgentOf(d), q.party.session.id, None, None), d.killPredicate);
    }
    if Known(d, q) && d.kill.Some? && d.kill.value(q.at + 3).Some? {
      OrderedIsFirstMatch(d.kill.value(q.at + 3).value, FullTarget(d, q, d.resolve(q.call).value), d.killPredicate);
    }
  }

  /** ALLOW means every step let the action through, and nothing else does. */
  lemma AllowedExactly(d: Deps, q: Question)
    ensures DecideOn(d, q).decision == Decision.Allow <==>
      && ReachesGates(d, q)
      && var action := d.resolve(q.call).value;
         GatesPass(d, q, action) && !StoppedLate(d, q, action)
  {
    KillsAreOrders(d, q);
  }

  /** HOLD means the gates were reached and held; the kill switch is not asked again then. */
  lemma HeldExactly(d: Deps, q: Question)
    ensures DecideOn(d, q).decision == Decision.Hold <==> ReachesGates(d, q) && GatesHold(d, q, d.resolve(q.call).value)
  {
    KillsAreOrders(d, q);
  }

  /** HALT is the kill switch's alone, before the policy or after the gates passed. */
  lemma HaltedExactly(d: Deps, q: Question)
    ensures DecideOn(d, q).decision == Decision.Halt <==>
      && Known(d, q)
      && (StoppedEarly(d, q)
          || (ReachesGates(d, q) && GatesPass(d, q, d.resolve(q.call).value) && StoppedLate(d, q, d.resolve(q.call).value)))
  {
    KillsAreOrders(d, q);
  }

  // ---- why, and what the verdict carries -------------------------------------------------------

  ghost predicate FirstOrder(orders: seq<Kill.Order>, i: nat, target: Kill.Target, eval: (string, Kill.Target) -> Option<bool>)
    requires i < |orders|
  {
    Kill.OrderMatches(orders[i], target, eval) && forall k | 0 <= k < i :: !Kill.OrderMatches(orders[k], target, eval)
  }

  /** It is halted in the name of the first order that matches. */
  ghost predicate NamesOrder(d: Deps, at: nat, target: Kill.Target, rule: Rule) {
    d.kill.Some? && d.kill.value(at).Some? && var orders := d.kill.value(at).value;
      exists i :: 0 <= i < |orders| && FirstOrder(orders, i, target, d.killPredicate) && rule == KillOrder(orders[i].id)
  }

  lemma OrderIsNamed(d: Deps, at: nat, target: Kill.Target, rule: Rule)
    requires d.kill.Some? && d.kill.value(at).Some? && Kill.FirstMatch(d.kill.value(at).value, target, d.killPredicate).Some?
    requires rule == KillOrder(Kill.FirstMatch(d.kill.value(at).value, target, d.killPredicate).value.id)
    ensures NamesOrder(d, at, target, rule)
  {
    var orders := d.kill.value(at).value;
    Kill.FirstMatchIsFirst(orders, target, d.killPredicate);
    var i :| 0 <= i < |orders| && Kill.FirstMatch(orders, target, d.killPredicate) == Some(orders[i])
      && Kill.OrderMatches(orders[i], target, d.killPredicate)
      && forall j | 0 <= j < i :: !Kill.OrderMatches(orders[j], target, d.killPredicate);
    assert FirstOrder(orders, i, target, d.killPredicate);
  }

  /** The rule before the gates: each refusal has its own. */
  lemma RefusedEarly(d: Deps, q: Question)
    ensures var v := DecideOn(d, q);
      && (!Known(d, q) ==> v.decision == Decision.Deny && v.rule == UnknownAction)
      && (Known(d, q) && StoppedEarly(d, q) ==>
            v.decision == Decision.Halt && NamesOrder(d, q.at, Kill.Target(AgentOf(d), q.party.session.id, None, None), v.rule))
      && (Known(d, q) && !StoppedEarly(d, q) && d.policy.None? ==> v.decision == Decision.Deny && v.rule == DefaultDeny)
  {
    KillsAreOrders(d, q);
    if Known(d, q) && StoppedEarly(d, q) {
      OrderIsNamed(d, q.at, Kill.Target(AgentOf(d), q.party.session.id, None, None), DecideOn(d, q).rule);
    }
  }

  /** Without authorization the answer is the policy's refusal; without sight of the target, the scope's. */
  lemma RefusedByPolicy(d: Deps, q: Question)
    requires Known(d, q) && !StoppedEarly(d, q) && d.policy.Some?
    ensures var v, action := DecideOn(d, q), d.resolve(q.call).value;
      && (!d.policy.value.authorize(action).allowed ==>
            v.decision == Decision.Deny && v.rule == d.policy.value.authorize(action).rule)
      && (Authorized(d, action) && !InSight(d, q, action) ==>
            && v.decision == Decision.Deny
            && v.rule == if d.fetchTarget.value(q.at + 1, action, ScopeOf(d, action).value, q.party.actor) == NotVisible
                         then ScopeDenied else ScopeUnavailable)
  {
    KillsAreOrders(d, q);
  }

  /** From the gates on: the gates' reason, the order's name, or the rule that allowed it. */
  lemma RuleFromGates(d: Deps, q: Question)
    requires ReachesGates(d, q)
    ensures var v, action := DecideOn(d, q), d.resolve(q.call).value;
      var gates := GatesOf(d, q, action);
      && (!GatesPass(d, q, action) && !GatesHold(d, q, action) ==>
            v.decision == Decision.Deny && v.rule == if gates.value.reason.Some? then gates.value.reason.value else GateFail)
      && (GatesHold(d, q, action) ==> v.rule == if gates.value.reason.Some? then gates.value.reason.value else GateHold)
      && (GatesPass(d, q, action) && StoppedLate(d, q, action) ==>
            NamesOrder(d, q.at + 3, FullTarget(d, q, action), v.rule) || (d.kill.value(q.at + 3).None? && v.rule == KillUnavailable))
      && (GatesPass(d, q, action) && !StoppedLate(d, q, action) ==> v.rule == d.policy.value.authorize(action).rule)
  {
    KillsAreOrders(d, q);
    var action := d.resolve(q.call).value;
    if GatesPass(d, q, action) && Ordered(d, q.at + 3, FullTarget(d, q, action)) {
      OrderIsNamed(d, q.at + 3, FullTarget(d, q, action), DecideOn(d, q).rule);
    }
  }

  /** A verdict is about its own call, and takes nothing in hand. */
  lemma VerdictIsAbout(d: Deps, q: Question)
    ensures var v := DecideOn(d, q);
      && v.call == q.call && v.resolved == d.resolve(q.call) && v.claim.None? && v.measure.None?
      && v.outcome == (if v.decision == Decision.Halt then Halted else NotExecuted)
  {
  }

  /** It carries the gates' whole trace once they were asked. */
  lemma VerdictTrace(d: Deps, q: Question)
    ensures DecideOn(d, q).gates
         == if ReachesGates(d, q) && d.gates.Some? then GatesOf(d, q, d.resolve(q.call).value).value.results else []
  {
    KillsAreOrders(d, q);
  }

  /** And their contracts exactly when it holds. */
  lemma VerdictContracts(d: Deps, q: Question)
    ensures DecideOn(d, q).releases
         == if ReachesGates(d, q) && GatesHold(d, q, d.resolve(q.call).value)
            then GatesOf(d, q, d.resolve(q.call).value).value.releases else []
  {
    KillsAreOrders(d, q);
  }

  /** It narrows by the scope exactly when it got past it, and names the scope from authorization on. */
  lemma VerdictScope(d: Deps, q: Question)
    ensures var v := DecideOn(d, q);
      && v.scope == (if ReachesGates(d, q) then ScopeOf(d, d.resolve(q.call).value) else None)
      && v.scopeApplied == (if Known(d, q) && !StoppedEarly(d, q) && Authorized(d, d.resolve(q.call).value)
                               && ScopeOf(d, d.resolve(q.call).value).Some?
                            then [ScopeNote(d.resolve(q.call).value.resource, ScopeOf(d, d.resolve(q.call).value).value)] else [])
  {
    KillsAreOrders(d, q);
  }

  /** The agent is answered at the level the policy sets for the action, once the policy was consulted. */
  lemma VerdictFeedback(d: Deps, q: Question)
    ensures DecideOn(d, q).feedback
         == if Known(d, q) && !StoppedEarly(d, q) && d.policy.Some?
            then d.policy.value.feedback(d.resolve(q.call).value) else CodeFields
  {
    KillsAreOrders(d, q);
  }
}
