/** The value types the decision pipeline, the gates and the stores share. */
module Vocabulary {

  datatype Option<+T> = None | Some(value: T)

  // ---- frozen vocabulary ---------------------------------------------------

  datatype Kind = Observe | Assess | Record | Effect | Transition

  datatype Decision = Allow | Hold | Deny | Halt

  datatype Outcome = Pass | Fail | Hold

  datatype Mode = Enforced | Advisory

  datatype Coverage = Judged | Unjudged

  datatype RetryClass = Retryable | Terminal | Escalate

  datatype Feedback = Code | CodeFields | CodeEvidence

  datatype FailureMode = Closed | Open

  datatype Reversibility = Reversible | Compensable | Irreversible

  datatype Capability = Transactional | Window

  /** The gates of the engine's table, and the built-in transition guard. */
  datatype Gate =
    | ValueLimit | RequireExplanation | WindowGate | Allowlist | Denylist | Precondition | EmissionControl
    | RequireMatch | Disclosure | Rate | Quota | QuantityCap | SpendLimit | ContentCheck
    | RequireApproval | DualAuthorization | TransitionGuard

  /** The deciding rule of a result or record: one constructor per spelling the source gives it. */
  datatype Rule =
    | AllowRule | DenyRule | DefaultDeny | UnknownAction
    | ScopeUnavailable | ScopeDenied
    | GateRule(gate: Gate) | HoldUnresolvable | GateFail | GateHold
    | KillOrder(id: string) | KillUnavailable
    | FreshnessUnavailable | OutboxUnavailable | ReservationUnavailable | NoMatch
    | ConnectorUnavailable | DigestMismatch
    | AdvisoryRule | ItemsOverCeiling

  /** What happened to the action, as the audit record says it. */
  datatype Fate = NotExecuted | Halted | Staged | HoldDeduped | BatchRefused | Succeeded | Failure | Withdrawn

  datatype ReasonCode = NoCode | CheckCode(code: string) | RuleCode(rule: Rule)

  /** An intent-side path a gate compared: one of the call's own `data` fields, or another namespace. */
  datatype FieldRef = DataField(parts: seq<string>) | WorldField(path: string)

  datatype ScopeNote = ScopeNote(resource: string, predicate_: string)

  // ---- requests ------------------------------------------------------------

  /** JSON-like payload values; every number is a real. */
  datatype Value =
    | Null
    | Bool(b: bool)
    | Num(n: real)
    | Str(s: string)
    | List(items: seq<Value>)
    | Rec(fields: map<string, Value>)

  type Payload = map<string, Value>

  datatype RawCall = RawCall(resource: string, action: Option<string>, data: Payload)

  datatype ItemsDef = ItemsDef(field: string, independent: bool, key: string, maxItems: Option<int>)

  datatype ResolvedAction = ResolvedAction(
    kind: Kind,
    resource: string,
    action: Option<string>,
    data: Payload,
    reversibility: Reversibility,
    connector: string,
    fromStates: seq<string>,
    items: Option<ItemsDef>)

  datatype Actor = Actor(id: string, roles: set<string>, claims: Payload)

  datatype Session = Session(id: string, correlation: Option<string>)

  /** What the gateway knows about the request besides the agent's call. */
  datatype RequestEnv = RequestEnv(resource: Payload, context: Payload, now: Option<int>)

  /** The audit's run key: the correlation id, or the session id when that is absent or empty. */
  function RunKey(session: Session): string {
    if session.correlation.Some? && session.correlation.value != ""
    then session.correlation.value
    else session.id
  }

  // ---- gate results --------------------------------------------------------

  /** What a requireMatch PASS tells the staging commit to reserve. */
  datatype ConsumePlan = ConsumePlan(consume: Consume, capability: Capability)

  /** What settling marks as spent; a pure verification spends nothing. */
  datatype Consume = Nothing | Path(path: string)

  datatype Evidence =
    | Match(registry: string, refs: seq<string>, candidates: nat, plan: Option<ConsumePlan>)
    | Details(details: Payload)

  datatype GateResult = GateResult(
    gate: Gate,
    outcome: Outcome,
    code: string,
    source: string,
    evidence: Option<Evidence>,
    retryClass: Option<RetryClass>,
    fields: seq<FieldRef>)

  /** What one holding gate demands before its staged row may be promoted. */
  datatype ReleaseContract = ReleaseContract(
    gate: Gate,
    source: string,
    quorum: int,
    dualAuth: bool,
    distinctFromActor: bool,
    approvers: seq<string>,
    timeout: Option<real>,
    onTimeout: string,
    reasonCode: string,
    evidence: Option<Evidence>,
    satisfiedBy: seq<string>)
  {
    predicate Satisfied() {
      |satisfiedBy| >= quorum
    }
  }

  /** `approval` of the source (the legacy mirror of the first contract) is not kept. */
  datatype GateOutcome = GateOutcome(
    outcome: Outcome,
    results: seq<GateResult>,
    reason: Option<Rule>,
    releases: seq<ReleaseContract>)

  // ---- results and records -------------------------------------------------

  datatype Advice = Advice(
    decision: Decision,
    rule: Rule,
    reason: Reason,
    question: Option<HoldQuestion>)

  /** The identity of a hold: the action and, per holding gate, what it asked about. */
  datatype HoldFacet = HoldFacet(
    gate: Gate, code: string, evidence: string, compared: seq<(FieldRef, string)>)

  datatype HoldQuestion = HoldQuestion(
    resource: string, action: Option<string>, facets: seq<HoldFacet>)

  datatype Claim = Claim(
    registry: string, ref: string, consume: Consume, capability: Capability, intent: nat)

  datatype ClaimState = ClaimReserved | ClaimConsumed | ClaimConsumeRefused | ClaimConsumeUnavailable

  datatype Consumption = Consumption(state: ClaimState, claim: Claim)

  datatype ApprovalNote = ApprovalNote(ticket: Option<nat>, releases: seq<ReleaseContract>)

  datatype BatchAdvice = BatchAdvice(failingIndex: nat, decision: Decision)

  datatype ItemAdviceEntry = ItemAdviceEntry(item: string, advice: Advice, coverage: Coverage)

  datatype ItemAdvice = ItemAdvice(wouldApply: int, wouldRefuse: nat, items: seq<ItemAdviceEntry>)

  /** What an advisory deployment counts on a read it did not narrow. */
  datatype ScopeCount =
    | OutputNotRows | RowsNotAttributes | PredicateRaised
    | Measured(removed: nat, evaluated: nat, returned: nat)

  /** Why, for the agent: the machine-readable code and what to do about it. */
  datatype Reason = Reason(code: ReasonCode, retryClass: Option<RetryClass>)

  /** Who attempted what. */
  datatype Subject = Subject(
    agent: string,
    actor: string,
    run: string,
    kind: Option<Kind>,
    resource: string,
    action: Option<string>,
    parameters: Payload)

  /** What was decided about it and what then happened. */
  datatype Finding = Finding(
    decision: Decision,
    rule: Rule,
    reason: Reason,
    gates: seq<GateResult>,
    scopeApplied: seq<ScopeNote>,
    outcome: Fate,
    approval: Option<ApprovalNote>,
    consumption: Option<Consumption>,
    scopeWouldRemove: Option<ScopeCount>)

  /** Which deployment wrote the record, and what enforcement would have done. */
  datatype Label = Label(
    enforcement: Mode,
    advised: Option<Advice>,
    coverage: Coverage,
    batchAdvice: Option<BatchAdvice>,
    itemAdvice: Option<ItemAdvice>)

  datatype AuditRecord = AuditRecord(subject: Subject, finding: Finding, label_: Label)

  datatype ItemVerdict = ItemVerdict(
    item: string,
    decision: Decision,
    rule: Rule,
    reason: Reason,
    ticket: Option<nat>)

  datatype EvalResult = EvalResult(
    decision: Decision,
    rule: Rule,
    gates: seq<GateResult>,
    reason: Reason,
    feedback: Feedback,
    ticket: Option<nat>,
    output: Option<Value>,
    scopeApplied: seq<ScopeNote>,
    items: seq<ItemVerdict>,
    applied: seq<string>)

  datatype BatchResult = BatchResult(
    decision: Decision, failingIndex: Option<nat>, results: seq<EvalResult>)

  predicate Refused(decision: Decision) {
    decision == Decision.Deny || decision == Decision.Halt
  }

  /** Dependency failures: an irreversible effect always fails closed, else `failureMode` decides. */
  predicate ShouldFailClosed(resolved: ResolvedAction, mode: FailureMode) {
    || (resolved.kind == Effect && resolved.reversibility == Irreversible)
    || mode == Closed
  }

  // ---- reason classes ------------------------------------------------------

  function GateClass(gate: Gate): RetryClass {
    match gate
    case ValueLimit | Rate | Quota | QuantityCap | SpendLimit | WindowGate | ContentCheck | RequireExplanation => Retryable
    case _ => Terminal
  }

  /** Every structural rule of the pipeline is terminal but an unresolvable hold. */
  function RuleClass(rule: Rule): RetryClass {
    if rule == HoldUnresolvable then Escalate else Terminal
  }

  /** The last result of `gate` in the trace that did not pass. */
  function Deciding(gates: seq<GateResult>, gate: Gate): Option<GateResult> {
    if gates == [] then None
    else
      var last := gates[|gates| - 1];
      if last.gate == gate && last.outcome != Outcome.Pass then Some(last)
      else Deciding(gates[..|gates| - 1], gate)
  }

  function Classify(decision: Decision, rule: Rule, gates: seq<GateResult>): Reason {
    if decision == Decision.Allow then Reason(NoCode, None)
    else if rule.GateRule? then
      match Deciding(gates, rule.gate)
      case Some(g) =>
        var code := if g.code != "" then CheckCode(g.code) else RuleCode(rule);
        if g.retryClass.Some? then Reason(code, g.retryClass)
        else if g.outcome == Outcome.Hold then Reason(code, None)
        else Reason(code, Some(GateClass(rule.gate)))
      case None => Reason(RuleCode(rule), Some(GateClass(rule.gate)))
    else Reason(RuleCode(rule), Some(RuleClass(rule)))
  }
}
