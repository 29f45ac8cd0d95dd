/**
 * One decided operation, from the attempted call to the audited terminal result:
 * `Decide` is steps 1 to 5, `Commit` is steps 6 and 7.
 */
module Pipeline {
  import opened Vocabulary
  import opened Stores
  import opened Holds
  import Kill

  // ---- what is injected ------------------------------------------------------

  datatype Probe = Raised | NotVisible | Visible

  datatype Authorization = Authorization(allowed: bool, rule: Rule)

  datatype Policy = Policy(
    agent: string,
    failureMode: FailureMode,
    authorize: ResolvedAction -> Authorization,
    feedback: ResolvedAction -> Feedback)

  /** The decide phase's dependencies; an absent one is None. Each is asked with the index of the call. */
  datatype Deps = Deps(
    resolve: RawCall -> Option<ResolvedAction>,
    policy: Option<Policy>,
    agent: string,
    gates: Option<(nat, ResolvedAction, Actor, Session, RequestEnv, seq<AuditRecord>) -> GateOutcome>,
    scopes: Option<string -> Option<string>>,
    fetchTarget: Option<(nat, ResolvedAction, string, Actor) -> Probe>,
    kill: Option<nat -> Option<seq<Kill.Order>>>,
    killPredicate: (string, Kill.Target) -> Option<bool>)
  {
    function AgentName(): string {
      if policy.Some? then policy.value.agent else agent
    }

    function FailureModeOf(): FailureMode {
      if policy.Some? then policy.value.failureMode else Closed
    }
  }

  datatype Freshness = Freshness(defaultTtl: int, irreversibleTtl: int)

  /** The commit phase's dependencies and configuration. */
  datatype Setup = Setup(
    outbox: bool,
    connectors: bool,
    mismatch: ResolvedAction -> bool,          // a pinned connector that no longer matches its digest
    freshness: Option<Freshness>,
    adapters: Option<set<string>>,             // obligation registries with an adapter
    dedupeWindow: Option<int>,
    text: Rendering,
    inScope: (string, Payload, Actor) -> Option<bool>,  // a scope predicate on a row; None when it raises
    measureCap: nat)

  datatype Party = Party(actor: Actor, session: Session)

  datatype ScopeMeasure = ScopeMeasure(predicate_: string, shown: Option<ScopeNote>, cap: nat)

  /** A steps 1 to 5 verdict: nothing has been staged, executed or audited yet. */
  datatype Decided = Decided(
    call: RawCall,
    resolved: Option<ResolvedAction>,
    decision: Decision,
    rule: Rule,
    outcome: Fate,
    gates: seq<GateResult>,
    releases: seq<ReleaseContract>,
    scope: Option<string>,
    scopeApplied: seq<ScopeNote>,
    measure: Option<ScopeMeasure>,
    feedback: Feedback,
    claim: Option<Claim>)

  /** ALLOW and HOLD always carry the resolved action. */
  predicate Committable(d: Decided) {
    !Refused(d.decision) ==> d.resolved.Some?
  }

  function Verdict(call: RawCall, resolved: Option<ResolvedAction>, decision: Decision, rule: Rule): Decided {
    Decided(call, resolved, decision, rule, NotExecuted, [], [], None, [], None, CodeFields, None)
  }

  // ---- steps 1 to 5 ------------------------------------------------------------

  /** The calls one decision may make: the early kill check, the scope probe, the gates and the kill check. */
  const DECIDE_CALLS := 4

  function Decide(d: Deps, call: RawCall, p: Party, env: RequestEnv, at: nat, history: seq<AuditRecord>): Decided {
    match d.resolve(call)
    case None => Verdict(call, None, Decision.Deny, UnknownAction)
    case Some(resolved) =>
      var early := EarlyKill(d, p, at);
      if early.Some? then
        Verdict(call, Some(resolved), Decision.Halt, KillOrder(early.value.id)).(outcome := Halted)
      else if d.policy.None? then Verdict(call, Some(resolved), Decision.Deny, DefaultDeny)
      else
        var policy := d.policy.value;
        var authz := policy.authorize(resolved);
        var base := Verdict(call, Some(resolved), Decision.Deny, authz.rule).(feedback := policy.feedback(resolved));
        if !authz.allowed then base else DecideScope(d, base, resolved, p, env, at, history)
  }

  /** The pre-check before any policy work; an unreadable store is left to step 5. */
  function EarlyKill(d: Deps, p: Party, at: nat): Option<Kill.Order> {
    if d.kill.None? then None
    else
      match d.kill.value(at)
      case None => None
      case Some(orders) =>
        Kill.FirstMatch(orders, Kill.Target(d.AgentName(), p.session.id, None, None), d.killPredicate)
  }

  function DecideScope(d: Deps, base: Decided, resolved: ResolvedAction, p: Party, env: RequestEnv, at: nat,
                       history: seq<AuditRecord>): Decided {
    var scope := if d.scopes.Some? then d.scopes.value(resolved.resource) else None;
    if scope.None? then DecideGates(d, base, resolved, p, env, at, history)
    else
      var scoped := base.(scopeApplied := [ScopeNote(resolved.resource, scope.value)]);
      var refused := ScopeRefusal(d, resolved, scope.value, p.actor, at);
      if refused.Some? then scoped.(rule := refused.value)
      else DecideGates(d, scoped.(scope := scope), resolved, p, env, at, history)
  }

  /** The effect pre-check; without connectors, or for any other kind, there is none. */
  function ScopeRefusal(d: Deps, resolved: ResolvedAction, scope: string, actor: Actor, at: nat): Option<Rule> {
    if resolved.kind != Effect || d.fetchTarget.None? then None
    else
      match d.fetchTarget.value(at + 1, resolved, scope, actor)
      case Raised => if ShouldFailClosed(resolved, d.FailureModeOf()) then Some(ScopeUnavailable) else None
      case NotVisible => Some(ScopeDenied)
      case Visible => None
  }

  function DecideGates(d: Deps, base: Decided, resolved: ResolvedAction, p: Party, env: RequestEnv, at: nat,
                       history: seq<AuditRecord>): Decided {
    if d.gates.None? then DecideKill(d, base.(decision := Decision.Allow), resolved, p, at)
    else
      var g := d.gates.value(at + 2, resolved, p.actor, p.session, env, history);
      var traced := base.(gates := g.results);
      if g.outcome == Outcome.Fail then
        traced.(rule := if g.reason.Some? then g.reason.value else GateFail)
      else if g.outcome == Outcome.Hold then
        traced.(decision := Decision.Hold, rule := if g.reason.Some? then g.reason.value else GateHold,
                releases := g.releases)
      else DecideKill(d, traced.(decision := Decision.Allow), resolved, p, at)
  }

  /** The chokepoint check on an otherwise allowed action. */
  function DecideKill(d: Deps, allowed: Decided, resolved: ResolvedAction, p: Party, at: nat): Decided {
    if d.kill.None? then allowed
    else
      match d.kill.value(at + 3)
      case None =>
        if ShouldFailClosed(resolved, d.FailureModeOf())
        then allowed.(decision := Decision.Halt, rule := KillUnavailable, outcome := Halted)
        else allowed
      case Some(orders) =>
        var target := Kill.Target(d.AgentName(), p.session.id, Some(resolved), Some(p.actor));
        var order := Kill.FirstMatch(orders, target, d.killPredicate);
        if order.None? then allowed
        else allowed.(decision := Decision.Halt, rule := KillOrder(order.value.id), outcome := Halted)
  }

  // ---- the audit record every terminal path writes ----------------------------

  /** What an advisory deployment stamps on the records it writes; None under enforcement. */
  datatype Stamp = Stamp(
    advice: Option<Advice>,
    coverage: Coverage,
    batchAdvice: Option<BatchAdvice>,
    itemAdvice: Option<ItemAdvice>)

  function LabelOf(stamp: Option<Stamp>): Label {
    match stamp
    case None => Label(Enforced, None, Judged, None, None)
    case Some(s) => Label(Advisory, s.advice, s.coverage, s.batchAdvice, s.itemAdvice)
  }

  /** The rule a record names: under advisory an ALLOW names what enforcement would have decided on. */
  function RecordedRule(c: Closing, stamp: Option<Stamp>): Rule {
    if stamp.Some? && stamp.value.advice.Some? && c.decision == Decision.Allow
    then stamp.value.advice.value.rule
    else c.rule
  }

  /** One commit's surroundings. `mode` is only a label put on staged rows. */
  datatype Job = Job(
    party: Party,
    env: RequestEnv,
    agent: string,
    failureMode: FailureMode,
    setup: Setup,
    outside: Outside,
    mode: Mode,
    stamp: Option<Stamp>)

  /** What a terminal path says beyond the operation it is about. */
  datatype Closing = Closing(
    decision: Decision,
    rule: Rule,
    outcome: Fate,
    ticket: Option<nat>,
    output: Option<Value>,
    approval: Option<ApprovalNote>,
    consumption: Option<Consumption>,
    count: Option<ScopeCount>)

  function Close(decision: Decision, rule: Rule, outcome: Fate): Closing {
    Closing(decision, rule, outcome, None, None, None, None, None)
  }

  function SubjectOf(j: Job, d: Decided): Subject {
    Subject(
      j.agent, j.party.actor.id, RunKey(j.party.session),
      if d.resolved.Some? then Some(d.resolved.value.kind) else None,
      if d.resolved.Some? then d.resolved.value.resource else d.call.resource,
      if d.resolved.Some? then d.resolved.value.action else d.call.action,
      d.call.data)
  }

  function RecordOf(j: Job, d: Decided, c: Closing, reason: Reason): AuditRecord {
    AuditRecord(
      SubjectOf(j, d),
      Finding(c.decision, RecordedRule(c, j.stamp), reason, d.gates, d.scopeApplied, c.outcome, c.approval,
              c.consumption, c.count),
      LabelOf(j.stamp))
  }

  /** Every terminal path ends here: one record, one result. */
  function Finish(w: World, j: Job, d: Decided, c: Closing): (World, EvalResult) {
    var reason := Classify(c.decision, c.rule, d.gates);
    (Write(w, RecordOf(j, d, c, reason)),
     EvalResult(c.decision, c.rule, d.gates, reason, CodeFields, c.ticket, c.output, d.scopeApplied, [], []))
  }

  // ---- reservations -------------------------------------------------------------

  /** The plan of the first requireMatch PASS that matched a consumable obligation. */
  function ClaimPlan(gates: seq<GateResult>): Option<(string, string, ConsumePlan)> {
    if gates == [] then None
    else
      var g := gates[0];
      if && g.gate == RequireMatch && g.outcome == Outcome.Pass
         && g.evidence.Some? && g.evidence.value.Match? && g.evidence.value.plan.Some?
         && g.evidence.value.plan.value.consume.Path?
         && g.evidence.value.refs != []
      then Some((g.evidence.value.registry, g.evidence.value.refs[0], g.evidence.value.plan.value))
      else ClaimPlan(gates[1..])
  }

  datatype Reservation = Held(claim: Claim) | NoneNeeded | Rejected(rule: Rule)

  function ReserveClaim(w: World, s: Setup, outside: Outside, plan: (string, string, ConsumePlan)): (r: (World, Reservation))
    ensures !r.1.NoneNeeded?
  {
    var (registry, ref, consume) := plan;
    if s.adapters.None? || registry !in s.adapters.value then (w, Rejected(ReservationUnavailable))
    else
      var claim := Claim(registry, ref, consume.consume, consume.capability, w.nextId);
      var (after, answer) := AdapterReserve(w.(nextId := w.nextId + 1), outside, KeyOf(claim), claim.intent);
      match answer
      case Granted => (after, Held(claim))
      case Declined => (after, Rejected(NoMatch))
      case Unanswered => (after, Rejected(ReservationUnavailable))
  }

  /** The batch's reservation if there is one, else reserve what the gates matched. */
  function ClaimFor(w: World, j: Job, d: Decided): (World, Reservation) {
    if d.claim.Some? then (w, Held(d.claim.value))
    else
      match ClaimPlan(d.gates)
      case None => (w, NoneNeeded)
      case Some(plan) => ReserveClaim(w, j.setup, j.outside, plan)
  }

  function ClaimOf(r: Reservation): Option<Claim> {
    if r.Held? then Some(r.claim) else None
  }

  function ReleaseClaim(w: World, s: Setup, outside: Outside, claim: Option<Claim>): World {
    if claim.None? || s.adapters.None? || claim.value.registry !in s.adapters.value then w
    else AdapterRelease(w, outside, KeyOf(claim.value), claim.value.intent)
  }

  function ConsumeClaim(w: World, s: Setup, outside: Outside, claim: Option<Claim>): (World, Option<Consumption>) {
    if claim.None? then (w, None)
    else if s.adapters.None? || claim.value.registry !in s.adapters.value then
      (w, Some(Consumption(ClaimConsumeUnavailable, claim.value)))
    else
      var (after, answer) := AdapterConsume(w, outside, KeyOf(claim.value), claim.value.intent);
      var state :=
        match answer
        case Granted => ClaimConsumed
        case Declined => ClaimConsumeRefused
        case Unanswered => ClaimConsumeUnavailable;
      (after, Some(Consumption(state, claim.value)))
  }

  function ReservedNote(claim: Option<Claim>): Option<Consumption> {
    if claim.Some? then Some(Consumption(ClaimReserved, claim.value)) else None
  }

  // ---- steps 6 and 7 --------------------------------------------------------------

  datatype Expiry = Never | At(when: int) | NoClock

  function StagingExpiry(j: Job, resolved: ResolvedAction): Expiry {
    match j.setup.freshness
    case None => Never
    case Some(f) =>
      if j.env.now.None? then NoClock
      else
        var short := resolved.kind == Effect && resolved.reversibility == Irreversible;
        At(j.env.now.value + (if short then f.irreversibleTtl else f.defaultTtl))
  }

  function ApprovalOf(d: Decided, ticket: Option<nat>): Option<ApprovalNote> {
    if d.releases == [] then None else Some(ApprovalNote(ticket, d.releases))
  }

  function Commit(w: World, j: Job, d: Decided): (World, EvalResult)
    requires Committable(d)
  {
    if Refused(d.decision) then Finish(w, j, d, Close(d.decision, d.rule, d.outcome))
    else if d.decision == Decision.Hold then CommitHold(w, j, d)
    else if d.resolved.value.kind == Effect then CommitEffect(w, j, d)
    else CommitInline(w, j, d)
  }

  function CommitHold(w: World, j: Job, d: Decided): (World, EvalResult)
    requires d.resolved.Some?
  {
    if !j.setup.outbox then
      Finish(w, j, d, Close(Decision.Hold, d.rule, NotExecuted).(approval := ApprovalOf(d, None)))
    else
      var (listed, duplicate) := FindDuplicate(w, j, d);
      if duplicate.None? then StageHold(listed, j, d)
      else
        var (bumped, ok) := BumpAttempts(listed, j.outside, duplicate.value);
        if ok then
          Finish(bumped, j, d,
                   Close(Decision.Hold, d.rule, HoldDeduped)
                   .(ticket := duplicate, approval := ApprovalOf(d, duplicate)))
        else StageHold(bumped, j, d)
  }

  /** The ticket of the open row this hold would repeat; a store outage only disables the search. */
  function FindDuplicate(w: World, j: Job, d: Decided): (World, Option<nat>)
    requires d.resolved.Some?
  {
    var key := HoldKey(j.agent, d.resolved.value, d.gates, j.setup.text);
    if j.setup.dedupeWindow.None? || j.env.now.None? || key.None? then (w, None)
    else
      var (listed, held) := ListHeld(w, j.outside);
      if held.None? then (listed, None)
      else
        var found := FirstDuplicate(held.value, key.value, j.env.now.value, j.setup.dedupeWindow.value, j.setup.text);
        (listed, if found.Some? then Some(found.value.ticket) else None)
  }

  /** The row a commit stages; the outbox puts the ticket on it. */
  function RowFor(w: World, j: Job, d: Decided, state: RowState, expiry: Expiry, claim: Option<Claim>): Row
    requires d.resolved.Some?
  {
    Row(0, state, j.agent, d.resolved.value, j.party.actor, j.party.session, d.gates,
        if state == PendingApproval then d.releases else [],
        claim, if expiry.At? then Some(expiry.when) else None,
        if j.env.now.Some? then j.env.now.value else j.outside.wall(w.calls), 1, j.mode)
  }

  function StageHold(w: World, j: Job, d: Decided): (World, EvalResult)
    requires d.resolved.Some?
  {
    StageRow(w, j, d, PendingApproval)
  }

  function CommitEffect(w: World, j: Job, d: Decided): (World, EvalResult)
    requires d.resolved.Some?
  {
    if j.setup.outbox then StageRow(w, j, d, Pending)
    else Finish(w, j, d, Close(Decision.Allow, d.rule, NotExecuted))
  }

  /** Bound the decision's validity, take the reservation, then stage; a failed staging gives the reservation back. */
  function StageRow(w: World, j: Job, d: Decided, state: RowState): (World, EvalResult)
    requires d.resolved.Some?
  {
    var expiry := StagingExpiry(j, d.resolved.value);
    if expiry == NoClock then Finish(w, j, d, Close(Decision.Deny, FreshnessUnavailable, NotExecuted))
    else
      var (reserved, reservation) := ClaimFor(w, j, d);
      if reservation.Rejected? then
        Finish(reserved, j, d, Close(Decision.Deny, reservation.rule, NotExecuted))
      else
        StageClaimed(reserved, j, d, state, expiry, ClaimOf(reservation))
  }

  /** The second half of staging, once the reservation is held. */
  function StageClaimed(w: World, j: Job, d: Decided, state: RowState, expiry: Expiry, claim: Option<Claim>)
    : (World, EvalResult)
    requires d.resolved.Some?
  {
    var (staged, ticket) := Stage(w, j.outside, RowFor(w, j, d, state, expiry, claim));
    if ticket.None? then
      Finish(ReleaseClaim(staged, j.setup, j.outside, claim), j, d,
             Close(Decision.Deny, OutboxUnavailable, NotExecuted))
    else Finish(staged, j, d, StagedClosing(d, state, ticket, claim))
  }

  function StagedClosing(d: Decided, state: RowState, ticket: Option<nat>, claim: Option<Claim>): Closing {
    if state == PendingApproval then
      Close(Decision.Hold, d.rule, NotExecuted)
      .(ticket := ticket, approval := ApprovalOf(d, ticket), consumption := ReservedNote(claim))
    else
      Close(Decision.Allow, d.rule, Staged).(ticket := ticket, consumption := ReservedNote(claim))
  }

  /** A read or write: reserve, execute, consume in one commit. */
  function CommitInline(w: World, j: Job, d: Decided): (World, EvalResult)
    requires d.resolved.Some?
  {
    var resolved := d.resolved.value;
    if !j.setup.connectors then Finish(w, j, d, Close(Decision.Allow, d.rule, NotExecuted))
    else if j.setup.mismatch(resolved) then
      Finish(w, j, d, Degraded(d, j, DigestMismatch))
    else
      var (reserved, reservation) := ClaimFor(w, j, d);
      if reservation.Rejected? then
        Finish(reserved, j, d, Close(Decision.Deny, reservation.rule, NotExecuted))
      else
        var claim := ClaimOf(reservation);
        var (ran, output) := Execute(reserved, j.outside, Execution(resolved, d.scope, j.party.actor));
        if output.None? then
          Finish(ReleaseClaim(ran, j.setup, j.outside, claim), j, d, Degraded(d, j, ConnectorUnavailable))
        else
          var (consumed, consumption) := ConsumeClaim(ran, j.setup, j.outside, claim);
          Finish(consumed, j, d,
                   Close(Decision.Allow, d.rule, Succeeded)
                   .(output := output, consumption := consumption, count := CountOf(j, d, output.value)))
  }

  /** A connector failure: refuse when it must fail closed, else let the call through with no output. */
  function Degraded(d: Decided, j: Job, rule: Rule): Closing
    requires d.resolved.Some?
  {
    if ShouldFailClosed(d.resolved.value, j.failureMode)
    then Close(Decision.Deny, rule, NotExecuted)
    else Close(Decision.Allow, d.rule, NotExecuted)
  }

  // ---- measuring a scope that was not applied --------------------------------------

  function CountOf(j: Job, d: Decided, output: Value): Option<ScopeCount>
    requires d.resolved.Some?
  {
    if d.measure.Some? && d.resolved.value.kind == Observe
    then Some(MeasureScope(j.setup, d.measure.value, output, j.party.actor))
    else None
  }

  function MeasureScope(s: Setup, m: ScopeMeasure, output: Value, actor: Actor): ScopeCount {
    if !output.List? then OutputNotRows
    else
      var rows := output.items;
      var evaluated := if |rows| <= m.cap then rows else rows[..m.cap];
      match CountRemoved(s, m.predicate_, evaluated, actor)
      case Some(removed) => Measured(removed, |evaluated|, |rows|)
      case None => FirstObstacle(s, m.predicate_, evaluated, actor)
  }

  /** How many rows the predicate removes, or None when some row cannot be judged. */
  function CountRemoved(s: Setup, scope: string, rows: seq<Value>, actor: Actor): Option<nat> {
    if rows == [] then Some(0)
    else if !rows[0].Rec? || s.inScope(scope, rows[0].fields, actor).None? then None
    else
      match CountRemoved(s, scope, rows[1..], actor)
      case None => None
      case Some(n) => Some(if s.inScope(scope, rows[0].fields, actor) == Some(true) then n else n + 1)
  }

  /** Why the first row that cannot be judged cannot be. */
  function FirstObstacle(s: Setup, scope: string, rows: seq<Value>, actor: Actor): ScopeCount {
    if rows == [] || !rows[0].Rec? then RowsNotAttributes
    else if s.inScope(scope, rows[0].fields, actor).None? then PredicateRaised
    else FirstObstacle(s, scope, rows[1..], actor)
  }

  /** Stamp the policy's feedback level on a result after its record was written. */
  function WithFeedback(r: EvalResult, d: Decided): EvalResult {
    r.(feedback := d.feedback)
  }
}
