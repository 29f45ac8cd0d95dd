/** Named precondition checks, and the standard closure check over the gateway's own record. */
module Closure {
  import opened Vocabulary
  import opened GateEngine

  // ---- running named checks ------------------------------------------------------

  datatype CheckResult = CheckResult(outcome: Outcome, code: string, evidence: Option<Evidence>)

  datatype CheckAnswer = Answered(result: CheckResult) | Crashed

  datatype CheckHost = CheckHost(
    answer: string -> CheckAnswer,
    holdCapable: string -> bool,
    reasonClass: (string, string) -> RetryClass,
    failureMode: FailureMode)

  function Passed(gate: Gate): GateResult {
    GateResult(gate, Outcome.Pass, "", "", None, None, [])
  }

  function FailedBy(gate: Gate, source: string, code: string, retry: Option<RetryClass>): GateResult {
    GateResult(gate, Outcome.Fail, code, source, None, retry, [])
  }

  datatype Judgement = Satisfied | Stops(verdict: GateResult) | Suspends(verdict: GateResult)

  /** One check: a crash is a dependency failure, and a hold without a code or the declared capability fails. */
  function Judge(gate: Gate, name: string, host: CheckHost): Judgement {
    match host.answer(name)
    case Crashed => if host.failureMode == Open then Satisfied else Stops(FailedBy(gate, name, "", None))
    case Answered(r) =>
      match r.outcome
      case Pass => Satisfied
      case Fail =>
        Stops(FailedBy(gate, name, r.code, if r.code != "" then Some(host.reasonClass(name, r.code)) else None))
      case Hold =>
        if r.code == "" || !host.holdCapable(name) then Stops(FailedBy(gate, name, "", None))
        else Suspends(GateResult(gate, Outcome.Hold, r.code, name, r.evidence, Some(host.reasonClass(name, r.code)), []))
  }

  /** The first check that fails decides; without one the first that holds; without either the gate passes. */
  function RunChecks(gate: Gate, names: seq<string>, host: CheckHost, held: Option<GateResult>): GateResult
    decreases |names|
  {
    if names == [] then (if held.Some? then held.value else Passed(gate))
    else
      match Judge(gate, names[0], host)
      case Satisfied => RunChecks(gate, names[1..], host, held)
      case Stops(verdict) => verdict
      case Suspends(verdict) => RunChecks(gate, names[1..], host, if held.Some? then held else Some(verdict))
  }

  ghost predicate SomeStops(gate: Gate, names: seq<string>, host: CheckHost) {
    exists n :: n in names && Judge(gate, n, host).Stops?
  }

  ghost predicate SomeSuspends(gate: Gate, names: seq<string>, host: CheckHost) {
    exists n :: n in names && Judge(gate, n, host).Suspends?
  }

  /** A failing check outranks every holding one, wherever it stands in the list. */
  lemma {:induction false} ChecksVerdict(gate: Gate, names: seq<string>, host: CheckHost, held: Option<GateResult>)
    requires held.Some? ==> held.value.outcome == Outcome.Hold
    ensures var r := RunChecks(gate, names, host, held);
      && (r.outcome == Outcome.Fail <==> SomeStops(gate, names, host))
      && (r.outcome == Outcome.Hold <==>
            !SomeStops(gate, names, host) && (held.Some? || SomeSuspends(gate, names, host)))
    decreases |names|
  {
    if names != [] {
      var j := Judge(gate, names[0], host);
      assert forall n :: n in names <==> n == names[0] || n in names[1..];
      if !j.Stops? {
        ChecksVerdict(gate, names[1..], host, if j.Suspends? && held.None? then Some(j.verdict) else held);
      }
    }
  }

  /** The loop of the shared check runner. */
  method RunChecksLoop(gate: Gate, names: seq<string>, host: CheckHost) returns (r: GateResult)
    ensures r == RunChecks(gate, names, host, None)
  {
    var firstHold: Option<GateResult> := None;
    for i := 0 to |names|
      invariant RunChecks(gate, names, host, None) == RunChecks(gate, names[i..], host, firstHold)
    {
      assert names[i..][1..] == names[i + 1..];
      match Judge(gate, names[i], host) {
        case Satisfied =>
        case Stops(verdict) => return verdict;
        case Suspends(verdict) => if firstHold.None? { firstHold := Some(verdict); }
      }
    }
    return if firstHold.Some? then firstHold.value else Passed(gate);
  }

  // ---- the closure check -------------------------------------------------------------

  const DISPOSITION_IS_DECLARED := "dispositionIsDeclared"
  const DISPOSITION_REQUIRED := "DISPOSITION_REQUIRED"
  const CLOSED_WITHOUT_THE_WORK := "CLOSED_WITHOUT_THE_WORK"

  datatype ClosureDef = ClosureDef(field: string, vocabulary: seq<string>, claimsCompletion: seq<string>)

  predicate IsRefusal(record: AuditRecord, actor: string, run: string) {
    && record.subject.actor == actor && record.subject.run == run
    && (record.finding.decision == Decision.Deny || record.finding.decision == Decision.Halt
        || record.finding.decision == Decision.Hold)
  }

  /** The refusals the sink holds for this actor in this run, earliest first. */
  function RefusalsInRun(audit: seq<AuditRecord>, actor: string, run: string): seq<AuditRecord> {
    if audit == [] then []
    else (if IsRefusal(audit[0], actor, run) then [audit[0]] else []) + RefusalsInRun(audit[1..], actor, run)
  }

  lemma {:induction false} RefusalsAreExact(audit: seq<AuditRecord>, actor: string, run: string)
    ensures forall r :: r in RefusalsInRun(audit, actor, run) <==> r in audit && IsRefusal(r, actor, run)
  {
    if audit != [] {
      RefusalsAreExact(audit[1..], actor, run);
      assert forall r :: r in audit <==> r == audit[0] || r in audit[1..];
    }
  }

  /** The stripped disposition text, empty when the field is missing or null. */
  function Disposition(data: Payload, field: string, show: Value -> string): string {
    if field !in data || data[field] == Null then "" else show(data[field])
  }

  /** `show` renders and strips; a missing declaration or history is a configuration error, so it crashes. */
  function DispositionIsDeclared(def: Option<ClosureDef>, data: Payload, actor: Actor, session: Session,
                                 history: Option<seq<AuditRecord>>, show: Value -> string): CheckAnswer {
    if def.None? || def.value.vocabulary == [] then Crashed
    else
      var text := Disposition(data, def.value.field, show);
      if text !in def.value.vocabulary then Answered(CheckResult(Outcome.Hold, DISPOSITION_REQUIRED, None))
      else if text !in def.value.claimsCompletion then Answered(CheckResult(Outcome.Pass, "", None))
      else if history.None? then Crashed
      else if RefusalsInRun(history.value, actor.id, RunKey(session)) != [] then
        Answered(CheckResult(Outcome.Hold, CLOSED_WITHOUT_THE_WORK, None))
      else Answered(CheckResult(Outcome.Pass, "", None))
  }

  /** With history wired, a declared disposition passes exactly when it makes no claim the record contradicts. */
  lemma ClosurePassesExactly(def: ClosureDef, data: Payload, actor: Actor, session: Session,
                             history: seq<AuditRecord>, show: Value -> string)
    requires def.vocabulary != []
    ensures
      var text := Disposition(data, def.field, show);
      var answer := DispositionIsDeclared(Some(def), data, actor, session, Some(history), show);
      && answer.Answered?
      && (answer.result.outcome == Outcome.Pass <==>
            text in def.vocabulary
            && (text !in def.claimsCompletion || forall r | r in history :: !IsRefusal(r, actor.id, RunKey(session))))
      && (answer.result.outcome != Outcome.Pass ==> answer.result.outcome == Outcome.Hold && answer.result.code != "")
  {
    var refusals := RefusalsInRun(history, actor.id, RunKey(session));
    RefusalsAreExact(history, actor.id, RunKey(session));
    if refusals != [] {
      assert refusals[0] in refusals;
    }
  }

  // ---- the precondition gate and the engine around it -------------------------------------

  /** What one deployment injects into its gate engine; everything but the checks is left abstract. */
  datatype Wiring = Wiring(
    gatesFor: ResolvedAction -> seq<Entry>,
    resolverRole: Option<string>,
    closureOf: ResolvedAction -> Option<ClosureDef>,
    integrator: (nat, string, ResolvedAction, Actor, Session, RequestEnv) -> CheckAnswer,
    holdCapable: string -> bool,
    reasonClass: (string, string) -> RetryClass,
    failureMode: FailureMode,
    untrusted: (nat, seq<string>) -> Option<CheckResult>,   // the verdict on the gate's declared sources
    condition: (nat, string, ResolvedAction, Actor, RequestEnv) -> Option<bool>,
    otherGate: (nat, Entry, ResolvedAction, Actor, Session, RequestEnv) -> GateResult,
    show: Value -> string)

  datatype Request = Request(at: nat, resolved: ResolvedAction, actor: Actor, session: Session, env: RequestEnv,
                             history: seq<AuditRecord>)

  /** The reserved name is always the standard check, over the pipeline's own sink. */
  function HostFor(x: Wiring, q: Request): CheckHost {
    CheckHost(
      name =>
        if name == DISPOSITION_IS_DECLARED
        then DispositionIsDeclared(x.closureOf(q.resolved), q.resolved.data, q.actor, q.session, Some(q.history), x.show)
        else x.integrator(q.at, name, q.resolved, q.actor, q.session, q.env),
      x.holdCapable, x.reasonClass, x.failureMode)
  }

  function CheckFromStates(env: RequestEnv, allowed: seq<string>): GateResult {
    var known := "currentState" in env.resource && env.resource["currentState"].Str?;
    if known && env.resource["currentState"].s in allowed then Passed(Precondition)
    else FailedBy(Precondition, "", "", None)
  }

  function PreconditionGate(x: Wiring, c: Config, q: Request): GateResult {
    if c.mapping && c.fromStates.Some? then CheckFromStates(q.env, c.fromStates.value)
    else
      var untrusted := if c.mapping then x.untrusted(q.at, c.sources) else None;
      if untrusted.Some? then
        GateResult(Precondition, if untrusted.value.outcome == Outcome.Hold then Outcome.Hold else Outcome.Fail,
                   untrusted.value.code, "", untrusted.value.evidence, Some(Escalate), [])
      else RunChecks(Precondition, c.checks, HostFor(x, q), None)
  }

  /** One gate: its `when` decides whether it is active, and an unevaluable `when` fails it. */
  function RunOne(x: Wiring, e: Entry, q: Request): GateResult {
    var active :=
      if e.config.mapping && e.config.whenClause.Some?
      then x.condition(q.at, e.config.whenClause.value, q.resolved, q.actor, q.env) else Some(true);
    if active.None? then GateResult(e.gate, Outcome.Fail, "", "", None, Some(Terminal), [])
    else if active == Some(false) then Passed(e.gate)
    else
      var result :=
        if e.gate == TransitionGuard then CheckFromStates(q.env, if e.config.fromStates.Some? then e.config.fromStates.value else [])
        else if e.gate == Precondition then PreconditionGate(x, e.config, q)
        else x.otherGate(q.at, e, q.resolved, q.actor, q.session, q.env);
      if result.outcome == Outcome.Fail && result.retryClass.None?
      then result.(retryClass := Some(GateClass(result.gate))) else result
  }

  /** The transition guard is injected whenever the action declares from-states. */
  function EntriesFor(x: Wiring, resolved: ResolvedAction): seq<Entry> {
    (if resolved.kind == Transition && resolved.fromStates != []
     then [Entry(TransitionGuard, Config(true, None, Some(resolved.fromStates), [], [], None, [], 1, None, "deny"))]
     else [])
    + x.gatesFor(resolved)
  }

  function GateVerdict(x: Wiring, q: Request): GateOutcome {
    Evaluate(EntriesFor(x, q.resolved), Engine(e => RunOne(x, e, q), x.resolverRole))
  }

  /** The action's merged precondition names the closure check unconditionally, and the call claims completion. */
  ghost predicate ClaimsDone(x: Wiring, resolved: ResolvedAction) {
    && (exists e :: e in x.gatesFor(resolved) && Unconditional(e))
    && x.closureOf(resolved).Some?
    && var def := x.closureOf(resolved).value;
    && def.vocabulary != [] && Disposition(resolved.data, def.field, x.show) in def.claimsCompletion
  }

  predicate Unconditional(e: Entry) {
    && e.gate == Precondition && DISPOSITION_IS_DECLARED in e.config.checks
    && (e.config.mapping ==> e.config.whenClause.None? && e.config.fromStates.None?)
  }

  ghost predicate RefusedBefore(history: seq<AuditRecord>, actor: string, run: string) {
    exists i :: 0 <= i < |history| && IsRefusal(history[i], actor, run)
  }

  /** While the record holds a refusal for this actor and run, the gates never pass a completion claim. */
  lemma FalseClosureNeverPasses(x: Wiring, q: Request)
    requires ClaimsDone(x, q.resolved) && RefusedBefore(q.history, q.actor.id, RunKey(q.session))
    ensures GateVerdict(x, q).outcome != Outcome.Pass
  {
    var e :| e in x.gatesFor(q.resolved) && Unconditional(e);
    var host := HostFor(x, q);
    var def := x.closureOf(q.resolved).value;
    ClosurePassesExactly(def, q.resolved.data, q.actor, q.session, q.history, x.show);
    var i :| 0 <= i < |q.history| && IsRefusal(q.history[i], q.actor.id, RunKey(q.session));
    assert q.history[i] in q.history;
    assert host.answer(DISPOSITION_IS_DECLARED).Answered?;
    assert !Judge(Precondition, DISPOSITION_IS_DECLARED, host).Satisfied?;
    ChecksVerdict(Precondition, e.config.checks, host, None);
    assert RunChecks(Precondition, e.config.checks, host, None).outcome != Outcome.Pass;
    assert RunOne(x, e, q).outcome != Outcome.Pass;
    assert e in EntriesFor(x, q.resolved);
    var engine := Engine(e => RunOne(x, e, q), x.resolverRole);
    VerdictIsConjunction(EntriesFor(x, q.resolved), engine);
    assert engine.run(e).outcome != Outcome.Pass;
    if engine.run(e).outcome == Outcome.Hold { assert Holds(e, engine); }
  }
}
