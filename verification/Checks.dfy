/** What the named checks and the precondition gate answer, in terms of what each check answered. */
module Checks {
  import opened Vocabulary
  import opened GateEngine
  import opened Closure

  // ---- the list of named checks --------------------------------------------------------------

  /** The check refuses: it said so, it crashed where crashes refuse, or it asked a question it may not ask. */
  ghost predicate Refuses(name: string, host: CheckHost) {
    match host.answer(name)
    case Crashed => host.failureMode == Closed
    case Answered(r) => r.outcome == Outcome.Fail || (r.outcome == Outcome.Hold && !(r.code != "" && host.holdCapable(name)))
  }

  /** The check asks a human, by a code, and is declared able to. */
  ghost predicate AsksHuman(name: string, host: CheckHost) {
    host.answer(name).Answered? && var r := host.answer(name).result;
      r.outcome == Outcome.Hold && r.code != "" && host.holdCapable(name)
  }

  ghost predicate NoneRefuses(names: seq<string>, host: CheckHost) {
    forall i | 0 <= i < |names| :: !Refuses(names[i], host)
  }

  ghost predicate NoneAsks(names: seq<string>, host: CheckHost) {
    forall i | 0 <= i < |names| :: !AsksHuman(names[i], host)
  }

  ghost predicate FirstRefusing(names: seq<string>, host: CheckHost, k: nat) {
    k < |names| && Refuses(names[k], host) && forall i | 0 <= i < k :: !Refuses(names[i], host)
  }

  ghost predicate FirstAsking(names: seq<string>, host: CheckHost, k: nat) {
    k < |names| && AsksHuman(names[k], host) && forall i | 0 <= i < k :: !AsksHuman(names[i], host)
  }

  /** Its own code and the reason class declared for it, when it was the check's own refusal. */
  ghost predicate TellsRefusal(r: GateResult, gate: Gate, name: string, host: CheckHost) {
    && r.gate == gate && r.outcome == Outcome.Fail && r.source == name && r.evidence.None? && r.fields == []
    && var said := host.answer(name);
       if said.Answered? && said.result.outcome == Outcome.Fail && said.result.code != ""
       then r.code == said.result.code && r.retryClass == Some(host.reasonClass(name, r.code))
       else r.code == "" && r.retryClass.None?
  }

  ghost predicate TellsQuestion(r: GateResult, gate: Gate, name: string, host: CheckHost) {
    && r.gate == gate && r.outcome == Outcome.Hold && r.source == name && r.fields == []
    && host.answer(name).Answered? && var said := host.answer(name).result;
       r.code == said.code && r.evidence == said.evidence && r.retryClass == Some(host.reasonClass(name, said.code))
  }

  ghost predicate Passes(r: GateResult, gate: Gate) {
    r.gate == gate && r.outcome == Outcome.Pass && r.code == "" && r.source == "" && r.evidence.None? && r.retryClass.None?
    && r.fields == []
  }

  lemma {:induction false} RefusalTells(gate: Gate, names: seq<string>, host: CheckHost, held: Option<GateResult>, k: nat)
    requires FirstRefusing(names, host, k)
    ensures TellsRefusal(RunChecks(gate, names, host, held), gate, names[k], host)
    decreases |names|
  {
    if k > 0 {
      assert names[1..][k - 1] == names[k] && forall i | 0 <= i < k - 1 :: names[1..][i] == names[i + 1];
      var j := Judge(gate, names[0], host);
      RefusalTells(gate, names[1..], host, if j.Suspends? && held.None? then Some(j.verdict) else held, k - 1);
    }
  }

  lemma {:induction false} HeldStays(gate: Gate, names: seq<string>, host: CheckHost, held: GateResult)
    requires NoneRefuses(names, host)
    ensures RunChecks(gate, names, host, Some(held)) == held
    decreases |names|
  {
    if names != [] {
      assert forall i | 0 <= i < |names| - 1 :: names[1..][i] == names[i + 1];
      HeldStays(gate, names[1..], host, held);
    }
  }

  lemma {:induction false} QuestionTells(gate: Gate, names: seq<string>, host: CheckHost, k: nat)
    requires NoneRefuses(names, host) && FirstAsking(names, host, k)
    ensures TellsQuestion(RunChecks(gate, names, host, None), gate, names[k], host)
    decreases |names|
  {
    assert forall i | 0 <= i < |names| - 1 :: names[1..][i] == names[i + 1];
    assert !Refuses(names[0], host);
    if k == 0 {
      HeldStays(gate, names[1..], host, Judge(gate, names[0], host).verdict);
    } else {
      assert !AsksHuman(names[0], host);
      assert FirstAsking(names[1..], host, k - 1);
      QuestionTells(gate, names[1..], host, k - 1);
    }
  }

  lemma {:induction false} SilenceTells(gate: Gate, names: seq<string>, host: CheckHost)
    requires NoneRefuses(names, host) && NoneAsks(names, host)
    ensures Passes(RunChecks(gate, names, host, None), gate)
    decreases |names|
  {
    if names != [] {
      assert forall i | 0 <= i < |names| - 1 :: names[1..][i] == names[i + 1];
      assert !Refuses(names[0], host) && !AsksHuman(names[0], host);
      SilenceTells(gate, names[1..], host);
    }
  }

  /** The first refusal is told whatever came before it; else the first question; else the gate passes. */
  lemma ChecksTell(gate: Gate, names: seq<string>, host: CheckHost, k: nat)
    ensures var r := RunChecks(gate, names, host, None);
      && (FirstRefusing(names, host, k) ==> TellsRefusal(r, gate, names[k], host))
      && (NoneRefuses(names, host) && FirstAsking(names, host, k) ==> TellsQuestion(r, gate, names[k], host))
      && (NoneRefuses(names, host) && NoneAsks(names, host) ==> Passes(r, gate))
  {
    if FirstRefusing(names, host, k) {
      RefusalTells(gate, names, host, None, k);
    }
    if NoneRefuses(names, host) && FirstAsking(names, host, k) {
      QuestionTells(gate, names, host, k);
    }
    if NoneRefuses(names, host) && NoneAsks(names, host) {
      SilenceTells(gate, names, host);
    }
  }

  // ---- the closure check ------------------------------------------------------------------------

  /** The declared text; a missing or null field declares nothing. */
  ghost predicate Declared(data: Payload, field: string, show: Value -> string, text: string) {
    if field in data && data[field] != Null then text == show(data[field]) else text == ""
  }

  ghost predicate RefusedInRun(history: seq<AuditRecord>, actor: string, session: Session) {
    exists i :: 0 <= i < |history| && RefusalOf(history[i], actor, session)
  }

  /** A record of this actor in this run that allowed nothing. */
  ghost predicate RefusalOf(record: AuditRecord, actor: string, session: Session) {
    && record.subject.actor == actor && record.finding.decision != Decision.Allow
    && (session.correlation.None? || session.correlation.value == "" ==> record.subject.run == session.id)
    && (session.correlation.Some? && session.correlation.value != "" ==> record.subject.run == session.correlation.value)
  }

  lemma RefusalsFound(history: seq<AuditRecord>, actor: string, session: Session)
    ensures RefusedInRun(history, actor, session) <==> RefusalsInRun(history, actor, RunKey(session)) != []
  {
    var found := RefusalsInRun(history, actor, RunKey(session));
    RefusalsAreExact(history, actor, RunKey(session));
    if i :| 0 <= i < |history| && RefusalOf(history[i], actor, session) {
      assert history[i] in history && IsRefusal(history[i], actor, RunKey(session));
      assert history[i] in found;
    }
    if found != [] {
      assert found[0] in found;
      var i :| 0 <= i < |history| && history[i] == found[0];
      assert RefusalOf(history[i], actor, session);
    }
  }

  /** Every answer of the check, by its cause; it crashes exactly on a configuration that cannot answer. */
  lemma ClosureTells(def: Option<ClosureDef>, data: Payload, actor: Actor, session: Session,
                     history: Option<seq<AuditRecord>>, show: Value -> string, text: string)
    requires def.Some? ==> Declared(data, def.value.field, show, text)
    ensures var answer := DispositionIsDeclared(def, data, actor, session, history, show);
      var known := def.Some? && text in def.value.vocabulary;
      && (answer == Crashed <==>
            def.None? || def.value.vocabulary == [] || (known && text in def.value.claimsCompletion && history.None?))
      && (answer.Answered? && !known ==> answer.result == CheckResult(Outcome.Hold, "DISPOSITION_REQUIRED", None))
      && (answer.Answered? && known ==>
            answer.result
              == if text in def.value.claimsCompletion && RefusedInRun(history.value, actor.id, session)
                 then CheckResult(Outcome.Hold, "CLOSED_WITHOUT_THE_WORK", None) else CheckResult(Outcome.Pass, "", None))
  {
    if history.Some? {
      RefusalsFound(history.value, actor.id, session);
    }
  }

  // ---- one gate of the engine -------------------------------------------------------------------------

  ghost predicate InState(env: RequestEnv, allowed: seq<string>) {
    exists i :: 0 <= i < |allowed| && "currentState" in env.resource && env.resource["currentState"] == Str(allowed[i])
  }

  ghost predicate HasWhen(e: Entry) {
    e.config.mapping && e.config.whenClause.Some?
  }

  function WhenOf(x: Wiring, e: Entry, q: Request): Option<bool>
    requires e.config.whenClause.Some?
  {
    x.condition(q.at, e.config.whenClause.value, q.resolved, q.actor, q.env)
  }

  ghost predicate Active(x: Wiring, e: Entry, q: Request) {
    HasWhen(e) ==> WhenOf(x, e, q).Some? && WhenOf(x, e, q).value
  }

  /** A gate whose condition is false passes; one whose condition cannot be evaluated refuses, for good. */
  lemma WhenDecides(x: Wiring, e: Entry, q: Request)
    requires HasWhen(e)
    ensures WhenOf(x, e, q).Some? && !WhenOf(x, e, q).value ==> Passes(RunOne(x, e, q), e.gate)
    ensures WhenOf(x, e, q).None? ==>
      var r := RunOne(x, e, q);
      r.gate == e.gate && r.outcome == Outcome.Fail && r.code == "" && r.retryClass == Some(Terminal)
  {
    var active := WhenOf(x, e, q);
    if active.Some? {
      if active.value { assert active == Some(true); } else { assert active == Some(false); }
    }
  }

  /** Under a state requirement the resource must be in one of the states. */
  lemma StatesDecide(x: Wiring, e: Entry, q: Request, allowed: seq<string>)
    requires Active(x, e, q) && e.config.fromStates == Some(allowed)
    requires e.gate == TransitionGuard || (e.gate == Precondition && e.config.mapping)
    ensures RunOne(x, e, q).outcome == (if InState(q.env, allowed) then Outcome.Pass else Outcome.Fail)
  {
    if InState(q.env, allowed) {
      var i :| 0 <= i < |allowed| && q.env.resource["currentState"] == Str(allowed[i]);
      assert allowed[i] in allowed;
    }
    ActiveRuns(x, e, q);
  }

  lemma ActiveRuns(x: Wiring, e: Entry, q: Request)
    requires Active(x, e, q)
    ensures var ran :=
        if e.gate == TransitionGuard then CheckFromStates(q.env, if e.config.fromStates.Some? then e.config.fromStates.value else [])
        else if e.gate == Precondition then PreconditionGate(x, e.config, q)
        else x.otherGate(q.at, e, q.resolved, q.actor, q.session, q.env);
      && RunOne(x, e, q) == ran.(retryClass := RunOne(x, e, q).retryClass)
      && (ran.retryClass.Some? || ran.outcome != Outcome.Fail ==> RunOne(x, e, q) == ran)
  {
    if HasWhen(e) { assert WhenOf(x, e, q) == Some(true); }
  }

  /** Sources nobody vouches for stop the gate before any check is asked, and never pass it. */
  lemma UntrustedStops(x: Wiring, e: Entry, q: Request)
    requires Active(x, e, q) && e.gate == Precondition && e.config.mapping && e.config.fromStates.None?
    requires x.untrusted(q.at, e.config.sources).Some?
    ensures var r, verdict := RunOne(x, e, q), x.untrusted(q.at, e.config.sources).value;
      && r.outcome == (if verdict.outcome == Outcome.Hold then Outcome.Hold else Outcome.Fail)
      && r.code == verdict.code && r.evidence == verdict.evidence && r.retryClass == Some(Escalate)
  {
    ActiveRuns(x, e, q);
  }

  /** Else the gate answers as its named checks do, and any other gate as its own evaluator. */
  lemma ChecksDecide(x: Wiring, e: Entry, q: Request)
    requires Active(x, e, q) && e.gate != TransitionGuard
    requires e.gate == Precondition && e.config.mapping ==>
      e.config.fromStates.None? && x.untrusted(q.at, e.config.sources).None?
    ensures var r := RunOne(x, e, q);
      var said := if e.gate == Precondition then RunChecks(Precondition, e.config.checks, HostFor(x, q), None)
                  else x.otherGate(q.at, e, q.resolved, q.actor, q.session, q.env);
      && r.outcome == said.outcome && r.code == said.code && r.evidence == said.evidence && r.source == said.source
      && (said.retryClass.Some? ==> r.retryClass == said.retryClass)
      && (said.retryClass.None? && said.outcome != Outcome.Fail ==> r.retryClass.None?)
  {
    ActiveRuns(x, e, q);
  }

  /** The reserved name is answered from the sink by the standard check, and every other one by its integrator. */
  lemma HostAnswers(x: Wiring, q: Request, name: string)
    ensures var host := HostFor(x, q);
      && host.answer(name) == (if name == "dispositionIsDeclared"
                               then DispositionIsDeclared(x.closureOf(q.resolved), q.resolved.data, q.actor, q.session,
                                                          Some(q.history), x.show)
                               else x.integrator(q.at, name, q.resolved, q.actor, q.session, q.env))
      && host.holdCapable == x.holdCapable && host.reasonClass == x.reasonClass && host.failureMode == x.failureMode
  {
  }

  /** A transition that declares the states it may start from is guarded by them, before every declared gate. */
  lemma GuardComesFirst(x: Wiring, resolved: ResolvedAction)
    ensures var entries, declared := EntriesFor(x, resolved), x.gatesFor(resolved);
      if resolved.kind == Transition && resolved.fromStates != []
      then |entries| == |declared| + 1 && entries[1..] == declared && entries[0].gate == TransitionGuard
           && entries[0].config.mapping && entries[0].config.fromStates == Some(resolved.fromStates)
           && !HasWhen(entries[0])
      else entries == declared
  {
    assert [] + x.gatesFor(resolved) == x.gatesFor(resolved);
  }
}
