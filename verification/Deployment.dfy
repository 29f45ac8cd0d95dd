/**
 * The pipeline as it runs: one object over the injected stores. Every method leaves the stores in exactly the
 * world the specification computes, so what is proved about those functions holds of these methods.
 */
module Deployments {
  import opened Vocabulary
  import opened Stores
  import opened Holds
  import opened Pipeline
  import opened Enforcement
  import opened StoreObjects

  // ---- a loop so far, and what is left of it --------------------------------------------------

  function After<T>(done: seq<T>, rest: (World, seq<T>)): (World, seq<T>) {
    (rest.0, done + rest.1)
  }

  lemma NothingYet<T>(rest: (World, seq<T>))
    ensures After([], rest) == rest
  {
    assert [] + rest.1 == rest.1;
  }

  lemma NothingLeft<T>(done: seq<T>, w: World)
    ensures After(done, (w, [])) == (w, done)
  {
    assert done + [] == done;
  }

  lemma OneMore<T>(done: seq<T>, next: T, rest: (World, seq<T>))
    ensures After(done, (rest.0, [next] + rest.1)) == After(done + [next], rest)
  {
    assert done + ([next] + rest.1) == done + [next] + rest.1;
  }

  lemma DecideItemsStep(w: World, g: Gateway, a: Attempt, def: ItemsDef, values: seq<Value>, done: seq<Decided>,
                        after: World, first: Decided)
    requires values != []
    requires (after, first) == DecideIn(w, g, ItemCall(a.call, def, [values[0]]), a.party, a.env)
    ensures After(done, DecideItems(w, g, a, def, values))
         == After(done + [first], DecideItems(after, g, a, def, values[1..]))
  {
    OneMore(done, first, DecideItems(after, g, a, def, values[1..]));
  }

  lemma SettleItemsStep(w: World, g: Gateway, a: Attempt, mode: Mode, names: seq<string>, items: seq<Advised>,
                        done: seq<ItemVerdict>, after: World, settled: Option<EvalResult>)
    requires |names| == |items| && items != [] && ItemsCommittable(items)
    requires (after, settled) == SettleItem(w, g, a, mode, items[0])
    ensures ItemsCommittable(items[1..])
    ensures After(done, SettleItems(w, g, a, mode, names, items))
         == After(done + [VerdictOf(names[0], items[0].decided, settled)],
                  SettleItems(after, g, a, mode, names[1..], items[1..]))
  {
    OneMore(done, VerdictOf(names[0], items[0].decided, settled),
            SettleItems(after, g, a, mode, names[1..], items[1..]));
  }

  lemma DecideAllStep(w: World, g: Gateway, p: Party, ops: seq<Operation>, done: seq<Decided>, after: World,
                      first: Decided)
    requires ops != [] && (after, first) == DecideIn(w, g, ops[0].call, p, ops[0].env)
    ensures After(done, DecideAll(w, g, p, ops)) == After(done + [first], DecideAll(after, g, p, ops[1..]))
  {
    OneMore(done, first, DecideAll(after, g, p, ops[1..]));
  }

  lemma RefuseAllStep(w: World, g: Gateway, p: Party, ops: seq<Operation>, ds: seq<Decided>, stamp: Option<Stamp>,
                      closings: seq<Closing>, i: nat, done: seq<EvalResult>, after: World, first: EvalResult)
    requires |ops| == |ds| == |closings| && i < |ds|
    requires (after, first) == Finish(w, JobOf(g, p, ops[i].env, Enforced, stamp), ds[i], closings[i])
    ensures After(done, RefuseAll(w, g, p, ops[i..], ds[i..], stamp, closings[i..]))
         == After(done + [WithFeedback(first, ds[i])],
                  RefuseAll(after, g, p, ops[i + 1..], ds[i + 1..], stamp, closings[i + 1..]))
  {
    assert ops[i..][1..] == ops[i + 1..] && ds[i..][1..] == ds[i + 1..] && closings[i..][1..] == closings[i + 1..];
    OneMore(done, WithFeedback(first, ds[i]), RefuseAll(after, g, p, ops[i + 1..], ds[i + 1..], stamp, closings[i + 1..]));
  }

  lemma CommitAllStep(w: World, g: Gateway, p: Party, mode: Mode, ops: seq<Operation>, ds: seq<Decided>,
                      stamps: seq<Option<Stamp>>, done: seq<EvalResult>, after: World, first: EvalResult)
    requires |ops| == |ds| == |stamps| && ds != [] && AllCommittable(ds)
    requires (after, first) == Commit(w, JobOf(g, p, ops[0].env, mode, stamps[0]), ds[0])
    ensures AllCommittable(ds[1..])
    ensures After(done, CommitAll(w, g, p, mode, ops, ds, stamps))
         == After(done + [WithFeedback(first, ds[0])], CommitAll(after, g, p, mode, ops[1..], ds[1..], stamps[1..]))
  {
    OneMore(done, WithFeedback(first, ds[0]), CommitAll(after, g, p, mode, ops[1..], ds[1..], stamps[1..]));
  }

  function Resumed(done: seq<Decided>, rest: PrePass): PrePass {
    rest.(ds := done + rest.ds)
  }

  /** One operation of the pre-pass: nothing to reserve, a claim put on it, or a refusal. */
  ghost predicate Reserves(w: World, g: Gateway, d: Decided, after: World, claimed: Decided, refusal: Option<Rule>) {
    match ClaimPlan(d.gates)
    case None => after == w && claimed == d && refusal.None?
    case Some(plan) =>
      var (w', r) := ReserveClaim(w, g.setup, g.outside, plan);
      && after == w'
      && refusal == (if r.Rejected? then Some(r.rule) else None)
      && (r.Held? ==> claimed == d.(claim := Some(r.claim)))
  }

  lemma ReserveAllStep(w: World, g: Gateway, ds: seq<Decided>, done: seq<Decided>, after: World, first: Decided)
    requires ds != [] && Reserves(w, g, ds[0], after, first, None)
    ensures Resumed(done, ReserveAll(w, g, ds)) == Resumed(done + [first], ReserveAll(after, g, ds[1..]))
  {
    var rest := ReserveAll(after, g, ds[1..]);
    assert done + ([first] + rest.ds) == done + [first] + rest.ds;
  }

  lemma UndivergedStep(items: seq<Advised>)
    requires items != []
    ensures var rest := FirstAllowed(Undiverged(items[1..]));
      FirstAllowed(Undiverged(items)) ==
        if items[0].advice.None? && IsAllowed(items[0]) then Some(items[0]) else rest
  {
    var rest := Undiverged(items[1..]);
    if items[0].advice.None? {
      assert ([items[0]] + rest)[1..] == rest;
    } else {
      assert [] + rest == rest;
    }
  }

  class Deployment {
    const deps: Deps
    const setup: Setup
    const at: Surroundings
    const outbox: Outbox
    const obligations: ObligationStore
    const connector: Connector
    const audit: AuditSink

    constructor (deps: Deps, setup: Setup, outside: Outside)
      ensures State() == World([], map[], [], [], 0, 0, {}, {}, {})
      ensures Config() == Gateway(deps, setup, outside)
      ensures fresh(at) && fresh(outbox) && fresh(obligations) && fresh(connector) && fresh(audit)
    {
      this.deps, this.setup := deps, setup;
      at := new Surroundings(outside);
      outbox := new Outbox();
      obligations := new ObligationStore();
      connector := new Connector();
      audit := new AuditSink();
    }

    function Config(): Gateway {
      Gateway(deps, setup, at.outside)
    }

    ghost function State(): World
      reads at, outbox, obligations, connector, audit
    {
      World(outbox.rows, obligations.lines, connector.executed, audit.records, at.calls, at.nextId,
                  obligations.orphans, outbox.lost, obligations.discharged)
    }

    /** The record goes to the sink, through the advisory wrapper when there is one. */
    ghost predicate Sinks(advisory: AdvisoryAudit?) {
      advisory != null ==> advisory.inner == audit
    }

    /** The job the specification commits for what this deployment was asked. */
    function JobFor(p: Party, env: RequestEnv, mode: Mode, advisory: AdvisoryAudit?): Job
      reads advisory
    {
      JobOf(Config(), p, env, mode, StampOf(advisory))
    }

    // ---- the terminal path ------------------------------------------------------------------

    method Terminal(j: Job, d: Decided, c: Closing, advisory: AdvisoryAudit?) returns (r: EvalResult)
      requires Sinks(advisory) && j.stamp == StampOf(advisory)
      modifies audit
      ensures (State(), r) == Finish(old(State()), j, d, c)
    {
      var reason := Classify(c.decision, c.rule, d.gates);
      r := EvalResult(c.decision, c.rule, d.gates, reason, CodeFields, c.ticket, c.output, d.scopeApplied, [], []);
      var record := RecordOf(j.(stamp := None), d, c, reason);
      StampedOnTheWay(j, d, c, reason);
      if advisory == null {
        audit.Write(record);
      } else {
        advisory.Write(record);
      }
    }

    // ---- one store call as a step of the whole world -----------------------------------------

    method StageRowNow(row: Row) returns (ticket: Option<nat>)
      modifies at, outbox
      ensures (State(), ticket) == Stage(old(State()), at.outside, row)
    {
      ticket := outbox.Stage(row, at);
    }

    method ListHeldNow() returns (held: Option<seq<Row>>)
      modifies at
      ensures (State(), held) == ListHeld(old(State()), at.outside)
    {
      held := outbox.ListHeld(at);
    }

    method BumpNow(ticket: nat) returns (ok: bool)
      modifies at, outbox
      ensures (State(), ok) == BumpAttempts(old(State()), at.outside, ticket)
    {
      ok := outbox.BumpAttempts(ticket, at);
    }

    method RunNow(run: Execution) returns (output: Option<Value>)
      modifies at, connector
      ensures (State(), output) == Execute(old(State()), at.outside, run)
    {
      output := connector.Run(run, at);
    }

    // ---- reservations -----------------------------------------------------------------------

    method ClaimEvidence(gates: seq<GateResult>) returns (plan: Option<(string, string, ConsumePlan)>)
      ensures plan == ClaimPlan(gates)
    {
      var i := 0;
      assert gates[0..] == gates;
      while i < |gates|
        invariant 0 <= i <= |gates|
        invariant ClaimPlan(gates) == ClaimPlan(gates[i..])
      {
        var g := gates[i];
        if g.gate == RequireMatch && g.outcome == Outcome.Pass && g.evidence.Some? && g.evidence.value.Match? {
          var match_ := g.evidence.value;
          if match_.plan.Some? && match_.plan.value.consume.Path? && match_.refs != [] {
            return Some((match_.registry, match_.refs[0], match_.plan.value));
          }
        }
        assert gates[i..][1..] == gates[i + 1..];
        i := i + 1;
      }
      return None;
    }

    predicate HasAdapter(registry: string) {
      setup.adapters.Some? && registry in setup.adapters.value
    }

    method Reserve(plan: (string, string, ConsumePlan)) returns (r: Reservation)
      modifies at, obligations
      ensures (State(), r) == ReserveClaim(old(State()), setup, at.outside, plan)
    {
      var (registry, ref, consume) := plan;
      if !HasAdapter(registry) { return Rejected(ReservationUnavailable); }
      var intent := at.FreshId();
      var claim := Claim(registry, ref, consume.consume, consume.capability, intent);
      var answer := obligations.Reserve(KeyOf(claim), intent, at);
      match answer {
        case Granted => return Held(claim);
        case Declined => return Rejected(NoMatch);
        case Unanswered => return Rejected(ReservationUnavailable);
      }
    }

    method Release(claim: Option<Claim>)
      modifies at, obligations
      ensures State() == ReleaseClaim(old(State()), setup, at.outside, claim)
    {
      if claim.None? || !HasAdapter(claim.value.registry) { return; }
      obligations.Release(KeyOf(claim.value), claim.value.intent, at);
    }

    method Consume(claim: Option<Claim>) returns (c: Option<Consumption>)
      modifies at, obligations
      ensures (State(), c) == ConsumeClaim(old(State()), setup, at.outside, claim)
    {
      if claim.None? { return None; }
      if !HasAdapter(claim.value.registry) { return Some(Consumption(ClaimConsumeUnavailable, claim.value)); }
      var answer := obligations.Consume(KeyOf(claim.value), claim.value.intent, at);
      var state :=
        if answer == Granted then ClaimConsumed
        else if answer == Declined then ClaimConsumeRefused
        else ClaimConsumeUnavailable;
      return Some(Consumption(state, claim.value));
    }

    method ClaimWanted(j: Job, d: Decided) returns (r: Reservation)
      requires j.setup == setup && j.outside == at.outside
      modifies at, obligations
      ensures (State(), r) == ClaimFor(old(State()), j, d)
    {
      if d.claim.Some? { return Held(d.claim.value); }
      var plan := ClaimEvidence(d.gates);
      if plan.None? { return NoneNeeded; }
      r := Reserve(plan.value);
    }

    // ---- steps 6 and 7 ----------------------------------------------------------------------

    method FindDuplicateHold(j: Job, d: Decided) returns (ticket: Option<nat>)
      requires d.resolved.Some? && j.setup == setup && j.outside == at.outside
      modifies at
      ensures (State(), ticket) == FindDuplicate(old(State()), j, d)
    {
      if setup.dedupeWindow.None? || j.env.now.None? { return None; }
      var key := HoldKey(j.agent, d.resolved.value, d.gates, setup.text);
      if key.None? { return None; }
      var held := ListHeldNow();
      if held.None? { return None; }
      var duplicate := Search(held.value, key.value, j.env.now.value, setup.dedupeWindow.value);
      return if duplicate.Some? then Some(duplicate.value.ticket) else None;
    }

    method Search(rows: seq<Row>, key: DedupeKey, now: int, window: int) returns (found: Option<Row>)
      ensures found == FirstDuplicate(rows, key, now, window, setup.text)
    {
      var i := 0;
      assert rows[0..] == rows;
      while i < |rows|
        invariant 0 <= i <= |rows|
        invariant FirstDuplicate(rows, key, now, window, setup.text)
               == FirstDuplicate(rows[i..], key, now, window, setup.text)
      {
        if now - rows[i].createdAt <= window && RowKey(rows[i], setup.text) == Some(key) {
          return Some(rows[i]);
        }
        assert rows[i..][1..] == rows[i + 1..];
        i := i + 1;
      }
      return None;
    }

    /** Expiry, reservation, staging, record: the order a held or pending row is put down in. */
    method StageOne(j: Job, d: Decided, state: RowState, advisory: AdvisoryAudit?) returns (r: EvalResult)
      requires d.resolved.Some? && j.setup == setup && j.outside == at.outside
      requires Sinks(advisory) && j.stamp == StampOf(advisory)
      modifies at, outbox, obligations, audit
      ensures (State(), r) == StageRow(old(State()), j, d, state)
    {
      var expiry := StagingExpiry(j, d.resolved.value);
      if expiry == NoClock {
        r := Terminal(j, d, Close(Decision.Deny, FreshnessUnavailable, NotExecuted), advisory);
        return;
      }
      var reservation := ClaimWanted(j, d);
      if reservation.Rejected? {
        r := Terminal(j, d, Close(Decision.Deny, reservation.rule, NotExecuted), advisory);
        return;
      }
      r := PutDown(j, d, state, expiry, ClaimOf(reservation), advisory);
    }

    method NewRow(j: Job, d: Decided, state: RowState, expiry: Expiry, claim: Option<Claim>) returns (row: Row)
      requires d.resolved.Some? && j.outside == at.outside
      ensures row == RowFor(State(), j, d, state, expiry, claim)
    {
      row := Row(
        0, state, j.agent, d.resolved.value, j.party.actor, j.party.session, d.gates,
        if state == PendingApproval then d.releases else [],
        claim, if expiry.At? then Some(expiry.when) else None,
        if j.env.now.Some? then j.env.now.value else at.outside.wall(at.calls), 1, j.mode);
    }

    /** Stage the row; a staging that was not answered gives its reservation back. */
    method PutDown(j: Job, d: Decided, state: RowState, expiry: Expiry, claim: Option<Claim>, advisory: AdvisoryAudit?)
      returns (r: EvalResult)
      requires d.resolved.Some? && j.setup == setup && j.outside == at.outside
      requires Sinks(advisory) && j.stamp == StampOf(advisory)
      modifies at, outbox, obligations, audit
      ensures (State(), r) == StageClaimed(old(State()), j, d, state, expiry, claim)
    {
      var row := NewRow(j, d, state, expiry, claim);
      var ticket := StageRowNow(row);
      if ticket.None? {
        Release(claim);
        r := Terminal(j, d, Close(Decision.Deny, OutboxUnavailable, NotExecuted), advisory);
      } else {
        r := Terminal(j, d, StagedClosing(d, state, ticket, claim), advisory);
      }
    }

    method CommitHeld(j: Job, d: Decided, advisory: AdvisoryAudit?) returns (r: EvalResult)
      requires d.resolved.Some? && j.setup == setup && j.outside == at.outside
      requires Sinks(advisory) && j.stamp == StampOf(advisory)
      modifies at, outbox, obligations, audit
      ensures (State(), r) == CommitHold(old(State()), j, d)
    {
      if !setup.outbox {
        r := Terminal(j, d, Close(Decision.Hold, d.rule, NotExecuted).(approval := ApprovalOf(d, None)), advisory);
        return;
      }
      var duplicate := FindDuplicateHold(j, d);
      if duplicate.Some? {
        var ok := BumpNow(duplicate.value);
        if ok {
          r := Terminal(j, d,
            Close(Decision.Hold, d.rule, HoldDeduped).(ticket := duplicate, approval := ApprovalOf(d, duplicate)),
            advisory);
          return;
        }
      }
      r := StageOne(j, d, PendingApproval, advisory);
    }

    method Inline(j: Job, d: Decided, advisory: AdvisoryAudit?) returns (r: EvalResult)
      requires d.resolved.Some? && j.setup == setup && j.outside == at.outside
      requires Sinks(advisory) && j.stamp == StampOf(advisory)
      modifies at, obligations, connector, audit
      ensures (State(), r) == CommitInline(old(State()), j, d)
    {
      var resolved := d.resolved.value;
      if !setup.connectors {
        r := Terminal(j, d, Close(Decision.Allow, d.rule, NotExecuted), advisory);
        return;
      }
      if setup.mismatch(resolved) {
        r := Terminal(j, d, Degraded(d, j, DigestMismatch), advisory);
        return;
      }
      var reservation := ClaimWanted(j, d);
      if reservation.Rejected? {
        r := Terminal(j, d, Close(Decision.Deny, reservation.rule, NotExecuted), advisory);
        return;
      }
      var claim := ClaimOf(reservation);
      var output := RunNow(Execution(resolved, d.scope, j.party.actor));
      if output.None? {
        Release(claim);
        r := Terminal(j, d, Degraded(d, j, ConnectorUnavailable), advisory);
        return;
      }
      var consumption := Consume(claim);
      var count: Option<ScopeCount> := None;
      if d.measure.Some? && resolved.kind == Observe {
        var measured := Measure(d.measure.value, output.value, j.party.actor);
        count := Some(measured);
      }
      r := Terminal(j, d,
        Close(Decision.Allow, d.rule, Succeeded).(output := output, consumption := consumption, count := count),
        advisory);
    }

    /** Count what the predicate would have removed; the first row it cannot judge ends the count. */
    method Measure(m: ScopeMeasure, output: Value, actor: Actor) returns (c: ScopeCount)
      ensures c == MeasureScope(setup, m, output, actor)
    {
      if !output.List? { return OutputNotRows; }
      var rows := output.items;
      var evaluated := if |rows| <= m.cap then rows else rows[..m.cap];
      var removed, i := 0, 0;
      assert evaluated[0..] == evaluated;
      while i < |evaluated|
        invariant 0 <= i <= |evaluated|
        invariant CountRemoved(setup, m.predicate_, evaluated, actor)
               == Plus(removed, CountRemoved(setup, m.predicate_, evaluated[i..], actor))
        invariant FirstObstacle(setup, m.predicate_, evaluated, actor)
               == FirstObstacle(setup, m.predicate_, evaluated[i..], actor)
      {
        assert evaluated[i..][1..] == evaluated[i + 1..];
        if !evaluated[i].Rec? { return RowsNotAttributes; }
        var inScope := setup.inScope(m.predicate_, evaluated[i].fields, actor);
        if inScope.None? { return PredicateRaised; }
        if !inScope.value { removed := removed + 1; }
        i := i + 1;
      }
      return Measured(removed, |evaluated|, |rows|);
    }

    static function Plus(n: nat, rest: Option<nat>): Option<nat> {
      if rest.Some? then Some(n + rest.value) else None
    }

    method CommitOne(j: Job, d: Decided, advisory: AdvisoryAudit?) returns (r: EvalResult)
      requires Committable(d) && j.setup == setup && j.outside == at.outside
      requires Sinks(advisory) && j.stamp == StampOf(advisory)
      modifies at, outbox, obligations, connector, audit
      ensures (State(), r) == Commit(old(State()), j, d)
    {
      if Refused(d.decision) {
        r := Terminal(j, d, Close(d.decision, d.rule, d.outcome), advisory);
      } else if d.decision == Decision.Hold {
        r := CommitHeld(j, d, advisory);
      } else if d.resolved.value.kind == Effect {
        if setup.outbox {
          r := StageOne(j, d, Pending, advisory);
        } else {
          r := Terminal(j, d, Close(Decision.Allow, d.rule, NotExecuted), advisory);
        }
      } else {
        r := Inline(j, d, advisory);
      }
    }

    // ---- one operation ----------------------------------------------------------------------

    method DecideNow(call: RawCall, p: Party, env: RequestEnv) returns (d: Decided)
      modifies at
      ensures (State(), d) == DecideIn(old(State()), Config(), call, p, env) && Committable(d)
    {
      d := Decide(deps, call, p, env, at.calls, audit.records);
      DecideCommittable(deps, call, p, env, at.calls, audit.records);
      at.calls := at.calls + DECIDE_CALLS;
    }

    method EnforceAsOne(a: Attempt, mode: Mode) returns (r: EvalResult)
      modifies at, outbox, obligations, connector, audit
      ensures (State(), r) == EnforceWhole(old(State()), Config(), a, mode)
    {
      var decided := DecideNow(a.call, a.party, a.env);
      if mode == Enforced {
        r := CommitOne(JobFor(a.party, a.env, Enforced, null), decided, null);
        return WithFeedback(r, decided);
      }
      var advised := AsAdvised(decided, setup);
      var advisory := new AdvisoryAudit(audit);
      advisory.advice, advisory.coverage := advised.advice, advised.coverage;
      r := CommitOne(JobFor(a.party, a.env, Advisory, advisory), advised.decided, advisory);
      return WithFeedback(r, advised.decided);
    }

    /** The single-call entry point. */
    method Serve(a: Attempt, mode: Mode) returns (r: EvalResult)
      modifies at, outbox, obligations, connector, audit
      ensures (State(), r) == Enforce(old(State()), Config(), a, mode)
    {
      var def := ItemsDeclaration(deps, a.call);
      if def.None? {
        r := EnforceAsOne(a, mode);
      } else {
        r := ServeItems(a, def.value, mode);
      }
    }

    // ---- item by item -------------------------------------------------------------------------

    method DecideEach(a: Attempt, def: ItemsDef, values: seq<Value>) returns (ds: seq<Decided>)
      modifies at
      ensures (State(), ds) == DecideItems(old(State()), Config(), a, def, values)
    {
      ds := [];
      ghost var all := DecideItems(State(), Config(), a, def, values);
      var i := 0;
      NothingYet(all);
      assert values[0..] == values;
      while i < |values|
        invariant 0 <= i <= |values|
        invariant all == After(ds, DecideItems(State(), Config(), a, def, values[i..]))
      {
        assert values[i..][1..] == values[i + 1..];
        ghost var before := State();
        var d := DecideNow(ItemCall(a.call, def, [values[i]]), a.party, a.env);
        DecideItemsStep(before, Config(), a, def, values[i..], ds, State(), d);
        ds := ds + [d];
        i := i + 1;
      }
      NothingLeft(ds, State());
    }

    /** Every item's verdict as this deployment will act on it, replaced one by one once all are decided. */
    method TranslateEach(ds: seq<Decided>, mode: Mode) returns (items: seq<Advised>)
      ensures items == Translate(ds, setup, mode)
    {
      items := [];
      var i := 0;
      while i < |ds|
        invariant 0 <= i <= |ds| && |items| == i
        invariant forall k | 0 <= k < i :: items[k] == TranslateOne(ds[k], setup, mode)
      {
        items := items + [if mode == Advisory then AsAdvised(ds[i], setup) else Advised(ds[i], None, Judged)];
        i := i + 1;
      }
    }

    /** Settle one item; `advisory` already says what this item's record must. */
    method SettleOne(a: Attempt, mode: Mode, item: Advised, advisory: AdvisoryAudit?) returns (r: Option<EvalResult>)
      requires Committable(item.decided) && Sinks(advisory) && StampOf(advisory) == StampFor(mode, item)
      modifies at, outbox, obligations, connector, audit
      ensures (State(), r) == SettleItem(old(State()), Config(), a, mode, item)
    {
      var d := item.decided;
      var j := JobFor(a.party, a.env, mode, advisory);
      if Refused(d.decision) {
        var refused := Terminal(j, d, Close(d.decision, d.rule, d.outcome), advisory);
        return Some(refused);
      }
      if d.decision == Decision.Hold {
        var held := CommitOne(j, d, advisory);
        return Some(WithFeedback(held, d));
      }
      return None;
    }

    ghost predicate Wraps(mode: Mode, advisory: AdvisoryAudit?)
      reads advisory
    {
      && Sinks(advisory)
      && (advisory == null <==> mode == Enforced)
      && (advisory != null ==> advisory.batchAdvice == None && advisory.itemAdvice == None)
    }

    /** Whatever this writes is the item's own record. */
    method SettleNext(a: Attempt, mode: Mode, item: Advised, advisory: AdvisoryAudit?) returns (r: Option<EvalResult>)
      requires Committable(item.decided) && Wraps(mode, advisory)
      modifies at, outbox, obligations, connector, audit, advisory
      ensures (State(), r) == SettleItem(old(State()), Config(), a, mode, item)
      ensures Wraps(mode, advisory)
    {
      if advisory != null {
        advisory.advice, advisory.coverage := item.advice, item.coverage;
      }
      r := SettleOne(a, mode, item, advisory);
    }

    method SettleEach(a: Attempt, mode: Mode, names: seq<string>, items: seq<Advised>, advisory: AdvisoryAudit?)
      returns (verdicts: seq<ItemVerdict>)
      requires |names| == |items| && ItemsCommittable(items) && Wraps(mode, advisory)
      modifies at, outbox, obligations, connector, audit, advisory
      ensures (State(), verdicts) == SettleItems(old(State()), Config(), a, mode, names, items)
      ensures Wraps(mode, advisory)
    {
      verdicts := [];
      ghost var all := SettleItems(State(), Config(), a, mode, names, items);
      var i := 0;
      NothingYet(all);
      assert names[0..] == names && items[0..] == items;
      while i < |items|
        invariant 0 <= i <= |items| && Wraps(mode, advisory)
        invariant all == After(verdicts, SettleItems(State(), Config(), a, mode, names[i..], items[i..]))
      {
        assert names[i..][1..] == names[i + 1..] && items[i..][1..] == items[i + 1..];
        ghost var before := State();
        var settled := SettleNext(a, mode, items[i], advisory);
        SettleItemsStep(before, Config(), a, mode, names[i..], items[i..], verdicts, State(), settled);
        verdicts := verdicts + [VerdictOf(names[i], items[i].decided, settled)];
        i := i + 1;
      }
      NothingLeft(verdicts, State());
    }

    /** The values and names of the allowed items, gathered in order. */
    method GatherAllowed(values: seq<Value>, names: seq<string>, items: seq<Advised>)
      returns (subset: seq<Value>, applied: seq<string>)
      requires |values| == |names| == |items|
      ensures subset == AllowedValues(values, items) && applied == AllowedNames(names, items)
    {
      subset, applied := [], [];
      var i := 0;
      assert values[0..] == values && names[0..] == names && items[0..] == items;
      assert [] + AllowedValues(values, items) == AllowedValues(values, items);
      assert [] + AllowedNames(names, items) == AllowedNames(names, items);
      while i < |items|
        invariant 0 <= i <= |items|
        invariant AllowedValues(values, items) == subset + AllowedValues(values[i..], items[i..])
        invariant AllowedNames(names, items) == applied + AllowedNames(names[i..], items[i..])
      {
        assert values[i..][1..] == values[i + 1..] && names[i..][1..] == names[i + 1..];
        assert items[i..][1..] == items[i + 1..];
        if IsAllowed(items[i]) {
          subset, applied := subset + [values[i]], applied + [names[i]];
        }
        i := i + 1;
      }
    }

    /** The first allowed item enforcement would have allowed too, else the first allowed one. */
    method PickTemplate(items: seq<Advised>) returns (t: Option<Advised>)
      ensures t == Template(items)
    {
      t := None;
      var i := 0;
      assert items[0..] == items;
      while i < |items|
        invariant 0 <= i <= |items|
        invariant FirstAllowed(Undiverged(items)) == FirstAllowed(Undiverged(items[i..]))
        invariant FirstAllowed(items) == if t.Some? then t else FirstAllowed(items[i..])
      {
        assert items[i..][1..] == items[i + 1..];
        UndivergedStep(items[i..]);
        if IsAllowed(items[i]) {
          if items[i].advice.None? { return Some(items[i]); }
          if t.None? { t := Some(items[i]); }
        }
        i := i + 1;
      }
    }

    /** Apply the allowed subset as one call; under advisory its record carries the advice for all of them. */
    method ApplyMerged(a: Attempt, def: ItemsDef, mode: Mode, names: seq<string>, values: seq<Value>,
                       items: seq<Advised>, subset: seq<Value>, advisory: AdvisoryAudit?)
      returns (merged: Option<EvalResult>)
      requires |names| == |values| == |items| && ItemsCommittable(items) && Wraps(mode, advisory)
      requires subset == AllowedValues(values, items)
      modifies at, outbox, obligations, connector, audit, advisory
      ensures (State(), merged) == CommitMerged(old(State()), Config(), a, def, mode, names, values, items)
    {
      var template := PickTemplate(items);
      if template.None? { return None; }
      if advisory != null {
        var stamp := CallStamp(mode, names, items).value;
        advisory.advice, advisory.coverage, advisory.itemAdvice := stamp.advice, stamp.coverage, stamp.itemAdvice;
      }
      var decided := MergedDecided(template.value.decided, a.call, def, subset);
      var r := CommitOne(JobFor(a.party, a.env, mode, advisory), decided, advisory);
      return Some(WithFeedback(r, template.value.decided));
    }

    method ServeItems(a: Attempt, def: ItemsDef, mode: Mode) returns (r: EvalResult)
      requires |ItemValues(a.call, def)| >= 2
      modifies at, outbox, obligations, connector, audit
      ensures (State(), r) == EnforcePerItem(old(State()), Config(), a, def, mode)
    {
      var values := ItemValues(a.call, def);
      if OverCeiling(def, values) {
        r := ServeOverCeiling(a, mode);
      } else {
        r := ServeFanOut(a, def, values, mode);
      }
    }

    method ServeOverCeiling(a: Attempt, mode: Mode) returns (r: EvalResult)
      modifies at, outbox, obligations, connector, audit
      ensures (State(), r) == EnforceOverCeiling(old(State()), Config(), a, mode)
    {
      if mode == Enforced {
        r := Terminal(JobFor(a.party, a.env, Enforced, null), Verdict(a.call, None, Decision.Deny, ItemsOverCeiling),
                      Close(Decision.Deny, ItemsOverCeiling, NotExecuted), null);
        return;
      }
      var whole := DecideNow(a.call, a.party, a.env);
      var forwarded := AsAdvised(whole, setup);
      var advisory := new AdvisoryAudit(audit);
      if forwarded.decided.decision == Decision.Allow {
        var reason := Classify(Decision.Deny, ItemsOverCeiling, []);
        advisory.advice := Some(Advice(Decision.Deny, ItemsOverCeiling, reason, None));
        advisory.coverage := Unjudged;
      } else {
        advisory.coverage := forwarded.coverage;
      }
      r := CommitOne(JobFor(a.party, a.env, Advisory, advisory), forwarded.decided, advisory);
      return WithFeedback(r, forwarded.decided);
    }

    method ServeFanOut(a: Attempt, def: ItemsDef, values: seq<Value>, mode: Mode) returns (r: EvalResult)
      requires values != []
      modifies at, outbox, obligations, connector, audit
      ensures (State(), r) == FanOut(old(State()), Config(), a, def, values, mode)
    {
      var names := ItemNames(values, def, setup.text);
      var advisory: AdvisoryAudit? := null;
      if mode == Advisory {
        advisory := new AdvisoryAudit(audit);
      }
      var ds := DecideEach(a, def, values);
      var items := TranslateEach(ds, mode);
      var verdicts := SettleEach(a, mode, names, items, advisory);
      var subset, applied := GatherAllowed(values, names, items);
      var merged := ApplyMerged(a, def, mode, names, values, items, subset, advisory);
      if merged.None? || merged.value.decision != Decision.Allow {
        applied := [];
      }
      r := Envelope(Reconcile(verdicts, merged, mode), applied, merged, items[0].decided.feedback);
    }

    // ---- batches ------------------------------------------------------------------------------

    method DecideBatch(p: Party, ops: seq<Operation>) returns (ds: seq<Decided>)
      modifies at
      ensures (State(), ds) == DecideAll(old(State()), Config(), p, ops)
    {
      ds := [];
      ghost var all := DecideAll(State(), Config(), p, ops);
      var i := 0;
      NothingYet(all);
      assert ops[0..] == ops;
      while i < |ops|
        invariant 0 <= i <= |ops|
        invariant all == After(ds, DecideAll(State(), Config(), p, ops[i..]))
      {
        assert ops[i..][1..] == ops[i + 1..];
        ghost var before := State();
        var d := DecideNow(ops[i].call, p, ops[i].env);
        DecideAllStep(before, Config(), p, ops[i..], ds, State(), d);
        ds := ds + [d];
        i := i + 1;
      }
      NothingLeft(ds, State());
    }

    /** The first refusal, and the first one the kill machinery caused. */
    method FindRefusals(ds: seq<Decided>) returns (refusal: nat, kill: nat)
      ensures refusal == FirstRefusal(ds) && kill == FirstKill(ds)
    {
      refusal, kill := 0, 0;
      assert ds[0..] == ds;
      while refusal < |ds| && !Refused(ds[refusal].decision)
        invariant 0 <= refusal <= |ds|
        invariant FirstRefusal(ds) == refusal + FirstRefusal(ds[refusal..])
      {
        assert ds[refusal..][1..] == ds[refusal + 1..];
        refusal := refusal + 1;
      }
      while kill < |ds| && !(ds[kill].decision == Decision.Halt && KillCaused(ds[kill].rule))
        invariant 0 <= kill <= |ds|
        invariant FirstKill(ds) == kill + FirstKill(ds[kill..])
      {
        assert ds[kill..][1..] == ds[kill + 1..];
        kill := kill + 1;
      }
    }

    /** Record every operation of a refused batch. */
    method RecordRefused(p: Party, ops: seq<Operation>, ds: seq<Decided>, closings: seq<Closing>,
                         advisory: AdvisoryAudit?) returns (rs: seq<EvalResult>)
      requires |ops| == |ds| == |closings| && Sinks(advisory)
      modifies audit
      ensures (State(), rs) == RefuseAll(old(State()), Config(), p, ops, ds, StampOf(advisory), closings)
    {
      rs := [];
      ghost var all := RefuseAll(State(), Config(), p, ops, ds, StampOf(advisory), closings);
      var i := 0;
      NothingYet(all);
      assert ops[0..] == ops && ds[0..] == ds && closings[0..] == closings;
      while i < |ds|
        invariant 0 <= i <= |ds|
        invariant all == After(rs, RefuseAll(State(), Config(), p, ops[i..], ds[i..], StampOf(advisory), closings[i..]))
      {
        ghost var before := State();
        var r := Terminal(JobFor(p, ops[i].env, Enforced, advisory), ds[i], closings[i], advisory);
        RefuseAllStep(before, Config(), p, ops, ds, StampOf(advisory), closings, i, rs, State(), r);
        rs := rs + [WithFeedback(r, ds[i])];
        i := i + 1;
      }
      NothingLeft(rs, State());
    }

    /** Reserve in order, writing each claim into its operation; stop at the first reservation refused. */
    method ReserveEach(ds: seq<Decided>) returns (decided: seq<Decided>, failing: nat, refusal: Option<Rule>)
      modifies at, obligations
      ensures |decided| == |ds| && failing <= |ds| && decided[failing..] == ds[failing..]
      ensures refusal.None? ==> failing == |ds|
      ensures PrePass(State(), decided[..failing], refusal) == ReserveAll(old(State()), Config(), ds)
    {
      decided, failing, refusal := ds, 0, None;
      ghost var all := ReserveAll(State(), Config(), ds);
      assert ds[0..] == ds && [] + all.ds == all.ds;
      while failing < |ds|
        invariant 0 <= failing <= |ds| == |decided| && refusal.None?
        invariant decided[failing..] == ds[failing..]
        invariant all == Resumed(decided[..failing], ReserveAll(State(), Config(), ds[failing..]))
      {
        ghost var before, done := State(), decided[..failing];
        assert ds[failing..][0] == ds[failing] && ds[failing..][1..] == ds[failing + 1..];
        var claimed: Decided;
        claimed, refusal := ReserveNext(ds[failing]);
        if refusal.Some? {
          assert done + [] == done;
          return;
        }
        ReserveAllStep(before, Config(), ds[failing..], done, State(), claimed);
        decided := decided[failing := claimed];
        assert decided[..failing + 1] == done + [claimed];
        failing := failing + 1;
      }
      assert decided[..failing] + [] == decided[..failing];
    }

    method ReserveNext(d: Decided) returns (claimed: Decided, refusal: Option<Rule>)
      modifies at, obligations
      ensures Reserves(old(State()), Config(), d, State(), claimed, refusal)
    {
      claimed, refusal := d, None;
      var plan := ClaimEvidence(d.gates);
      if plan.Some? {
        var reservation := Reserve(plan.value);
        if reservation.Rejected? {
          refusal := Some(reservation.rule);
        } else {
          claimed := d.(claim := Some(reservation.claim));
        }
      }
    }

    method ReleaseEach(ds: seq<Decided>)
      modifies at, obligations
      ensures State() == ReleaseAll(old(State()), Config(), ds)
    {
      var i := 0;
      assert ds[0..] == ds;
      while i < |ds|
        invariant 0 <= i <= |ds|
        invariant ReleaseAll(old(State()), Config(), ds) == ReleaseAll(State(), Config(), ds[i..])
      {
        assert ds[i..][1..] == ds[i + 1..];
        Release(ds[i].claim);
        i := i + 1;
      }
    }

    /** Commit in submission order; an advisory wrapper is told each operation's advice before its commit. */
    method CommitEach(p: Party, mode: Mode, ops: seq<Operation>, ds: seq<Decided>, stamps: seq<Option<Stamp>>,
                      advisory: AdvisoryAudit?) returns (rs: seq<EvalResult>)
      requires |ops| == |ds| == |stamps| && AllCommittable(ds) && Sinks(advisory)
      requires forall i | 0 <= i < |ds| :: stamps[i].Some? <==> advisory != null
      modifies at, outbox, obligations, connector, audit, advisory
      ensures (State(), rs) == CommitAll(old(State()), Config(), p, mode, ops, ds, stamps)
    {
      rs := [];
      ghost var all := CommitAll(State(), Config(), p, mode, ops, ds, stamps);
      var i := 0;
      NothingYet(all);
      assert ops[0..] == ops && ds[0..] == ds && stamps[0..] == stamps;
      while i < |ds|
        invariant 0 <= i <= |ds|
        invariant all == After(rs, CommitAll(State(), Config(), p, mode, ops[i..], ds[i..], stamps[i..]))
      {
        assert ops[i..][1..] == ops[i + 1..] && ds[i..][1..] == ds[i + 1..];
        assert stamps[i..][1..] == stamps[i + 1..];
        ghost var before := State();
        var r := CommitStamped(p, ops[i].env, mode, ds[i], stamps[i], advisory);
        CommitAllStep(before, Config(), p, mode, ops[i..], ds[i..], stamps[i..], rs, State(), r);
        rs := rs + [WithFeedback(r, ds[i])];
        i := i + 1;
      }
      NothingLeft(rs, State());
    }

    method CommitStamped(p: Party, env: RequestEnv, mode: Mode, d: Decided, stamp: Option<Stamp>,
                         advisory: AdvisoryAudit?) returns (r: EvalResult)
      requires Committable(d) && Sinks(advisory) && (stamp.Some? <==> advisory != null)
      modifies at, outbox, obligations, connector, audit, advisory
      ensures (State(), r) == Commit(old(State()), JobOf(Config(), p, env, mode, stamp), d)
    {
      if advisory != null {
        var s := stamp.value;
        advisory.advice, advisory.coverage := s.advice, s.coverage;
        advisory.batchAdvice, advisory.itemAdvice := s.batchAdvice, s.itemAdvice;
      }
      r := CommitOne(JobFor(p, env, mode, advisory), d, advisory);
    }

    method Summarise(rs: seq<EvalResult>) returns (b: BatchResult)
      ensures b == Summary(rs)
    {
      var i, held := 0, false;
      assert rs[0..] == rs;
      while i < |rs|
        invariant 0 <= i <= |rs|
        invariant FirstFailed(rs) == i + FirstFailed(rs[i..])
        invariant held <==> exists k | 0 <= k < i :: rs[k].decision == Decision.Hold
      {
        assert rs[i..][1..] == rs[i + 1..];
        if Refused(rs[i].decision) { return BatchResult(rs[i].decision, Some(i), rs); }
        held := held || rs[i].decision == Decision.Hold;
        i := i + 1;
      }
      return BatchResult(if held then Decision.Hold else Decision.Allow, None, rs);
    }

    /** The batch entry point. */
    method ServeBatch(p: Party, ops: seq<Operation>, mode: Mode) returns (b: BatchResult)
      requires ops != []
      modifies at, outbox, obligations, connector, audit
      ensures (State(), b) == EnforceBatch(old(State()), Config(), p, ops, mode)
    {
      var ds := DecideBatch(p, ops);
      var refusal, kill := FindRefusals(ds);
      if mode == Advisory {
        if kill < |ds| {
          var advisory := new AdvisoryAudit(audit);
          b := ServeRefused(p, ops, ds, kill, advisory);
        } else {
          b := ServeAdvised(p, ops, ds, refusal);
        }
      } else if refusal < |ds| {
        b := ServeRefused(p, ops, ds, refusal, null);
      } else {
        b := ServeCommitted(p, ops, ds);
      }
    }

    method ServeRefused(p: Party, ops: seq<Operation>, ds: seq<Decided>, failing: nat, advisory: AdvisoryAudit?)
      returns (b: BatchResult)
      requires |ops| == |ds| && failing < |ds| && Sinks(advisory)
      modifies audit
      ensures (State(), b) == RefuseBatch(old(State()), Config(), p, ops, ds, failing, StampOf(advisory))
    {
      var rs := RecordRefused(p, ops, ds, RefusalClosings(ds), advisory);
      return BatchResult(ds[failing].decision, Some(failing), rs);
    }

    method ServeCommitted(p: Party, ops: seq<Operation>, ds: seq<Decided>) returns (b: BatchResult)
      requires |ops| == |ds| && AllCommittable(ds)
      modifies at, outbox, obligations, connector, audit
      ensures (State(), b) == CommitBatch(old(State()), Config(), p, ops, ds)
    {
      var decided, failing, refusal := ReserveEach(ds);
      if refusal.Some? {
        ReleaseEach(decided[..failing]);
        assert decided == decided[..failing] + ds[failing..];
        var rs := RecordRefused(p, ops, decided, ReservationClosings(decided, failing, refusal.value), null);
        return BatchResult(Decision.Deny, Some(failing), rs);
      }
      assert decided[..failing] == decided;
      var rs := CommitEach(p, Enforced, ops, decided, NoStamps(|ds|), null);
      b := Summarise(rs);
    }

    method ServeAdvised(p: Party, ops: seq<Operation>, ds: seq<Decided>, failing: nat) returns (b: BatchResult)
      requires |ops| == |ds| && AllCommittable(ds) && failing == FirstRefusal(ds) && FirstKill(ds) == |ds|
      modifies at, outbox, obligations, connector, audit
      ensures (State(), b) == AdviseBatch(old(State()), Config(), p, ops, ds)
    {
      var advisory := new AdvisoryAudit(audit);
      var note := if failing < |ds| then Some(BatchAdvice(failing, ds[failing].decision)) else None;
      var items := TranslateEach(ds, Advisory);
      var translated := seq(|ds|, i requires 0 <= i < |ds| => items[i].decided);
      var stamps := seq(|ds|, i requires 0 <= i < |ds| =>
        Some(Stamp(items[i].advice, items[i].coverage, note, None)));
      var rs := CommitEach(p, Advisory, ops, translated, stamps, advisory);
      b := Summarise(rs);
    }
  }
}
