/** What the one record of a commit says, field by field, down every way a commit can end. */
module Records {
  import opened Vocabulary
  import opened Stores
  import opened Holds
  import opened Pipeline
  import opened Enforcement
  import opened AuditTotality
  import opened StagedRows
  import HoldDedupe

  // ---- whose record, and under which labels -------------------------------------------------

  /** The run is the correlation the caller gave, and the session without one. */
  ghost predicate RunOf(run: string, session: Session) {
    match session.correlation
    case Some(correlation) => run == if correlation == "" then session.id else correlation
    case None => run == session.id
  }

  /** The record names the actor, the run and the action as it was resolved, and keeps the call's own payload. */
  ghost predicate NamesCall(record: AuditRecord, j: Job, d: Decided) {
    var s := record.subject;
    && s.agent == j.agent && s.actor == j.party.actor.id && RunOf(s.run, j.party.session) && s.parameters == d.call.data
    && match d.resolved
       case Some(action) => s.kind == Some(action.kind) && s.resource == action.resource && s.action == action.action
       case None => s.kind.None? && s.resource == d.call.resource && s.action == d.call.action
  }

  /** Only an advisory deployment's records carry advice. */
  ghost predicate Labels(label_: Label, stamp: Option<Stamp>) {
    match stamp
    case None =>
      label_.enforcement == Enforced && label_.advised.None? && label_.coverage == Judged
      && label_.batchAdvice.None? && label_.itemAdvice.None?
    case Some(s) =>
      label_.enforcement == Advisory && label_.advised == s.advice && label_.coverage == s.coverage
      && label_.batchAdvice == s.batchAdvice && label_.itemAdvice == s.itemAdvice
  }

  /** The answer and its record agree; an advised ALLOW is recorded under the rule enforcement would have named. */
  ghost predicate Agrees(record: AuditRecord, r: EvalResult, j: Job, d: Decided, c: Closing) {
    var f := record.finding;
    && r.decision == c.decision && r.rule == c.rule && r.ticket == c.ticket && r.output == c.output
    && r.gates == d.gates && r.scopeApplied == d.scopeApplied && r.items == [] && r.applied == []
    && f.decision == c.decision && f.reason == r.reason && f.gates == d.gates && f.scopeApplied == d.scopeApplied
    && f.outcome == c.outcome && f.approval == c.approval && f.consumption == c.consumption && f.scopeWouldRemove == c.count
    && (c.decision == Decision.Allow && record.label_.advised.Some? ==> f.rule == record.label_.advised.value.rule)
    && (c.decision != Decision.Allow || record.label_.advised.None? ==> f.rule == c.rule)
  }

  lemma FinishTells(m: World, j: Job, d: Decided, c: Closing)
    ensures var (w', r) := Finish(m, j, d, c);
      && |w'.audit| == |m.audit| + 1 && m.audit <= w'.audit && w' == m.(audit := w'.audit)
      && NamesCall(w'.audit[|m.audit|], j, d) && Labels(w'.audit[|m.audit|].label_, j.stamp)
      && Agrees(w'.audit[|m.audit|], r, j, d, c)
      && r.reason == Classify(c.decision, c.rule, d.gates)
  {
  }

  // ---- how a commit ends ---------------------------------------------------------------------

  /** Nothing beyond the decision, its rule and what became of it. */
  predicate Bare(c: Closing) {
    c.ticket.None? && c.output.None? && c.approval.None? && c.consumption.None? && c.count.None?
  }

  predicate Timeless(j: Job) {
    j.setup.freshness.Some? && j.env.now.None?
  }

  /** The note tells the ticket and the contracts, and there is one only if something is asked. */
  ghost predicate NotesApproval(c: Closing, d: Decided) {
    if d.releases == [] then c.approval.None?
    else c.approval.Some? && c.approval.value.ticket == c.ticket && c.approval.value.releases == d.releases
  }

  ghost predicate NotesReserved(c: Closing, row: Row) {
    match row.obligation
    case None => c.consumption.None?
    case Some(claim) => c.consumption.Some? && c.consumption.value.state == ClaimReserved && c.consumption.value.claim == claim
  }

  /** Put down as a row: under the row's ticket, and with its reservation. */
  ghost predicate EndsStaged(w: World, m: World, c: Closing, d: Decided) {
    && |m.rows| == |w.rows| + 1 && var row := m.rows[|w.rows|];
    && c.rule == d.rule && c.ticket == Some(row.ticket) && c.output.None? && c.count.None? && NotesReserved(c, row)
    && if row.state == PendingApproval
       then c.decision == Decision.Hold && c.outcome == NotExecuted && NotesApproval(c, d)
       else c.decision == Decision.Allow && c.outcome == Staged && c.approval.None?
  }

  /** Refused by a store on the way: nothing executed, nothing noted. */
  ghost predicate EndsRefused(c: Closing, j: Job) {
    && c.decision == Decision.Deny && c.outcome == NotExecuted && Bare(c)
    && (c.rule == FreshnessUnavailable <==> Timeless(j))
    && (c.rule == FreshnessUnavailable || c.rule == NoMatch || c.rule == ReservationUnavailable || c.rule == OutboxUnavailable)
  }

  lemma ReservationRules(w: World, j: Job, d: Decided)
    ensures var r := ClaimFor(w, j, d).1; r.Rejected? ==> r.rule == NoMatch || r.rule == ReservationUnavailable
  {
  }

  lemma StagingEnds(w: World, j: Job, d: Decided, state: RowState) returns (m: World, c: Closing)
    requires d.resolved.Some? && (state == PendingApproval || state == Pending)
    ensures StageRow(w, j, d, state) == Finish(m, j, d, c) && m.audit == w.audit
    ensures if c.decision == Decision.Deny then EndsRefused(c, j) else EndsStaged(w, m, c, d) && !Timeless(j)
    ensures c.decision != Decision.Deny ==> m.rows[|w.rows|].state == state
  {
    var expiry := StagingExpiry(j, d.resolved.value);
    if expiry == NoClock {
      m, c := w, Close(Decision.Deny, FreshnessUnavailable, NotExecuted);
    } else {
      var (reserved, reservation) := ClaimFor(w, j, d);
      ReservationQuiet(w, j, d);
      ReservationRules(w, j, d);
      if reservation.Rejected? {
        m, c := reserved, Close(Decision.Deny, reservation.rule, NotExecuted);
      } else {
        m, c := ClaimedEnds(reserved, j, d, state, expiry, ClaimOf(reservation));
      }
    }
  }

  lemma ClaimedEnds(w: World, j: Job, d: Decided, state: RowState, expiry: Expiry, claim: Option<Claim>)
    returns (m: World, c: Closing)
    requires d.resolved.Some? && (state == PendingApproval || state == Pending)
    ensures StageClaimed(w, j, d, state, expiry, claim) == Finish(m, j, d, c) && m.audit == w.audit
    ensures if c.decision == Decision.Deny then Bare(c) && c.rule == OutboxUnavailable && c.outcome == NotExecuted
            else EndsStaged(w, m, c, d) && m.rows[|w.rows|].state == state
  {
    var (staged, ticket) := Stage(w, j.outside, RowFor(w, j, d, state, expiry, claim));
    if ticket.None? {
      ReleaseQuiet(staged, j.setup, j.outside, claim);
      m, c := ReleaseClaim(staged, j.setup, j.outside, claim), Close(Decision.Deny, OutboxUnavailable, NotExecuted);
    } else {
      m, c := staged, StagedClosing(d, state, ticket, claim);
    }
  }

  /** Answered from the queue, or by nobody at all without an outbox: no row is staged. */
  ghost predicate EndsUnstaged(w: World, m: World, c: Closing, j: Job, d: Decided) {
    && |m.rows| == |w.rows| && c.decision == Decision.Hold && c.rule == d.rule && NotesApproval(c, d)
    && c.output.None? && c.consumption.None? && c.count.None?
    && if j.setup.outbox then c.outcome == HoldDeduped && c.ticket.Some? else c.outcome == NotExecuted && c.ticket.None?
  }

  lemma HoldEnds(w: World, j: Job, d: Decided) returns (m: World, c: Closing)
    requires d.resolved.Some? && d.decision == Decision.Hold
    ensures CommitHold(w, j, d) == Finish(m, j, d, c) && m.audit == w.audit
    ensures EndsUnstaged(w, m, c, j, d) || (j.setup.outbox && EndsStaged(w, m, c, d) && m.rows[|w.rows|].state == PendingApproval)
            || (j.setup.outbox && EndsRefused(c, j))
  {
    if !j.setup.outbox {
      m, c := w, Close(Decision.Hold, d.rule, NotExecuted).(approval := ApprovalOf(d, None));
    } else {
      var (listed, duplicate) := FindDuplicate(w, j, d);
      if duplicate.None? {
        m, c := StagingEnds(listed, j, d, PendingApproval);
      } else {
        var (bumped, ok) := BumpAttempts(listed, j.outside, duplicate.value);
        if ok {
          m := bumped;
          c := Close(Decision.Hold, d.rule, HoldDeduped).(ticket := duplicate, approval := ApprovalOf(d, duplicate));
        } else {
          m, c := StagingEnds(bumped, j, d, PendingApproval);
        }
      }
    }
  }

  // ---- reads and writes ------------------------------------------------------------------------

  predicate FailsClosed(d: Decided, j: Job)
    requires d.resolved.Some?
  {
    j.failureMode == Closed || (d.resolved.value.kind == Effect && d.resolved.value.reversibility == Irreversible)
  }

  /** The connector could not be used: refused, or let through with nothing done where open mode admits that. */
  ghost predicate EndsDegraded(c: Closing, j: Job, d: Decided, why: Rule)
    requires d.resolved.Some?
  {
    && c.outcome == NotExecuted && Bare(c)
    && if FailsClosed(d, j) then c.decision == Decision.Deny && c.rule == why
       else c.decision == Decision.Allow && c.rule == d.rule
  }

  /** The reservation was refused: nothing ran. */
  ghost predicate EndsUnreserved(w: World, m: World, c: Closing) {
    && c.decision == Decision.Deny && (c.rule == NoMatch || c.rule == ReservationUnavailable) && c.outcome == NotExecuted
    && Bare(c) && m.executed == w.executed
  }

  /** Let through without a connector to run it. */
  ghost predicate EndsUnconnected(c: Closing, d: Decided) {
    c.decision == Decision.Allow && c.rule == d.rule && c.outcome == NotExecuted && Bare(c)
  }

  /** What was spent of the claim: as the registry's line now says, if it answered. */
  ghost predicate NotesSpending(c: Closing, m: World, claim: Option<Claim>) {
    match claim
    case None => c.consumption.None?
    case Some(held) =>
      && c.consumption.Some? && c.consumption.value.claim == held
      && (c.consumption.value.state == ClaimConsumed ==> LineAt(m, KeyOf(held)) == Consumed(held.intent))
      && (c.consumption.value.state == ClaimConsumeRefused ==> LineAt(m, KeyOf(held)) != Consumed(held.intent))
      && c.consumption.value.state != ClaimReserved
  }

  /** It ran once, with the scope in force, for this actor. */
  ghost predicate EndsExecuted(w: World, m: World, c: Closing, j: Job, d: Decided)
    requires d.resolved.Some?
  {
    && c.decision == Decision.Allow && c.rule == d.rule && c.outcome == Succeeded && c.output.Some? && c.ticket.None?
    && c.approval.None?
    && m.executed == w.executed + [Execution(d.resolved.value, d.scope, j.party.actor)]
    && (c.count.Some? <==> d.measure.Some? && d.resolved.value.kind == Observe)
    && exists claim: Option<Claim> :: NotesSpending(c, m, claim) && (claim.None? <==> NothingToClaim(d))
  }

  ghost predicate NothingToClaim(d: Decided) {
    d.claim.None? && forall i | 0 <= i < |d.gates| :: !Consumable(d.gates[i])
  }

  ghost predicate EndsInline(w: World, m: World, c: Closing, j: Job, d: Decided)
    requires d.resolved.Some?
  {
    if !j.setup.connectors then m == w && EndsUnconnected(c, d)
    else if j.setup.mismatch(d.resolved.value) then m == w && EndsDegraded(c, j, d, DigestMismatch)
    else EndsExecuted(w, m, c, j, d) || EndsDegraded(c, j, d, ConnectorUnavailable) || EndsUnreserved(w, m, c)
  }

  lemma InlineEnds(w: World, j: Job, d: Decided) returns (m: World, c: Closing)
    requires d.resolved.Some?
    ensures CommitInline(w, j, d) == Finish(m, j, d, c) && m.audit == w.audit && m.rows == w.rows
    ensures EndsInline(w, m, c, j, d)
  {
    if !j.setup.connectors {
      m, c := w, Close(Decision.Allow, d.rule, NotExecuted);
    } else if j.setup.mismatch(d.resolved.value) {
      m, c := w, Degraded(d, j, DigestMismatch);
    } else {
      m, c := RunEnds(w, j, d);
    }
  }

  lemma RunEnds(w: World, j: Job, d: Decided) returns (m: World, c: Closing)
    requires d.resolved.Some? && j.setup.connectors && !j.setup.mismatch(d.resolved.value)
    ensures CommitInline(w, j, d) == Finish(m, j, d, c) && m.audit == w.audit && m.rows == w.rows
    ensures EndsExecuted(w, m, c, j, d) || EndsDegraded(c, j, d, ConnectorUnavailable) || EndsUnreserved(w, m, c)
  {
    var (reserved, reservation) := ClaimFor(w, j, d);
    ReservationQuiet(w, j, d);
    ReservationRules(w, j, d);
    if reservation.Rejected? {
      m, c := reserved, Close(Decision.Deny, reservation.rule, NotExecuted);
    } else {
      var claim := ClaimOf(reservation);
      var (ran, output) := Execute(reserved, j.outside, Execution(d.resolved.value, d.scope, j.party.actor));
      if output.None? {
        ReleaseQuiet(ran, j.setup, j.outside, claim);
        m, c := ReleaseClaim(ran, j.setup, j.outside, claim), Degraded(d, j, ConnectorUnavailable);
      } else {
        var (consumed, consumption) := ConsumeClaim(ran, j.setup, j.outside, claim);
        m := consumed;
        c := Close(Decision.Allow, d.rule, Succeeded)
             .(output := output, consumption := consumption, count := CountOf(j, d, output.value));
        ReservedFor(w, j, d);
        SpendingIsNoted(ran, j, claim, c);
      }
    }
  }

  lemma SpendingIsNoted(w: World, j: Job, claim: Option<Claim>, c: Closing)
    requires c.consumption == ConsumeClaim(w, j.setup, j.outside, claim).1
    ensures NotesSpending(c, ConsumeClaim(w, j.setup, j.outside, claim).0, claim)
  {
  }

  // ---- every commit -----------------------------------------------------------------------------

  /** How this commit ended, its calls having left `m` before the record was written. */
  ghost predicate Ends(w: World, m: World, c: Closing, j: Job, d: Decided)
    requires Committable(d)
  {
    if Refused(d.decision) then m == w && c.decision == d.decision && c.rule == d.rule && c.outcome == d.outcome && Bare(c)
    else if d.decision == Decision.Hold then
      || EndsUnstaged(w, m, c, j, d)
      || (j.setup.outbox && EndsStaged(w, m, c, d) && m.rows[|w.rows|].state == PendingApproval)
      || (j.setup.outbox && EndsRefused(c, j))
    else if d.resolved.value.kind == Effect then
      if !j.setup.outbox then m == w && EndsUnconnected(c, d)
      else (EndsStaged(w, m, c, d) && m.rows[|w.rows|].state == Pending && !Timeless(j)) || EndsRefused(c, j)
    else m.rows == w.rows && EndsInline(w, m, c, j, d)
  }

  /** One record, about this call, agreeing with the answer, and telling how the commit ended. */
  lemma CommitTells(w: World, j: Job, d: Decided) returns (m: World, c: Closing)
    requires Committable(d)
    ensures var (w', r) := Commit(w, j, d);
      && |w'.audit| == |w.audit| + 1 && w.audit <= w'.audit && w' == m.(audit := w'.audit)
      && NamesCall(w'.audit[|w.audit|], j, d) && Labels(w'.audit[|w.audit|].label_, j.stamp)
      && Agrees(w'.audit[|w.audit|], r, j, d, c)
    ensures Ends(w, m, c, j, d)
  {
    if Refused(d.decision) {
      m, c := w, Close(d.decision, d.rule, d.outcome);
    } else if d.decision == Decision.Hold {
      m, c := HoldEnds(w, j, d);
    } else if d.resolved.value.kind == Effect {
      if j.setup.outbox {
        m, c := StagingEnds(w, j, d, Pending);
      } else {
        m, c := w, Close(Decision.Allow, d.rule, NotExecuted);
      }
    } else {
      m, c := InlineEnds(w, j, d);
    }
    FinishTells(m, j, d, c);
  }

  // ---- why: the reason an answer carries ------------------------------------------------------------

  /** The last word of a gate in the trace: its latest result that did not pass. */
  ghost predicate LastWord(gates: seq<GateResult>, gate: Gate, k: nat) {
    && k < |gates| && gates[k].gate == gate && gates[k].outcome != Outcome.Pass
    && forall i | k < i < |gates| && gates[i].gate == gate :: gates[i].outcome == Outcome.Pass
  }

  ghost predicate NoWord(gates: seq<GateResult>, gate: Gate) {
    forall i | 0 <= i < |gates| && gates[i].gate == gate :: gates[i].outcome == Outcome.Pass
  }

  lemma {:induction false} NoWordDecides(gates: seq<GateResult>, gate: Gate)
    requires NoWord(gates, gate)
    ensures Deciding(gates, gate) == None
  {
    if gates != [] {
      var init := gates[..|gates| - 1];
      assert forall i | 0 <= i < |init| :: init[i] == gates[i];
      NoWordDecides(init, gate);
    }
  }

  lemma {:induction false} LastWordDecides(gates: seq<GateResult>, gate: Gate, k: nat)
    requires LastWord(gates, gate, k)
    ensures Deciding(gates, gate) == Some(gates[k])
  {
    if k < |gates| - 1 {
      var init := gates[..|gates| - 1];
      assert forall i | 0 <= i < |init| :: init[i] == gates[i];
      LastWordDecides(init, gate, k);
    }
  }

  /** The gates whose refusal may pass when the intent is changed and sent again. */
  const CORRIGIBLE := {ValueLimit, Rate, Quota, QuantityCap, SpendLimit, WindowGate, ContentCheck, RequireExplanation}

  function ClassOf(gate: Gate): RetryClass {
    if gate in CORRIGIBLE then Retryable else Terminal
  }

  /** The agent is told nothing with an ALLOW, the deciding gate's own words with its refusal, and the rule otherwise. */
  lemma ReasonExactly(decision: Decision, rule: Rule, gates: seq<GateResult>, k: nat)
    ensures decision == Decision.Allow ==> Classify(decision, rule, gates) == Reason(NoCode, None)
    ensures decision != Decision.Allow && !rule.GateRule? ==>
      Classify(decision, rule, gates) == Reason(RuleCode(rule), Some(if rule == HoldUnresolvable then Escalate else Terminal))
    ensures decision != Decision.Allow && rule.GateRule? && LastWord(gates, rule.gate, k) ==>
      var why, last := Classify(decision, rule, gates), gates[k];
      && why.code == (if last.code == "" then RuleCode(rule) else CheckCode(last.code))
      && why.retryClass == (if last.retryClass.Some? then last.retryClass
                            else if last.outcome == Outcome.Hold then None else Some(ClassOf(rule.gate)))
    ensures decision != Decision.Allow && rule.GateRule? && NoWord(gates, rule.gate) ==>
      Classify(decision, rule, gates) == Reason(RuleCode(rule), Some(ClassOf(rule.gate)))
  {
    if rule.GateRule? && NoWord(gates, rule.gate) {
      NoWordDecides(gates, rule.gate);
    }
    if rule.GateRule? && LastWord(gates, rule.gate, k) {
      LastWordDecides(gates, rule.gate, k);
    }
  }

  // ---- how many rows a scope would have removed --------------------------------------------------------

  ghost predicate Judgeable(s: Setup, scope: string, row: Value, actor: Actor) {
    row.Rec? && s.inScope(scope, row.fields, actor).Some?
  }

  ghost predicate Removed(s: Setup, scope: string, row: Value, actor: Actor) {
    row.Rec? && s.inScope(scope, row.fields, actor) == Some(false)
  }

  ghost function RemovedAt(s: Setup, scope: string, rows: seq<Value>, actor: Actor): set<nat> {
    set i: nat | i < |rows| && Removed(s, scope, rows[i], actor)
  }

  lemma CountStep(s: Setup, scope: string, rows: seq<Value>, actor: Actor)
    requires rows != []
    ensures CountRemoved(s, scope, rows, actor).Some? <==>
      Judgeable(s, scope, rows[0], actor) && CountRemoved(s, scope, rows[1..], actor).Some?
    ensures CountRemoved(s, scope, rows, actor).Some? ==>
      CountRemoved(s, scope, rows, actor).value
        == CountRemoved(s, scope, rows[1..], actor).value + if Removed(s, scope, rows[0], actor) then 1 else 0
  {
    if rows[0].Rec? {
      var inScope := s.inScope(scope, rows[0].fields, actor);
      if inScope.Some? {
        if inScope.value {
          assert inScope == Some(true);
        } else {
          assert inScope == Some(false);
        }
      }
    }
  }

  lemma {:induction false} RemovedAreCounted(s: Setup, scope: string, rows: seq<Value>, actor: Actor)
    ensures CountRemoved(s, scope, rows, actor).Some? <==> forall i | 0 <= i < |rows| :: Judgeable(s, scope, rows[i], actor)
    ensures CountRemoved(s, scope, rows, actor).Some? ==>
      CountRemoved(s, scope, rows, actor).value == |RemovedAt(s, scope, rows, actor)|
  {
    if rows == [] {
      assert RemovedAt(s, scope, rows, actor) == {};
    } else {
      var rest := rows[1..];
      RemovedAreCounted(s, scope, rest, actor);
      assert forall i | 1 <= i < |rows| :: rows[i] == rest[i - 1];
      assert forall i | 0 <= i < |rest| :: rest[i] == rows[i + 1];
      ShiftedCount(s, scope, rows, actor);
      CountStep(s, scope, rows, actor);
    }
  }

  lemma ShiftedCount(s: Setup, scope: string, rows: seq<Value>, actor: Actor)
    requires rows != []
    ensures |RemovedAt(s, scope, rows, actor)|
         == |RemovedAt(s, scope, rows[1..], actor)| + if Removed(s, scope, rows[0], actor) then 1 else 0
  {
    var rest, later := RemovedAt(s, scope, rows[1..], actor), set i: nat | i in RemovedAt(s, scope, rows[1..], actor) :: i + 1;
    assert |later| == |rest| by {
      SameSize(rest, later);
    }
    assert forall i: nat | 1 <= i < |rows| :: rows[i] == rows[1..][i - 1];
    forall i: nat ensures i in RemovedAt(s, scope, rows, actor) <==> (i == 0 && Removed(s, scope, rows[0], actor)) || i in later {
      if i > 0 && i in RemovedAt(s, scope, rows, actor) {
        assert i - 1 in rest;
      }
    }
    assert RemovedAt(s, scope, rows, actor) == if Removed(s, scope, rows[0], actor) then {0} + later else later;
  }

  lemma {:induction false} SameSize(a: set<nat>, b: set<nat>)
    requires b == set i: nat | i in a :: i + 1
    ensures |b| == |a|
    decreases a
  {
    if a != {} {
      var x :| x in a;
      var fewer := set i: nat | i in a - {x} :: i + 1;
      SameSize(a - {x}, fewer);
      assert b == fewer + {x + 1} by {
        forall n ensures n in b <==> n in fewer || n == x + 1 {
          if n in b && n != x + 1 {
            var i: nat :| i in a && i + 1 == n;
            assert i in a - {x};
          }
        }
      }
    }
  }

  /** What an advisory read tells: the count over the rows it looked at, or what stood in the way of counting. */
  lemma MeasureExactly(s: Setup, m: ScopeMeasure, output: Value, actor: Actor, k: nat)
    ensures !output.List? ==> MeasureScope(s, m, output, actor) == OutputNotRows
    ensures output.List? ==>
      var seen := if |output.items| <= m.cap then output.items else output.items[..m.cap];
      && ((forall i | 0 <= i < |seen| :: Judgeable(s, m.predicate_, seen[i], actor)) ==>
            MeasureScope(s, m, output, actor)
              == Measured(|RemovedAt(s, m.predicate_, seen, actor)|, |seen|, |output.items|))
      && (k < |seen| && !Judgeable(s, m.predicate_, seen[k], actor)
          && (forall i | 0 <= i < k :: Judgeable(s, m.predicate_, seen[i], actor)) ==>
            MeasureScope(s, m, output, actor) == if seen[k].Rec? then PredicateRaised else RowsNotAttributes)
  {
    if output.List? {
      var seen := if |output.items| <= m.cap then output.items else output.items[..m.cap];
      RemovedAreCounted(s, m.predicate_, seen, actor);
      if k < |seen| && !Judgeable(s, m.predicate_, seen[k], actor)
         && forall i | 0 <= i < k :: Judgeable(s, m.predicate_, seen[i], actor)
      {
        ObstacleIsFirst(s, m.predicate_, seen, actor, k);
      }
    }
  }

  lemma {:induction false} ObstacleIsFirst(s: Setup, scope: string, rows: seq<Value>, actor: Actor, k: nat)
    requires k < |rows| && !Judgeable(s, scope, rows[k], actor) && forall i | 0 <= i < k :: Judgeable(s, scope, rows[i], actor)
    ensures FirstObstacle(s, scope, rows, actor) == if rows[k].Rec? then PredicateRaised else RowsNotAttributes
  {
    if k > 0 {
      assert Judgeable(s, scope, rows[0], actor);
      assert forall i | 1 <= i < |rows| :: rows[i] == rows[1..][i - 1];
      ObstacleIsFirst(s, scope, rows[1..], actor, k - 1);
    }
  }
}
