/** Every terminal path writes exactly one record, and nothing is staged or executed without one. */
module AuditTotality {
  import opened Vocabulary
  import opened Stores
  import opened Holds
  import opened Pipeline
  import opened Enforcement

  /** One record more, saying what the result says; everything written before is untouched. */
  ghost predicate OneRecord(w: World, w': World, r: EvalResult) {
    && |w'.audit| == |w.audit| + 1
    && w'.audit[..|w.audit|] == w.audit
    && Says(w'.audit[|w.audit|], r)
  }

  ghost predicate Says(record: AuditRecord, r: EvalResult) {
    && record.finding.decision == r.decision && record.finding.reason == r.reason
    && record.finding.gates == r.gates && record.finding.scopeApplied == r.scopeApplied
    && (record.finding.rule == r.rule || (r.decision == Decision.Allow && record.label_.advised.Some?))
  }

  /** A staged row or an execution, and what the record must then say about it. */
  ghost predicate Witnessed(w: World, w': World, record: AuditRecord, r: EvalResult) {
    // a row appears only for an allowed effect or a hold, under the result's ticket, unless its staging answer was lost
    && (|w'.rows| == |w.rows| || |w'.rows| == |w.rows| + 1)
    && (|w'.rows| == |w.rows| + 1 ==>
          var row := w'.rows[|w.rows|];
          || (r.ticket == Some(row.ticket)
              && if row.state == PendingApproval then r.decision == Decision.Hold
                 else row.state == Pending && r.decision == Decision.Allow && record.finding.outcome == Staged)
          || (row.ticket in w'.lost && r.decision == Decision.Deny && r.ticket.None?))
    && (record.finding.outcome == Staged ==> |w'.rows| == |w.rows| + 1)
    // an action executes at most once, and a success is recorded only for one that executed
    && (w'.executed == w.executed || (|w'.executed| == |w.executed| + 1 && w'.executed[..|w.executed|] == w.executed))
    && (record.finding.outcome == Succeeded <==> r.output.Some?)
    && (record.finding.outcome == Succeeded ==> |w'.executed| == |w.executed| + 1)
    // a refusal leaves no row whose staging was answered
    && (Refused(r.decision) ==> r.ticket.None? && r.output.None?)
  }

  ghost predicate Audited(w: World, w': World, r: EvalResult) {
    OneRecord(w, w', r) && Witnessed(w, w', w'.audit[|w.audit|], r)
  }

  /** The record is about this call and carries the job's labels. */
  ghost predicate Signed(record: AuditRecord, j: Job, d: Decided) {
    record.subject == SubjectOf(j, d) && record.label_ == LabelOf(j.stamp)
  }

  /** Calls before the final record: no record yet, at most one row and one execution. */
  lemma FinishAudits(w: World, m: World, j: Job, d: Decided, c: Closing)
    requires m.audit == w.audit
    ensures var (w', r) := Finish(m, j, d, c);
      && OneRecord(w, w', r) && Signed(w'.audit[|w.audit|], j, d)
      && w'.audit[|w.audit|].finding.outcome == c.outcome
      && r.decision == c.decision && r.ticket == c.ticket && r.output == c.output
      && w'.rows == m.rows && w'.executed == m.executed && w'.lost == m.lost
  {
    var (w', r) := Finish(m, j, d, c);
    assert w'.audit[|w.audit|] == RecordOf(j, d, c, r.reason);
    assert w'.audit[..|w.audit|] == w.audit;
  }

  lemma ReservationQuiet(w: World, j: Job, d: Decided)
    ensures var m := ClaimFor(w, j, d).0;
      m.audit == w.audit && m.rows == w.rows && m.executed == w.executed && m.lost == w.lost
  {
  }

  lemma ReleaseQuiet(w: World, s: Setup, outside: Outside, claim: Option<Claim>)
    ensures var m := ReleaseClaim(w, s, outside, claim);
      m.audit == w.audit && m.rows == w.rows && m.executed == w.executed && m.lost == w.lost
  {
  }

  lemma StageRowAudits(w: World, j: Job, d: Decided, state: RowState)
    requires d.resolved.Some? && (state == PendingApproval || state == Pending)
    ensures var (w', r) := StageRow(w, j, d, state); Audited(w, w', r) && Signed(w'.audit[|w.audit|], j, d)
  {
    var expiry := StagingExpiry(j, d.resolved.value);
    if expiry == NoClock {
      FinishAudits(w, w, j, d, Close(Decision.Deny, FreshnessUnavailable, NotExecuted));
    } else {
      var (reserved, reservation) := ClaimFor(w, j, d);
      ReservationQuiet(w, j, d);
      if reservation.Rejected? {
        FinishAudits(w, reserved, j, d, Close(Decision.Deny, reservation.rule, NotExecuted));
      } else {
        var claim := ClaimOf(reservation);
        var (staged, ticket) := Stage(reserved, j.outside, RowFor(reserved, j, d, state, expiry, claim));
        if ticket.None? {
          ReleaseQuiet(staged, j.setup, j.outside, claim);
          FinishAudits(w, ReleaseClaim(staged, j.setup, j.outside, claim), j, d,
                       Close(Decision.Deny, OutboxUnavailable, NotExecuted));
        } else {
          FinishAudits(w, staged, j, d, StagedClosing(d, state, ticket, claim));
        }
      }
    }
  }

  lemma InlineAudits(w: World, j: Job, d: Decided)
    requires d.resolved.Some?
    ensures var (w', r) := CommitInline(w, j, d); Audited(w, w', r) && Signed(w'.audit[|w.audit|], j, d)
  {
    if !j.setup.connectors {
      FinishAudits(w, w, j, d, Close(Decision.Allow, d.rule, NotExecuted));
    } else if j.setup.mismatch(d.resolved.value) {
      FinishAudits(w, w, j, d, Degraded(d, j, DigestMismatch));
    } else {
      var (reserved, reservation) := ClaimFor(w, j, d);
      ReservationQuiet(w, j, d);
      if reservation.Rejected? {
        FinishAudits(w, reserved, j, d, Close(Decision.Deny, reservation.rule, NotExecuted));
      } else {
        var claim := ClaimOf(reservation);
        var (ran, output) := Execute(reserved, j.outside, Execution(d.resolved.value, d.scope, j.party.actor));
        assert ran.executed == w.executed || (|ran.executed| == |w.executed| + 1 && ran.executed[..|w.executed|] == w.executed);
        if output.None? {
          ReleaseQuiet(ran, j.setup, j.outside, claim);
          FinishAudits(w, ReleaseClaim(ran, j.setup, j.outside, claim), j, d, Degraded(d, j, ConnectorUnavailable));
        } else {
          var (consumed, consumption) := ConsumeClaim(ran, j.setup, j.outside, claim);
          FinishAudits(w, consumed, j, d,
                       Close(Decision.Allow, d.rule, Succeeded)
                       .(output := output, consumption := consumption, count := CountOf(j, d, output.value)));
        }
      }
    }
  }

  lemma HoldAudits(w: World, j: Job, d: Decided)
    requires d.resolved.Some?
    ensures var (w', r) := CommitHold(w, j, d); Audited(w, w', r) && Signed(w'.audit[|w.audit|], j, d)
  {
    if !j.setup.outbox {
      FinishAudits(w, w, j, d, Close(Decision.Hold, d.rule, NotExecuted).(approval := ApprovalOf(d, None)));
    } else {
      var (listed, duplicate) := FindDuplicate(w, j, d);
      if duplicate.None? {
        StageRowAudits(listed, j, d, PendingApproval);
      } else {
        var (bumped, ok) := BumpAttempts(listed, j.outside, duplicate.value);
        if ok {
          FinishAudits(w, bumped, j, d,
                       Close(Decision.Hold, d.rule, HoldDeduped)
                       .(ticket := duplicate, approval := ApprovalOf(d, duplicate)));
        } else {
          StageRowAudits(bumped, j, d, PendingApproval);
        }
      }
    }
  }

  ghost predicate NeverStagedBefore(d: Decided) {
    Refused(d.decision) ==> d.outcome != Staged && d.outcome != Succeeded
  }

  /** Whatever is wired and whatever fails, a commit writes exactly its own record. */
  lemma CommitAudits(w: World, j: Job, d: Decided)
    requires Committable(d) && NeverStagedBefore(d)
    ensures var (w', r) := Commit(w, j, d); Audited(w, w', r) && Signed(w'.audit[|w.audit|], j, d)
  {
    if Refused(d.decision) {
      FinishAudits(w, w, j, d, Close(d.decision, d.rule, d.outcome));
    } else if d.decision == Decision.Hold {
      HoldAudits(w, j, d);
    } else if d.resolved.value.kind != Effect {
      InlineAudits(w, j, d);
    } else if j.setup.outbox {
      StageRowAudits(w, j, d, Pending);
    } else {
      FinishAudits(w, w, j, d, Close(Decision.Allow, d.rule, NotExecuted));
    }
  }

  lemma DecideOutcome(d: Deps, call: RawCall, p: Party, env: RequestEnv, at: nat, history: seq<AuditRecord>)
    ensures var v := Decide(d, call, p, env, at, history); v.outcome == NotExecuted || v.outcome == Halted
  {
  }

  /** Every call decided as one unit ends in exactly one record of its result, in both modes. */
  lemma WholeAudits(w: World, g: Gateway, a: Attempt, mode: Mode)
    ensures var (w', r) := EnforceWhole(w, g, a, mode); Audited(w, w', r)
  {
    var (after, decided) := DecideIn(w, g, a.call, a.party, a.env);
    DecideOutcome(g.deps, a.call, a.party, a.env, w.calls, w.audit);
    if mode == Enforced {
      CommitAudits(after, JobOf(g, a.party, a.env, Enforced, None), decided);
    } else {
      var advised := AsAdvised(decided, g.setup);
      var stamp := Stamp(advised.advice, advised.coverage, None, None);
      CommitAudits(after, JobOf(g, a.party, a.env, Advisory, Some(stamp)), advised.decided);
    }
  }

  /** The same for every call that is not fanned out, an over-ceiling one included. */
  lemma EnforceAudits(w: World, g: Gateway, a: Attempt, mode: Mode)
    requires
      var def := ItemsDeclaration(g.deps, a.call);
      def.Some? ==> OverCeiling(def.value, ItemValues(a.call, def.value))
    ensures var (w', r) := Enforce(w, g, a, mode); Audited(w, w', r)
  {
    if ItemsDeclaration(g.deps, a.call).None? {
      WholeAudits(w, g, a, mode);
    } else if mode == Enforced {
      var refusal := Verdict(a.call, None, Decision.Deny, ItemsOverCeiling);
      FinishAudits(w, w, JobOf(g, a.party, a.env, Enforced, None), refusal,
                   Close(Decision.Deny, ItemsOverCeiling, NotExecuted));
    } else {
      var (after, whole) := DecideIn(w, g, a.call, a.party, a.env);
      DecideOutcome(g.deps, a.call, a.party, a.env, w.calls, w.audit);
      var forwarded := AsAdvised(whole, g.setup);
      CommitAudits(after, JobOf(g, a.party, a.env, Advisory, Some(CeilingStamp(forwarded))), forwarded.decided);
    }
  }
}
