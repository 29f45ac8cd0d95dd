/** An advisory deployment computes the enforced verdict, lets the action through, and keeps the kill switch. */
module AdvisoryMode {
  import opened Vocabulary
  import opened Stores
  import opened Holds
  import opened Pipeline
  import opened Enforcement
  import opened AuditTotality
  import opened FanOutPartition
  import Kill

  // ---- the mode is a label, never a branch ------------------------------------------

  ghost predicate SameRow(a: Row, b: Row) {
    a == b.(enforcement := a.enforcement)
  }

  ghost predicate SameRows(a: seq<Row>, b: seq<Row>) {
    |a| == |b| && forall i | 0 <= i < |a| :: SameRow(a[i], b[i])
  }

  /** Equal worlds up to the mode put on rows and the labels put on records. */
  ghost predicate SameButLabels(a: World, b: World) {
    && a == b.(rows := a.rows, audit := a.audit)
    && SameRows(a.rows, b.rows)
    && |a.audit| == |b.audit|
    && (forall i | 0 <= i < |a.audit| ::
          a.audit[i].subject == b.audit[i].subject && a.audit[i].finding == b.audit[i].finding)
  }

  ghost predicate SameAnswers(a: (World, EvalResult), b: (World, EvalResult)) {
    SameButLabels(a.0, b.0) && a.1 == b.1
  }

  /** Two jobs that differ only in the mode and in stamps without advice. */
  ghost predicate SameButMode(j: Job, k: Job) {
    && k == j.(mode := k.mode, stamp := k.stamp)
    && (j.stamp.Some? ==> j.stamp.value.advice.None?)
    && (k.stamp.Some? ==> k.stamp.value.advice.None?)
  }

  lemma FinishSame(a: World, b: World, j: Job, k: Job, d: Decided, c: Closing)
    requires SameButLabels(a, b) && SameButMode(j, k)
    ensures SameAnswers(Finish(a, j, d, c), Finish(b, k, d, c))
  {
  }

  lemma ReleaseSame(a: World, b: World, s: Setup, outside: Outside, claim: Option<Claim>)
    requires SameButLabels(a, b)
    ensures SameButLabels(ReleaseClaim(a, s, outside, claim), ReleaseClaim(b, s, outside, claim))
  {
  }

  lemma StageSame(a: World, b: World, outside: Outside, row: Row, twin: Row)
    requires SameButLabels(a, b) && SameRow(row, twin)
    ensures SameButLabels(Stage(a, outside, row).0, Stage(b, outside, twin).0)
    ensures Stage(a, outside, row).1 == Stage(b, outside, twin).1
  {
  }

  // ---- no store call reads the labels -------------------------------------------------

  lemma ClaimSame(a: World, b: World, j: Job, k: Job, d: Decided)
    requires SameButLabels(a, b) && SameButMode(j, k)
    ensures SameButLabels(ClaimFor(a, j, d).0, ClaimFor(b, k, d).0) && ClaimFor(a, j, d).1 == ClaimFor(b, k, d).1
  {
  }

  lemma {:induction false} HeldSame(a: seq<Row>, b: seq<Row>)
    requires SameRows(a, b)
    ensures SameRows(HeldRows(a), HeldRows(b))
  {
    if a != [] {
      assert SameRow(a[0], b[0]);
      HeldSame(a[1..], b[1..]);
    }
  }

  lemma {:induction false} DuplicateSame(a: seq<Row>, b: seq<Row>, key: DedupeKey, now: int, window: int, text: Rendering)
    requires SameRows(a, b)
    ensures var x, y := FirstDuplicate(a, key, now, window, text), FirstDuplicate(b, key, now, window, text);
      (x.Some? <==> y.Some?) && (x.Some? ==> x.value.ticket == y.value.ticket)
  {
    if a != [] {
      assert SameRow(a[0], b[0]);
      DuplicateSame(a[1..], b[1..], key, now, window, text);
    }
  }

  lemma {:induction false} IndexSame(a: seq<Row>, b: seq<Row>, ticket: nat)
    requires SameRows(a, b)
    ensures RowIndex(a, ticket) == RowIndex(b, ticket)
  {
    if a != [] {
      assert SameRow(a[0], b[0]);
      IndexSame(a[1..], b[1..], ticket);
    }
  }

  lemma SearchSame(a: World, b: World, j: Job, k: Job, d: Decided)
    requires SameButLabels(a, b) && SameButMode(j, k) && d.resolved.Some?
    ensures SameButLabels(FindDuplicate(a, j, d).0, FindDuplicate(b, k, d).0)
    ensures FindDuplicate(a, j, d).1 == FindDuplicate(b, k, d).1
  {
    var key := HoldKey(j.agent, d.resolved.value, d.gates, j.setup.text);
    if j.setup.dedupeWindow.Some? && j.env.now.Some? && key.Some? {
      HeldSame(a.rows, b.rows);
      DuplicateSame(HeldRows(a.rows), HeldRows(b.rows), key.value, j.env.now.value, j.setup.dedupeWindow.value, j.setup.text);
    }
  }

  lemma BumpSame(a: World, b: World, outside: Outside, ticket: nat)
    requires SameButLabels(a, b)
    ensures SameButLabels(BumpAttempts(a, outside, ticket).0, BumpAttempts(b, outside, ticket).0)
    ensures BumpAttempts(a, outside, ticket).1 == BumpAttempts(b, outside, ticket).1
  {
    IndexSame(a.rows, b.rows, ticket);
    var at := RowIndex(a.rows, ticket);
    assert at < |a.rows| ==> SameRow(a.rows[at], b.rows[at]);
  }

  lemma ExecuteSame(a: World, b: World, outside: Outside, run: Execution)
    requires SameButLabels(a, b)
    ensures SameButLabels(Execute(a, outside, run).0, Execute(b, outside, run).0)
    ensures Execute(a, outside, run).1 == Execute(b, outside, run).1
  {
  }

  lemma ConsumeSame(a: World, b: World, s: Setup, outside: Outside, claim: Option<Claim>)
    requires SameButLabels(a, b)
    ensures SameButLabels(ConsumeClaim(a, s, outside, claim).0, ConsumeClaim(b, s, outside, claim).0)
    ensures ConsumeClaim(a, s, outside, claim).1 == ConsumeClaim(b, s, outside, claim).1
  {
  }

  lemma StageRowSame(a: World, b: World, j: Job, k: Job, d: Decided, state: RowState)
    requires SameButLabels(a, b) && SameButMode(j, k) && d.resolved.Some?
    ensures SameAnswers(StageRow(a, j, d, state), StageRow(b, k, d, state))
  {
    var first, second := StageRow(a, j, d, state), StageRow(b, k, d, state);
    var expiry := StagingExpiry(j, d.resolved.value);
    assert expiry == StagingExpiry(k, d.resolved.value);
    ClaimSame(a, b, j, k, d);
    var (m, reservation) := ClaimFor(a, j, d);
    var n := ClaimFor(b, k, d).0;
    if expiry == NoClock {
      var refusal := Close(Decision.Deny, FreshnessUnavailable, NotExecuted);
      FinishSame(a, b, j, k, d, refusal);
      assert first == Finish(a, j, d, refusal) && second == Finish(b, k, d, refusal);
    } else if reservation.Rejected? {
      var refusal := Close(Decision.Deny, reservation.rule, NotExecuted);
      FinishSame(m, n, j, k, d, refusal);
      assert first == Finish(m, j, d, refusal) && second == Finish(n, k, d, refusal);
    } else {
      var claim := ClaimOf(reservation);
      StagedSame(m, n, j, k, d, state, expiry, claim);
      assert first == StageClaimed(m, j, d, state, expiry, claim);
      assert second == StageClaimed(n, k, d, state, expiry, claim);
    }
  }

  lemma StagedSame(a: World, b: World, j: Job, k: Job, d: Decided, state: RowState, expiry: Expiry, claim: Option<Claim>)
    requires SameButLabels(a, b) && SameButMode(j, k) && d.resolved.Some?
    ensures SameAnswers(StageClaimed(a, j, d, state, expiry, claim), StageClaimed(b, k, d, state, expiry, claim))
  {
    var row, twin := RowFor(a, j, d, state, expiry, claim), RowFor(b, k, d, state, expiry, claim);
    StageSame(a, b, j.outside, row, twin);
    var (m, ticket) := Stage(a, j.outside, row);
    var n := Stage(b, k.outside, twin).0;
    if ticket.Some? {
      FinishSame(m, n, j, k, d, StagedClosing(d, state, ticket, claim));
    } else {
      ReleaseSame(m, n, j.setup, j.outside, claim);
      FinishSame(ReleaseClaim(m, j.setup, j.outside, claim), ReleaseClaim(n, k.setup, k.outside, claim), j, k, d,
                 Close(Decision.Deny, OutboxUnavailable, NotExecuted));
    }
  }

  lemma InlineSame(a: World, b: World, j: Job, k: Job, d: Decided)
    requires SameButLabels(a, b) && SameButMode(j, k) && d.resolved.Some?
    ensures SameAnswers(CommitInline(a, j, d), CommitInline(b, k, d))
  {
    if !j.setup.connectors {
      FinishSame(a, b, j, k, d, Close(Decision.Allow, d.rule, NotExecuted));
    } else if j.setup.mismatch(d.resolved.value) {
      FinishSame(a, b, j, k, d, Degraded(d, j, DigestMismatch));
    } else {
      ClaimSame(a, b, j, k, d);
      var (m, reservation) := ClaimFor(a, j, d);
      var n := ClaimFor(b, k, d).0;
      if reservation.Rejected? {
        FinishSame(m, n, j, k, d, Close(Decision.Deny, reservation.rule, NotExecuted));
      } else {
        var claim := ClaimOf(reservation);
        var run := Execution(d.resolved.value, d.scope, j.party.actor);
        ExecuteSame(m, n, j.outside, run);
        var (ran, output) := Execute(m, j.outside, run);
        var runs := Execute(n, k.outside, run).0;
        if output.None? {
          ReleaseSame(ran, runs, j.setup, j.outside, claim);
          FinishSame(ReleaseClaim(ran, j.setup, j.outside, claim), ReleaseClaim(runs, k.setup, k.outside, claim), j, k, d,
                     Degraded(d, j, ConnectorUnavailable));
        } else {
          ConsumeSame(ran, runs, j.setup, j.outside, claim);
          var (spent, consumption) := ConsumeClaim(ran, j.setup, j.outside, claim);
          FinishSame(spent, ConsumeClaim(runs, k.setup, k.outside, claim).0, j, k, d,
                     Close(Decision.Allow, d.rule, Succeeded)
                     .(output := output, consumption := consumption, count := CountOf(j, d, output.value)));
        }
      }
    }
  }

  lemma HoldSame(a: World, b: World, j: Job, k: Job, d: Decided)
    requires SameButLabels(a, b) && SameButMode(j, k) && d.resolved.Some?
    ensures SameAnswers(CommitHold(a, j, d), CommitHold(b, k, d))
  {
    if !j.setup.outbox {
      FinishSame(a, b, j, k, d, Close(Decision.Hold, d.rule, NotExecuted).(approval := ApprovalOf(d, None)));
    } else {
      SearchSame(a, b, j, k, d);
      var (m, duplicate) := FindDuplicate(a, j, d);
      var n := FindDuplicate(b, k, d).0;
      if duplicate.None? {
        StageRowSame(m, n, j, k, d, PendingApproval);
      } else {
        BumpSame(m, n, j.outside, duplicate.value);
        var (bumped, ok) := BumpAttempts(m, j.outside, duplicate.value);
        var bumps := BumpAttempts(n, k.outside, duplicate.value).0;
        if ok {
          FinishSame(bumped, bumps, j, k, d,
                     Close(Decision.Hold, d.rule, HoldDeduped)
                     .(ticket := duplicate, approval := ApprovalOf(d, duplicate)));
        } else {
          StageRowSame(bumped, bumps, j, k, d, PendingApproval);
        }
      }
    }
  }

  /**
   * The commit phase reads the mode only to write it down, and the records not at all: from the same stores, the
   * same answer, the same stores, the same findings.
   */
  lemma ModeIsALabel(a: World, b: World, j: Job, k: Job, d: Decided)
    requires SameButLabels(a, b) && SameButMode(j, k) && Committable(d)
    ensures SameAnswers(Commit(a, j, d), Commit(b, k, d))
  {
    if Refused(d.decision) {
      FinishSame(a, b, j, k, d, Close(d.decision, d.rule, d.outcome));
    } else if d.decision == Decision.Hold {
      HoldSame(a, b, j, k, d);
    } else if d.resolved.value.kind != Effect {
      InlineSame(a, b, j, k, d);
    } else if j.setup.outbox {
      StageRowSame(a, b, j, k, d, Pending);
    } else {
      FinishSame(a, b, j, k, d, Close(Decision.Allow, d.rule, NotExecuted));
    }
  }

  /** Where the policy allows and no scope narrows, the two modes do the same thing. */
  lemma AllowedRunsAlike(w: World, g: Gateway, a: Attempt)
    requires
      var d := DecideIn(w, g, a.call, a.party, a.env).1;
      d.decision == Decision.Allow && d.scope.None?
    ensures SameAnswers(EnforceWhole(w, g, a, Advisory), EnforceWhole(w, g, a, Enforced))
  {
    var (after, d) := DecideIn(w, g, a.call, a.party, a.env);
    var advised := AsAdvised(d, g.setup);
    assert advised == Advised(d, None, Judged);
    var stamp := Stamp(None, Judged, None, None);
    ModeIsALabel(after, after, JobOf(g, a.party, a.env, Advisory, Some(stamp)), JobOf(g, a.party, a.env, Enforced, None), d);
  }

  // ---- the advice is the enforced verdict ------------------------------------------------

  /** A commit's answer to an allowed operation when it does refuse. */
  predicate StoreRefusal(rule: Rule) {
    match rule
    case FreshnessUnavailable | OutboxUnavailable | ReservationUnavailable | NoMatch | ConnectorUnavailable
       | DigestMismatch => true
    case _ => false
  }

  ghost predicate CarriedOrRefused(r: EvalResult, d: Decided, state: RowState) {
    && ((r.decision == (if state == PendingApproval then Decision.Hold else Decision.Allow) && r.rule == d.rule)
        || (r.decision == Decision.Deny && StoreRefusal(r.rule)))
    && r.reason == Classify(r.decision, r.rule, d.gates)
  }

  lemma CommitAnswers(w: World, j: Job, d: Decided)
    requires Committable(d)
    ensures var r := Commit(w, j, d).1;
      && (Refused(d.decision) ==> r.decision == d.decision && r.rule == d.rule)
      && (d.decision == Decision.Allow ==>
            (r.decision == Decision.Allow && r.rule == d.rule) || (r.decision == Decision.Deny && StoreRefusal(r.rule)))
      && (d.decision == Decision.Hold ==>
            (r.decision == Decision.Hold && r.rule == d.rule) || (r.decision == Decision.Deny && StoreRefusal(r.rule)))
      && r.reason == Classify(r.decision, r.rule, d.gates)
  {
    if Refused(d.decision) {
    } else if d.decision == Decision.Hold {
      StageAnswers(FindDuplicate(w, j, d).0, j, d, PendingApproval);
      var (listed, duplicate) := FindDuplicate(w, j, d);
      if duplicate.Some? {
        StageAnswers(BumpAttempts(listed, j.outside, duplicate.value).0, j, d, PendingApproval);
      }
    } else if d.resolved.value.kind == Effect {
      StageAnswers(w, j, d, Pending);
    } else {
      InlineAnswers(w, j, d);
    }
  }

  lemma StageAnswers(w: World, j: Job, d: Decided, state: RowState)
    requires d.resolved.Some?
    ensures CarriedOrRefused(StageRow(w, j, d, state).1, d, state)
  {
    var expiry := StagingExpiry(j, d.resolved.value);
    if expiry != NoClock {
      var (reserved, reservation) := ClaimFor(w, j, d);
      if !reservation.Rejected? {
        ClaimedAnswers(reserved, j, d, state, expiry, ClaimOf(reservation));
      }
    }
  }

  lemma ClaimedAnswers(w: World, j: Job, d: Decided, state: RowState, expiry: Expiry, claim: Option<Claim>)
    requires d.resolved.Some?
    ensures CarriedOrRefused(StageClaimed(w, j, d, state, expiry, claim).1, d, state)
  {
  }

  lemma ReservationAnswers(w: World, j: Job, d: Decided)
    ensures var r := ClaimFor(w, j, d).1; r.Rejected? ==> StoreRefusal(r.rule)
  {
  }

  lemma InlineAnswers(w: World, j: Job, d: Decided)
    requires d.resolved.Some?
    ensures CarriedOrRefused(CommitInline(w, j, d).1, d, Pending)
  {
    var r := CommitInline(w, j, d).1;
    if j.setup.connectors && !j.setup.mismatch(d.resolved.value) {
      var (reserved, reservation) := ClaimFor(w, j, d);
      ReservationAnswers(w, j, d);
      if !reservation.Rejected? {
        var output := Execute(reserved, j.outside, Execution(d.resolved.value, d.scope, j.party.actor)).1;
        var closing := if output.None? then Degraded(d, j, ConnectorUnavailable) else Close(Decision.Allow, d.rule, Succeeded);
        assert r.decision == closing.decision && r.rule == closing.rule;
      }
    }
  }

  /** A verdict neither mode translates: allowed, halted by the kill switch, or about an unresolvable name. */
  predicate Untranslated(d: Decided) {
    || d.decision == Decision.Allow
    || (d.decision == Decision.Halt && KillCaused(d.rule))
    || d.resolved.None?
  }

  /**
   * From the same world: the advisory record advises exactly when the verdict was translated, and then with the
   * decision, rule and reason the enforced run answers with, a hold the stores themselves refuse excepted.
   */
  lemma AdviceIsTheVerdict(w: World, g: Gateway, a: Attempt)
    ensures
      var d := DecideIn(w, g, a.call, a.party, a.env).1;
      var enforced := EnforceWhole(w, g, a, Enforced).1;
      var w' := EnforceWhole(w, g, a, Advisory).0;
      && |w'.audit| == |w.audit| + 1
      && var noted := w'.audit[|w.audit|].label_;
      && noted.enforcement == Advisory
      && (noted.advised.None? <==> Untranslated(d))
      && (noted.advised.Some? ==>
            var advice := noted.advised.value;
            && advice.decision == d.decision && advice.rule == d.rule
            && (enforced.decision == d.decision || (d.decision == Decision.Hold && StoreRefusal(enforced.rule)))
            && (enforced.decision == d.decision ==> enforced.rule == advice.rule && enforced.reason == advice.reason))
      && (noted.coverage == Unjudged <==> (!Untranslated(d) && UnavailableRule(d.rule)) || d.resolved.None?)
  {
    var (after, d) := DecideIn(w, g, a.call, a.party, a.env);
    DecideOutcome(g.deps, a.call, a.party, a.env, w.calls, w.audit);
    DecideCommittable(g.deps, a.call, a.party, a.env, w.calls, w.audit);
    UnresolvedIsDenied(g.deps, a.call, a.party, a.env, w.calls, w.audit);
    CommitAnswers(after, JobOf(g, a.party, a.env, Enforced, None), d);
    var advised := AsAdvised(d, g.setup);
    var stamp := Stamp(advised.advice, advised.coverage, None, None);
    CommitAudits(after, JobOf(g, a.party, a.env, Advisory, Some(stamp)), advised.decided);
  }

  /** The decide phase halts only for the kill switch, and denies as unknown what it cannot resolve. */
  ghost predicate Decidable(d: Decided) {
    && Committable(d)
    && (d.decision == Decision.Halt ==> KillCaused(d.rule))
    && (d.resolved.None? ==> d.decision == Decision.Deny && d.rule == UnknownAction)
  }

  lemma UnresolvedIsDenied(d: Deps, call: RawCall, p: Party, env: RequestEnv, at: nat, history: seq<AuditRecord>)
    ensures Decidable(Decide(d, call, p, env, at, history))
  {
  }

  /** Not a hold; and a refusal only by the kill switch, for an unresolvable name, or by a store. */
  ghost predicate AdvisedAnswer(decision: Decision, rule: Rule, d: Decided) {
    && decision != Decision.Hold
    && (Refused(decision) ==>
          || (d.decision == Decision.Halt && KillCaused(d.rule) && decision == Decision.Halt && rule == d.rule)
          || (d.resolved.None? && decision == Decision.Deny && rule == UnknownAction)
          || (decision == Decision.Deny && StoreRefusal(rule)))
  }

  lemma AdvisedCommit(w: World, j: Job, d: Decided, s: Setup)
    requires Decidable(d)
    ensures var r := Commit(w, j, AsAdvised(d, s).decided).1; AdvisedAnswer(r.decision, r.rule, d)
  {
    CommitAnswers(w, j, AsAdvised(d, s).decided);
  }

  /** An advisory call decided as one unit is never held, and refused only so. */
  lemma AdvisoryRefusals(w: World, g: Gateway, a: Attempt)
    ensures
      var d := DecideIn(w, g, a.call, a.party, a.env).1;
      var r := EnforceWhole(w, g, a, Advisory).1;
      AdvisedAnswer(r.decision, r.rule, d)
  {
    var (after, d) := DecideIn(w, g, a.call, a.party, a.env);
    UnresolvedIsDenied(g.deps, a.call, a.party, a.env, w.calls, w.audit);
    var advised := AsAdvised(d, g.setup);
    var stamp := Stamp(advised.advice, advised.coverage, None, None);
    AdvisedCommit(after, JobOf(g, a.party, a.env, Advisory, Some(stamp)), d, g.setup);
  }
}
