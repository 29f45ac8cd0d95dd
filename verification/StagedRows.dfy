/** What a staged row carries, field by field, and that a held one keeps the contracts its gates put down. */
module StagedRows {
  import opened Vocabulary
  import opened Stores
  import opened Holds
  import opened Pipeline
  import opened Enforcement
  import opened FanOutPartition
  import opened AuditTotality
  import HoldDedupe

  // ---- the row ----------------------------------------------------------------------------

  /** When the decision behind the row lapses: never without freshness, sooner for what cannot be undone. */
  ghost predicate Lapses(row: Row, j: Job) {
    match j.setup.freshness
    case None => row.expiresAt.None?
    case Some(f) =>
      && j.env.now.Some? && row.expiresAt.Some?
      && row.expiresAt.value - j.env.now.value
         == if row.resolved.kind == Effect && row.resolved.reversibility == Irreversible then f.irreversibleTtl else f.defaultTtl
  }

  /** The row is this operation's, by this actor in this session, under this deployment. */
  ghost predicate Carries(row: Row, j: Job, d: Decided) {
    && Some(row.resolved) == d.resolved && row.gates == d.gates
    && row.agent == j.agent && row.actor == j.party.actor && row.session == j.party.session
    && row.enforcement == j.mode && Lapses(row, j)
    && (j.env.now.Some? ==> row.createdAt == j.env.now.value)
  }

  /** A held row keeps the verdict's contracts; one on its way to dispatch has none. */
  ghost predicate Put(row: Row, j: Job, d: Decided) {
    && Carries(row, j, d)
    && match d.decision
       case Hold => row.state == PendingApproval && row.releases == d.releases
       case Allow => row.state == Pending && row.releases == []
       case _ => false
  }

  /** A consumable match: what a requireMatch PASS offers to reserve. */
  predicate Consumable(g: GateResult) {
    && g.gate == RequireMatch && g.outcome == Outcome.Pass && g.evidence.Some? && g.evidence.value.Match?
    && g.evidence.value.refs != [] && g.evidence.value.plan.Some? && g.evidence.value.plan.value.consume.Path?
  }

  ghost predicate FirstConsumable(gates: seq<GateResult>, k: nat) {
    k < |gates| && Consumable(gates[k]) && forall i | 0 <= i < k :: !Consumable(gates[i])
  }

  /** The claim is of the first record that match named, to be spent as the policy says. */
  ghost predicate ClaimsMatch(claim: Claim, g: GateResult) {
    && Consumable(g)
    && claim.registry == g.evidence.value.registry && claim.ref == g.evidence.value.refs[0]
    && claim.consume == g.evidence.value.plan.value.consume && claim.capability == g.evidence.value.plan.value.capability
  }

  ghost predicate ClaimsFirst(claim: Claim, gates: seq<GateResult>) {
    exists k: nat :: FirstConsumable(gates, k) && ClaimsMatch(claim, gates[k])
  }

  /** It holds what the batch had taken for it, or what the commit reserved for its first consumable match. */
  ghost predicate Backed(row: Row, w: World, w': World, d: Decided) {
    match d.claim
    case Some(claim) => row.obligation == Some(claim)
    case None =>
      && (row.obligation.None? <==> forall i | 0 <= i < |d.gates| :: !Consumable(d.gates[i]))
      && (row.obligation.Some? ==>
            && w.nextId <= row.obligation.value.intent < w'.nextId
            && LineAt(w', KeyOf(row.obligation.value)) == Reserved(row.obligation.value.intent)
            && ClaimsFirst(row.obligation.value, d.gates))
  }

  ghost predicate Offers(g: GateResult, plan: (string, string, ConsumePlan)) {
    Consumable(g)
    && plan.0 == g.evidence.value.registry && plan.1 == g.evidence.value.refs[0] && plan.2 == g.evidence.value.plan.value
  }

  ghost predicate OffersFirst(gates: seq<GateResult>, plan: (string, string, ConsumePlan)) {
    exists k: nat :: FirstConsumable(gates, k) && Offers(gates[k], plan)
  }

  lemma {:induction false} PlanIsFirst(gates: seq<GateResult>)
    ensures ClaimPlan(gates).None? <==> forall i | 0 <= i < |gates| :: !Consumable(gates[i])
    ensures ClaimPlan(gates).Some? ==> OffersFirst(gates, ClaimPlan(gates).value)
  {
    if gates != [] {
      var rest := gates[1..];
      PlanIsFirst(rest);
      assert forall i | 1 <= i < |gates| :: gates[i] == rest[i - 1];
      if Consumable(gates[0]) {
        assert FirstConsumable(gates, 0) && Offers(gates[0], ClaimPlan(gates).value);
      } else if ClaimPlan(rest).Some? {
        var k: nat :| FirstConsumable(rest, k) && Offers(rest[k], ClaimPlan(rest).value);
        assert gates[k + 1] == rest[k];
        assert FirstConsumable(gates, k + 1);
      }
    }
  }

  /** The claim a staging puts on its row. */
  ghost predicate Taken(w: World, m: World, d: Decided, claim: Option<Claim>) {
    match d.claim
    case Some(held) => claim == d.claim
    case None =>
      && (claim.None? <==> forall i | 0 <= i < |d.gates| :: !Consumable(d.gates[i]))
      && (claim.Some? ==>
            && w.nextId <= claim.value.intent < m.nextId && LineAt(m, KeyOf(claim.value)) == Reserved(claim.value.intent)
            && ClaimsFirst(claim.value, d.gates))
  }

  lemma ReservedFor(w: World, j: Job, d: Decided)
    requires !ClaimFor(w, j, d).1.Rejected?
    ensures var m := ClaimFor(w, j, d).0;
      m.rows == w.rows && w.nextId <= m.nextId && Taken(w, m, d, ClaimOf(ClaimFor(w, j, d).1))
  {
    PlanIsFirst(d.gates);
    var claim := ClaimOf(ClaimFor(w, j, d).1);
    if d.claim.None? && claim.Some? {
      var k: nat :| FirstConsumable(d.gates, k) && Offers(d.gates[k], ClaimPlan(d.gates).value);
      assert ClaimsMatch(claim.value, d.gates[k]);
    }
  }

  /** The rows stay, or the operation's own comes behind them under a new ticket, backed unless it was not answered. */
  ghost predicate Stages(w: World, w': World, j: Job, d: Decided, answered: bool) {
    && w.nextId <= w'.nextId
    && (|w'.rows| == |w.rows|
        || (|w'.rows| == |w.rows| + 1 && NewRow(w'.rows[|w.rows|], w, w', j, d, answered)))
  }

  ghost predicate NewRow(row: Row, w: World, w': World, j: Job, d: Decided, answered: bool) {
    && Put(row, j, d) && row.attempts == 1 && w.nextId <= row.ticket < w'.nextId
    && (answered ==> Backed(row, w, w', d))
  }

  lemma ClaimedStages(w: World, m: World, j: Job, d: Decided, state: RowState, expiry: Expiry, claim: Option<Claim>)
    requires d.resolved.Some? && m.rows == w.rows && w.nextId <= m.nextId
    requires (d.decision == Decision.Hold && state == PendingApproval) || (d.decision == Decision.Allow && state == Pending)
    requires expiry == StagingExpiry(j, d.resolved.value) && expiry != NoClock && Taken(w, m, d, claim)
    ensures var (w', r) := StageClaimed(m, j, d, state, expiry, claim); Stages(w, w', j, d, r.decision != Decision.Deny)
  {
    var row := RowFor(m, j, d, state, expiry, claim);
    RowIsPut(m, j, d, state, expiry, claim);
    var (staged, ticket) := Stage(m, j.outside, row);
    assert |staged.rows| == |m.rows| + 1 ==> staged.rows[|m.rows|] == row.(ticket := m.nextId);
    assert ticket.Some? ==> staged.lines == m.lines && staged.nextId == m.nextId + 1;
    HoldDedupe.ReleaseIds(staged, j.setup, j.outside, claim);
  }

  lemma RowIsPut(m: World, j: Job, d: Decided, state: RowState, expiry: Expiry, claim: Option<Claim>)
    requires d.resolved.Some?
    requires (d.decision == Decision.Hold && state == PendingApproval) || (d.decision == Decision.Allow && state == Pending)
    requires expiry == StagingExpiry(j, d.resolved.value) && expiry != NoClock
    ensures var row := RowFor(m, j, d, state, expiry, claim);
      && row.obligation == claim && row.attempts == 1
      && forall ticket :: Put(row.(ticket := ticket), j, d)
  {
  }

  lemma RowStages(w: World, j: Job, d: Decided, state: RowState)
    requires d.resolved.Some?
    requires (d.decision == Decision.Hold && state == PendingApproval) || (d.decision == Decision.Allow && state == Pending)
    ensures var (w', r) := StageRow(w, j, d, state); Stages(w, w', j, d, r.decision != Decision.Deny)
  {
    var expiry := StagingExpiry(j, d.resolved.value);
    if expiry != NoClock {
      ReservationQuiet(w, j, d);
      var (m, reservation) := ClaimFor(w, j, d);
      if !reservation.Rejected? {
        ReservedFor(w, j, d);
        ClaimedStages(w, m, j, d, state, expiry, ClaimOf(reservation));
      }
    }
  }

  lemma HoldStages(w: World, j: Job, d: Decided)
    requires d.resolved.Some? && d.decision == Decision.Hold
    ensures var (w', r) := CommitHold(w, j, d); Stages(w, w', j, d, r.decision != Decision.Deny)
  {
    if j.setup.outbox {
      var (listed, duplicate) := FindDuplicate(w, j, d);
      RowStages(listed, j, d, PendingApproval);
      if duplicate.Some? {
        RowStages(BumpAttempts(listed, j.outside, duplicate.value).0, j, d, PendingApproval);
      }
    }
  }

  /** Whatever a commit stages is the operation's own row, as its verdict and this job say. */
  lemma CommitStages(w: World, j: Job, d: Decided)
    requires Committable(d)
    ensures var (w', r) := Commit(w, j, d); Stages(w, w', j, d, r.decision != Decision.Deny)
  {
    if Refused(d.decision) {
    } else if d.decision == Decision.Hold {
      HoldStages(w, j, d);
    } else if d.resolved.value.kind == Effect {
      if j.setup.outbox { RowStages(w, j, d, Pending); }
    } else {
      HoldDedupe.InlineRows(w, j, d);
    }
  }
}
