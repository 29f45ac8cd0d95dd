/** What becomes of a staged row: the moves there are, what settling and sweeping do, and that no row goes back. */
module RowLives {
  import opened Vocabulary
  import opened Stores
  import opened Pipeline
  import opened Enforcement
  import opened FanOutPartition
  import opened ReservationLife
  import Faults
  import Marks

  // ---- one step ---------------------------------------------------------------------------------

  /** Released, claimed for dispatch, failed there, or cancelled from any of the three. */
  const MOVES := [(PendingApproval, Pending), (Pending, Dispatching), (Dispatching, Failed),
                  (PendingApproval, Cancelled), (Pending, Cancelled), (Dispatching, Cancelled)]

  ghost predicate IsMove(from: RowState, to: RowState) {
    exists k :: 0 <= k < 6 && MOVES[k] == (from, to)
  }

  lemma MovesAreLegal(from: RowState, to: RowState)
    ensures Legal(from, to) <==> IsMove(from, to)
  {
    assert MOVES[0] == (PendingApproval, Pending) && MOVES[1] == (Pending, Dispatching) && MOVES[2] == (Dispatching, Failed);
    assert MOVES[3] == (PendingApproval, Cancelled) && MOVES[4] == (Pending, Cancelled) && MOVES[5] == (Dispatching, Cancelled);
  }

  ghost predicate RowOf(w: World, ticket: nat, at: nat) {
    at < |w.rows| && w.rows[at].ticket == ticket && forall i | 0 <= i < at :: w.rows[i].ticket != ticket
  }

  lemma RowOfIsFound(w: World, ticket: nat, at: nat)
    requires RowOf(w, ticket, at)
    ensures RowIndex(w.rows, ticket) == at
  {
  }

  lemma MoveTells(w: World, g: Gateway, ticket: nat, to: RowState, at: nat)
    requires RowOf(w, ticket, at)
    ensures Later(w, g, Move(ticket, to))
         == if IsMove(w.rows[at].state, to) then w.(rows := w.rows[at := w.rows[at].(state := to)]) else w
  {
    MovesAreLegal(w.rows[at].state, to);
    RowOfIsFound(w, ticket, at);
  }

  /** The worker can reach the registry the row's claim is in. */
  predicate Reachable(g: Gateway, claim: Claim) {
    g.setup.adapters.Some? && claim.registry in g.setup.adapters.value
  }

  /** The settling record is the row's own, as it was decided, with what became of its claim. */
  ghost predicate SettledAs(record: AuditRecord, row: Row, spent: World) {
    && record.subject.agent == row.agent && record.subject.actor == row.actor.id && record.subject.run == RunKey(row.session)
    && record.subject.kind == Some(row.resolved.kind) && record.subject.resource == row.resolved.resource
    && record.subject.action == row.resolved.action && record.subject.parameters == row.resolved.data
    && record.finding.decision == Decision.Allow && record.finding.rule == AllowRule && record.finding.reason == Reason(NoCode, None)
    && record.finding.outcome == Succeeded && record.finding.gates == row.gates && record.finding.approval.None?
    && record.label_.enforcement == row.enforcement && record.label_.advised.None? && record.label_.coverage == Judged
    && match row.obligation
       case None => record.finding.consumption.None?
       case Some(claim) =>
         && record.finding.consumption.Some? && record.finding.consumption.value.claim == claim
         && (record.finding.consumption.value.state == ClaimConsumed ==> LineAt(spent, KeyOf(claim)) == Consumed(claim.intent))
  }

  /** A row is settled once, from dispatch: it is done, its claim is spent and its record written. */
  lemma SettleTells(w: World, g: Gateway, ticket: nat, at: nat)
    requires RowOf(w, ticket, at)
    ensures var w', row := Later(w, g, Settle(ticket)), w.rows[at];
      if row.state != Dispatching || ticket in w.discharged then w' == w
      else
        && w'.rows == w.rows[at := row.(state := Done)] && w'.discharged == w.discharged + {ticket}
        && |w'.audit| == |w.audit| + 1 && w.audit <= w'.audit && SettledAs(w'.audit[|w.audit|], row, w')
        && (forall key | row.obligation.None? || key != KeyOf(row.obligation.value) :: LineAt(w', key) == LineAt(w, key))
  {
    RowOfIsFound(w, ticket, at);
    var row := w.rows[at];
    if row.state == Dispatching && ticket !in w.discharged {
      SpendTells(Discharge(w, at, Done), g, row.obligation);
    }
  }

  lemma SpendTells(w: World, g: Gateway, claim: Option<Claim>)
    ensures var (spent, note) := WorkerConsume(w, g, claim);
      && spent.rows == w.rows && spent.audit == w.audit && spent.discharged == w.discharged
      && (forall key | claim.None? || key != KeyOf(claim.value) :: LineAt(spent, key) == LineAt(w, key))
      && (note.Some? <==> claim.Some?)
      && (note.Some? ==> note.value.claim == claim.value
                         && (note.value.state == ClaimConsumed ==> LineAt(spent, KeyOf(claim.value)) == Consumed(claim.value.intent)))
  {
    if claim.Some? {
      Faults.ConsumeTells(w, g.outside, KeyOf(claim.value), claim.value.intent);
    }
  }

  /** A cancelled or failed row is swept once: whatever it still holds is given back, if its registry can be asked. */
  lemma SweepTells(w: World, g: Gateway, ticket: nat, at: nat)
    requires RowOf(w, ticket, at)
    ensures var w', row := Later(w, g, Sweep(ticket)), w.rows[at];
      if !(row.state == Cancelled || row.state == Failed) || ticket in w.discharged then w' == w
      else
        && w'.rows == w.rows && w'.audit == w.audit && w'.discharged == w.discharged + {ticket}
        && (forall key | row.obligation.None? || key != KeyOf(row.obligation.value) :: LineAt(w', key) == LineAt(w, key))
        && (row.obligation.Some? && Reachable(g, row.obligation.value) && Faults.Acts(w, g.outside) ==>
              LineAt(w', KeyOf(row.obligation.value)) != Reserved(row.obligation.value.intent))
        && (row.obligation.Some? && !Reachable(g, row.obligation.value) ==> w'.lines == w.lines)
  {
    RowOfIsFound(w, ticket, at);
    var row := w.rows[at];
    assert w.rows[at := row.(state := row.state)] == w.rows;
    if row.obligation.Some? {
      Faults.ReleaseTells(Discharge(w, at, row.state), g.outside, KeyOf(row.obligation.value), row.obligation.value.intent);
    }
  }

  // ---- whole runs ---------------------------------------------------------------------------------

  function Rank(state: RowState): nat {
    match state
    case PendingApproval => 0
    case Pending => 1
    case Dispatching => 2
    case _ => 3
  }

  /** Onward, or where it was; from an end there is no way on. */
  ghost predicate Forward(from: RowState, to: RowState) {
    to == from || Rank(to) > Rank(from)
  }

  /** Every row there was is still there, the same but for its attempts and a later state. */
  ghost predicate GoneOn(w: World, w': World) {
    && |w.rows| <= |w'.rows|
    && forall i | 0 <= i < |w.rows| ::
         && w'.rows[i] == w.rows[i].(attempts := w'.rows[i].attempts, state := w'.rows[i].state)
         && Forward(w.rows[i].state, w'.rows[i].state)
  }

  lemma GoneFurther(w: World, m: World, w': World)
    requires GoneOn(w, m) && GoneOn(m, w')
    ensures GoneOn(w, w')
  {
    forall i | 0 <= i < |w.rows|
      ensures w'.rows[i] == w.rows[i].(attempts := w'.rows[i].attempts, state := w'.rows[i].state)
      ensures Forward(w.rows[i].state, w'.rows[i].state)
    {
      assert m.rows[i] == w.rows[i].(attempts := m.rows[i].attempts, state := m.rows[i].state);
      assert w'.rows[i] == m.rows[i].(attempts := w'.rows[i].attempts, state := w'.rows[i].state);
    }
  }

  lemma LifeGoesOn(w: World, g: Gateway, step: Life)
    ensures GoneOn(w, Later(w, g, step))
  {
    var at := RowIndex(w.rows, step.ticket);
    if at < |w.rows| {
      match step
      case Move(_, to) => MoveTells(w, g, step.ticket, to, at);
      case Settle(_) => SettleTells(w, g, step.ticket, at);
      case Sweep(_) => SweepTells(w, g, step.ticket, at);
    }
  }

  lemma StepGoesOn(w: World, g: Gateway, step: Step)
    ensures GoneOn(w, Apply(w, g, step))
  {
    if step.OfRow? {
      LifeGoesOn(w, g, step.life);
    } else {
      Marks.TrafficFollows(w, g, step);
      var w' := Apply(w, g, step);
      forall i | 0 <= i < |w.rows| ensures w'.rows[i].state == w.rows[i].state {
        assert w'.rows[i] == w.rows[i].(attempts := w'.rows[i].attempts);
      }
    }
  }

  /** Over any run no row is lost, changed or taken back: what was settled, failed or cancelled stays so. */
  lemma {:induction false} NoRowGoesBack(w: World, g: Gateway, steps: seq<Step>)
    ensures GoneOn(w, Run(w, g, steps))
    decreases |steps|
  {
    if steps != [] {
      var m := Apply(w, g, steps[0]);
      StepGoesOn(w, g, steps[0]);
      NoRowGoesBack(m, g, steps[1..]);
      GoneFurther(w, m, Run(m, g, steps[1..]));
    }
  }
}
