/** A batch that refuses its one operation after the pre-pass and leaves the operation's reservation behind. */
module BatchLeak {
  import opened Vocabulary
  import opened Stores
  import opened Holds
  import opened Pipeline
  import opened Enforcement
  import opened Conservation

  const PAYMENT := ResolvedAction(Effect, "po", Some("pay"), map[], Reversible, "erp", [], None)

  const LINE := Key("po", "4711")

  const MATCHED := GateResult(
    RequireMatch, Outcome.Pass, "", "",
    Some(Match("po", ["4711"], 1, Some(ConsumePlan(Path("amount"), Transactional)))), None, [])

  /** Everything is wired and nothing fails; freshness is on. */
  function Shop(): Gateway {
    Gateway(
      Deps(
        call => Some(PAYMENT),
        Some(Policy("agent", Closed, resolved => Authorization(true, AllowRule), resolved => Code)),
        "agent",
        Some((at: nat, resolved, actor, session, env, history) => GateOutcome(Outcome.Pass, [MATCHED], None, [])),
        None, None, None,
        (name, target) => None),
      Setup(true, true, resolved => false, Some(Freshness(60, 10)), Some({"po"}), None,
            Rendering(value => "", evidence => ""), (scope, row, actor) => None, 0),
      Outside((n: nat) => Answers, (n: nat, resolved, scope) => Null, (n: nat) => 0))
  }

  const EMPTY := World([], map[], [], [], 0, 0, {}, {}, {})

  function Clockless(p: Party): Operation {
    Operation(RawCall("po", Some("pay"), map[]), RequestEnv(map[], map[], None))
  }

  const DECIDED_AT := EMPTY.(calls := DECIDE_CALLS)

  const TAKEN := Claim("po", "4711", Path("amount"), Transactional, 0)

  const RESERVED := World([], map[LINE := Reserved(0)], [], [], DECIDE_CALLS + 1, 1, {}, {}, {})

  function Paid(p: Party): Decided {
    Decided(Clockless(p).call, Some(PAYMENT), Decision.Allow, AllowRule, NotExecuted, [MATCHED], [], None, [], None,
            Code, None)
  }

  lemma ShopDecides(p: Party)
    ensures DecideAll(EMPTY, Shop(), p, [Clockless(p)]) == (DECIDED_AT, [Paid(p)])
  {
    var g, op := Shop(), Clockless(p);
    assert Decide(g.deps, op.call, p, op.env, 0, []) == Paid(p);
    assert DecideIn(EMPTY, g, op.call, p, op.env) == (DECIDED_AT, Paid(p));
    var ops := [op];
    assert ops[1..] == [];
    assert DecideAll(DECIDED_AT, g, p, ops[1..]) == (DECIDED_AT, []);
    assert DecideAll(EMPTY, g, p, ops).1 == [Paid(p)];
  }

  lemma ShopReserves(p: Party)
    ensures ReserveAll(DECIDED_AT, Shop(), [Paid(p)]) == PrePass(RESERVED, [Paid(p).(claim := Some(TAKEN))], None)
  {
    var plan := ("po", "4711", ConsumePlan(Path("amount"), Transactional));
    assert ClaimPlan([MATCHED]) == Some(plan);
    assert ReserveClaim(DECIDED_AT, Shop().setup, Shop().outside, plan) == (RESERVED, Held(TAKEN));
    assert ReserveAll(RESERVED, Shop(), []) == PrePass(RESERVED, [], None);
  }

  /** The request carries no clock: the call is denied, nothing is staged, no call failed, and the line stays reserved. */
  lemma ReservationLeftBehind(p: Party)
    ensures var (w, b) := EnforceBatch(EMPTY, Shop(), p, [Clockless(p)], Enforced);
      && b.decision == Decision.Deny
      && w.rows == [] && w.orphans == {}
      && LineAt(w, LINE) == Reserved(0)
      && Conserved(EMPTY, {}) && !Conserved(w, {})
  {
    ShopDecides(p);
    ShopReserves(p);
    ClocklessCommit(p);
    Stranded(EnforceBatch(EMPTY, Shop(), p, [Clockless(p)], Enforced).0);
  }

  lemma ClocklessCommit(p: Party)
    ensures var (w, b) := CommitBatch(DECIDED_AT, Shop(), p, [Clockless(p)], [Paid(p)]);
      b.decision == Decision.Deny && w.rows == [] && w.orphans == {} && w.lines == RESERVED.lines
  {
    ShopReserves(p);
    RefusedWithoutClock(RESERVED, Shop(), p, Clockless(p), Paid(p).(claim := Some(TAKEN)));
    assert NoStamps(1) == [None];
  }

  lemma Stranded(w: World)
    requires w.rows == [] && w.orphans == {} && w.lines == RESERVED.lines
    ensures !Conserved(w, {}) && Conserved(EMPTY, {})
  {
    assert LineAt(w, LINE) == Reserved(0);
    assert !OnRow(w, LINE, 0);
    assert !InHand({}, LINE, 0);
  }

  /** Staging an effect under freshness without a clock is refused before the claim is looked at. */
  lemma RefusedWithoutClock(w: World, g: Gateway, p: Party, op: Operation, d: Decided)
    requires d.decision == Decision.Allow && d.resolved.Some? && d.resolved.value.kind == Effect
    requires g.setup.outbox && g.setup.freshness.Some? && op.env.now.None?
    ensures var (w', rs) := CommitAll(w, g, p, Enforced, [op], [d], [None]);
      && |rs| == 1 && rs[0].decision == Decision.Deny && rs[0].rule == FreshnessUnavailable
      && w'.rows == w.rows && w'.lines == w.lines && w'.orphans == w.orphans
  {
    var (after, r) := Commit(w, JobOf(g, p, op.env, Enforced, None), d);
    assert CommitAll(after, g, p, Enforced, [], [], []) == (after, []);
  }
}
