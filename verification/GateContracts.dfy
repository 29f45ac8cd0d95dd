/** What a held action demands of the people who may release it, gate by gate, and who can never be found to. */
module GateContracts {
  import opened Vocabulary
  import opened GateEngine

  // ---- the terms of one contract, as the policy declares them ------------------------------------

  predicate IsApproval(gate: Gate) {
    gate == RequireApproval || gate == DualAuthorization
  }

  /** What a bare configuration value leaves at its default. */
  ghost predicate OwnTerms(c: ReleaseContract, config: Config) {
    if config.mapping
    then c.approvers == config.approvers && c.timeout == config.timeout && c.onTimeout == config.onTimeout
    else c.approvers == [] && c.timeout == None && c.onTimeout == "deny"
  }

  /** Two distinct identities, neither of them the actor. */
  ghost predicate DualTerms(c: ReleaseContract, config: Config) {
    c.quorum == 2 && c.dualAuth && c.distinctFromActor && OwnTerms(c, config)
  }

  /** The configured number of approvals, one unless the configuration says otherwise, the actor's own among them. */
  ghost predicate ApprovalTerms(c: ReleaseContract, config: Config) {
    c.quorum == (if config.mapping then config.quorum else 1) && !c.dualAuth && !c.distinctFromActor && OwnTerms(c, config)
  }

  /** One resolver, named or by default, is asked the check's own question; without either the gate's own approvers. */
  ghost predicate CheckTerms(c: ReleaseContract, config: Config, result: GateResult, role: Option<string>) {
    && c.quorum == 1 && !c.dualAuth && !c.distinctFromActor && c.timeout == None && c.onTimeout == "deny"
    && c.reasonCode == result.code && c.evidence == result.evidence && c.source == result.source
    && match (if config.mapping && config.resolvers.Some? then config.resolvers else role)
       case Some(resolver) => c.approvers == [resolver]
       case None => c.approvers == if config.mapping then config.approvers else []
  }

  ghost predicate Demands(c: ReleaseContract, e: Entry, result: GateResult, role: Option<string>) {
    && c.gate == e.gate && c.satisfiedBy == []
    && (e.gate == DualAuthorization ==> DualTerms(c, e.config))
    && (e.gate == RequireApproval ==> ApprovalTerms(c, e.config))
    && (IsApproval(e.gate) ==> c.reasonCode == "" && c.evidence.None? && c.source == "")
    && (!IsApproval(e.gate) ==> CheckTerms(c, e.config, result, role))
  }

  /** A check's question that nobody is named to answer. */
  predicate Unanswerable(e: Entry, result: GateResult, role: Option<string>) {
    && !IsApproval(e.gate) && !(e.config.mapping && e.config.resolvers.Some?) && role.None?
    && (e.gate == Precondition || result.code != "")
  }

  lemma ContractDemands(e: Entry, result: GateResult, role: Option<string>)
    ensures ContractOf(e, result, role).None? <==> Unanswerable(e, result, role)
    ensures ContractOf(e, result, role).Some? ==> Demands(ContractOf(e, result, role).value, e, result, role)
  {
  }

  // ---- the engine's outcome ------------------------------------------------------------------------

  ghost predicate SomeUnanswerable(items: seq<Entry>, engine: Engine) {
    exists e :: e in items && Holds(e, engine) && Unanswerable(e, engine.run(e), engine.resolverRole)
  }

  lemma UnanswerableIs(items: seq<Entry>, engine: Engine)
    ensures SomeUnanswerable(items, engine) <==> SomeUnresolvable(items, engine)
  {
    forall e ensures ContractOf(e, engine.run(e), engine.resolverRole).None? <==>
                     Unanswerable(e, engine.run(e), engine.resolverRole)
    {
      ContractDemands(e, engine.run(e), engine.resolverRole);
    }
    if SomeUnanswerable(items, engine) {
      var e :| e in items && Holds(e, engine) && Unanswerable(e, engine.run(e), engine.resolverRole);
      assert SomeUnresolvable(items, engine);
    }
  }

  /** The verdict in terms of the gates alone: a failure or a question nobody can answer refuses. */
  lemma VerdictInTerms(items: seq<Entry>, engine: Engine)
    ensures var o := Evaluate(items, engine);
      && (o.outcome == Outcome.Fail <==> SomeFails(items, engine) || SomeUnanswerable(items, engine))
      && (o.outcome == Outcome.Hold <==>
            !SomeFails(items, engine) && SomeHolds(items, engine) && !SomeUnanswerable(items, engine))
      && (o.outcome == Outcome.Pass <==> !SomeFails(items, engine) && !SomeHolds(items, engine))
  {
    VerdictIsConjunction(items, engine);
    UnanswerableIs(items, engine);
  }

  /** And it says so when that question is the reason. */
  lemma UnresolvableExactly(items: seq<Entry>, engine: Engine)
    ensures Evaluate(items, engine).reason == Some(HoldUnresolvable) <==>
            !SomeFails(items, engine) && SomeUnanswerable(items, engine)
  {
    VerdictInTerms(items, engine);
    if SomeFails(items, engine) {
      FailTrace(items, engine);
    } else {
      NothingFails(items, engine);
    }
  }

  lemma NothingFails(items: seq<Entry>, engine: Engine)
    requires !SomeFails(items, engine)
    ensures FirstFail(Sorted(items), engine.run) == |Sorted(items)|
    ensures Evaluate(items, engine).results == Results(Sorted(items), engine.run)
  {
    SortedIsStable(items, 0);
    var order := Sorted(items);
    forall i | 0 <= i < |order| ensures engine.run(order[i]).outcome != Outcome.Fail {
      assert order[i] in items;
    }
  }

  /** Without a failing gate every gate has run, cheapest first, whatever the verdict. */
  lemma TraceIsComplete(items: seq<Entry>, engine: Engine)
    requires !SomeFails(items, engine)
    ensures var order, o := Sorted(items), Evaluate(items, engine);
      |o.results| == |order| == |items| && forall i | 0 <= i < |order| :: o.results[i] == engine.run(order[i])
  {
    NothingFails(items, engine);
    SortedIsStable(items, 0);
    assert |Sorted(items)| == |multiset(Sorted(items))| == |multiset(items)| == |items|;
  }

  ghost predicate Exacts(c: ReleaseContract, e: Entry, engine: Engine) {
    Demands(c, e, engine.run(e), engine.resolverRole)
  }

  /** Some holding gate asks just this. */
  ghost predicate AskedFor(c: ReleaseContract, items: seq<Entry>, engine: Engine) {
    exists e :: e in items && Holds(e, engine) && Exacts(c, e, engine)
  }

  /** Its demand is among the contracts. */
  ghost predicate PutDown(e: Entry, releases: seq<ReleaseContract>, engine: Engine) {
    exists i :: 0 <= i < |releases| && Exacts(releases[i], e, engine)
  }

  lemma ContractsDemand(items: seq<Entry>, engine: Engine) returns (holds: seq<Entry>)
    requires Evaluate(items, engine).outcome == Outcome.Hold
    ensures forall e :: e in holds <==> e in items && Holds(e, engine)
    ensures |holds| == |Evaluate(items, engine).releases|
    ensures forall i | 0 <= i < |holds| :: Exacts(Evaluate(items, engine).releases[i], holds[i], engine)
  {
    HoldCarriesEveryContract(items, engine);
    SortedIsStable(items, 0);
    HoldingIs(Sorted(items), engine);
    holds := Holding(Sorted(items), engine.run);
    forall i | 0 <= i < |holds| ensures Exacts(Evaluate(items, engine).releases[i], holds[i], engine) {
      ContractDemands(holds[i], engine.run(holds[i]), engine.resolverRole);
    }
  }

  /** Every holding gate put its own demands on the row, and every contract of the row is some holding gate's. */
  lemma HoldDemands(items: seq<Entry>, engine: Engine)
    requires Evaluate(items, engine).outcome == Outcome.Hold
    ensures var releases := Evaluate(items, engine).releases;
      && (forall e | e in items && Holds(e, engine) :: PutDown(e, releases, engine))
      && (forall i | 0 <= i < |releases| :: AskedFor(releases[i], items, engine))
  {
    var holds := ContractsDemand(items, engine);
    PairedBothWays(items, engine, holds, Evaluate(items, engine).releases);
  }

  lemma PairedBothWays(items: seq<Entry>, engine: Engine, holds: seq<Entry>, releases: seq<ReleaseContract>)
    requires forall e :: e in holds <==> e in items && Holds(e, engine)
    requires |holds| == |releases| && forall i | 0 <= i < |holds| :: Exacts(releases[i], holds[i], engine)
    ensures forall e | e in items && Holds(e, engine) :: PutDown(e, releases, engine)
    ensures forall i | 0 <= i < |releases| :: AskedFor(releases[i], items, engine)
  {
    forall e | e in items && Holds(e, engine) ensures PutDown(e, releases, engine) {
      var i :| 0 <= i < |holds| && holds[i] == e;
    }
    forall i | 0 <= i < |releases| ensures AskedFor(releases[i], items, engine) {
      assert holds[i] in holds;
    }
  }

  /** The deciding gate of a hold is the first that holds in the order they ran. */
  lemma HoldReason(items: seq<Entry>, engine: Engine)
    requires Evaluate(items, engine).outcome == Outcome.Hold
    ensures var order, o := Sorted(items), Evaluate(items, engine);
      && (forall i | 0 <= i < |order| :: i < |o.results| && o.results[i] == engine.run(order[i]))
      && exists k :: 0 <= k < |order| && Holds(order[k], engine) && o.reason == Some(GateRule(order[k].gate))
           && forall i | 0 <= i < k :: !Holds(order[i], engine)
  {
    var order := Sorted(items);
    HoldCarriesEveryContract(items, engine);
    FirstHolding(order, engine);
  }

  lemma {:induction false} FirstHolding(items: seq<Entry>, engine: Engine)
    ensures Holding(items, engine.run) != [] ==>
      exists k :: 0 <= k < |items| && Holds(items[k], engine) && items[k] == Holding(items, engine.run)[0]
        && forall i | 0 <= i < k :: !Holds(items[i], engine)
  {
    if items != [] && !Holds(items[0], engine) {
      FirstHolding(items[1..], engine);
      if Holding(items, engine.run) != [] {
        var k :| 0 <= k < |items| - 1 && Holds(items[1..][k], engine) && items[1..][k] == Holding(items, engine.run)[0]
          && forall i | 0 <= i < k :: !Holds(items[1..][i], engine);
        assert items[k + 1] == items[1..][k];
        forall i | 0 <= i < k + 1 ensures !Holds(items[i], engine) {
          if i > 0 { assert items[i] == items[1..][i - 1]; }
        }
      }
    }
  }

  // ---- the order they run in -------------------------------------------------------------------------

  /** The engine's tiers, cheapest first: the transition guard, plain checks, lists, lookups, counters, content, people. */
  const TIERS: seq<set<Gate>> := [
    {TransitionGuard},
    {ValueLimit, RequireExplanation, WindowGate},
    {Allowlist, Denylist},
    {Precondition, EmissionControl, RequireMatch, Disclosure},
    {Rate, Quota, QuantityCap, SpendLimit},
    {ContentCheck},
    {RequireApproval, DualAuthorization}]

  ghost predicate InTier(gate: Gate, k: nat) {
    k < |TIERS| && gate in TIERS[k]
  }

  lemma CostIsTheTier(a: Gate, b: Gate, k: nat, l: nat)
    requires InTier(a, k) && InTier(b, l)
    ensures Cost(a) < Cost(b) <==> k < l
  {
  }

  lemma EveryGateHasATier(gate: Gate)
    ensures exists k :: InTier(gate, k)
  {
    match gate
    case TransitionGuard => assert InTier(gate, 0);
    case ValueLimit | RequireExplanation | WindowGate => assert InTier(gate, 1);
    case Allowlist | Denylist => assert InTier(gate, 2);
    case Precondition | EmissionControl | RequireMatch | Disclosure => assert InTier(gate, 3);
    case Rate | Quota | QuantityCap | SpendLimit => assert InTier(gate, 4);
    case ContentCheck => assert InTier(gate, 5);
    case RequireApproval | DualAuthorization => assert InTier(gate, 6);
  }

  /** The trace meets the tiers in order, so nobody is asked while a cheaper gate has yet to speak. */
  lemma TraceFollowsTiers(items: seq<Entry>, i: nat, j: nat, k: nat, l: nat)
    requires i < |Sorted(items)| && j < |Sorted(items)| && InTier(Sorted(items)[i].gate, k) && InTier(Sorted(items)[j].gate, l)
    ensures k < l ==> i < j
  {
    SortedIsStable(items, 0);
    CostIsTheTier(Sorted(items)[i].gate, Sorted(items)[j].gate, k, l);
  }
}
