/** The gate engine: every matching gate, AND-combined, cheapest first, stopping at the first failure. */
module GateEngine {
  import opened Vocabulary

  /** A gate's configuration, as far as the engine itself reads it. */
  datatype Config = Config(
    mapping: bool,                // a mapping, rather than a bare value or list
    whenClause: Option<string>,
    fromStates: Option<seq<string>>,
    checks: seq<string>,
    sources: seq<string>,
    resolvers: Option<string>,
    approvers: seq<string>,
    quorum: int,
    timeout: Option<real>,
    onTimeout: string)

  datatype Entry = Entry(gate: Gate, config: Config)

  /** The engine's cost table: approvals are the most expensive. */
  function Cost(gate: Gate): nat {
    match gate
    case TransitionGuard => 0
    case ValueLimit | RequireExplanation | WindowGate => 10
    case Allowlist | Denylist => 15
    case Precondition | EmissionControl | RequireMatch | Disclosure => 20
    case Rate | Quota | QuantityCap | SpendLimit => 30
    case ContentCheck => 50
    case RequireApproval | DualAuthorization => 90
  }

  // ---- the order -------------------------------------------------------------

  /** Put `e` before the first entry that is not cheaper. */
  function Insert(e: Entry, sorted: seq<Entry>): seq<Entry> {
    if sorted == [] || Cost(e.gate) <= Cost(sorted[0].gate) then [e] + sorted
    else [sorted[0]] + Insert(e, sorted[1..])
  }

  /** The stable sort by cost. */
  function Sorted(items: seq<Entry>): seq<Entry> {
    if items == [] then [] else Insert(items[0], Sorted(items[1..]))
  }

  ghost predicate Ordered(items: seq<Entry>) {
    forall i, j | 0 <= i < j < |items| :: Cost(items[i].gate) <= Cost(items[j].gate)
  }

  /** The entries of one cost, in order. */
  ghost function OfCost(items: seq<Entry>, cost: nat): seq<Entry> {
    if items == [] then []
    else (if Cost(items[0].gate) == cost then [items[0]] else []) + OfCost(items[1..], cost)
  }

  lemma {:induction false} InsertMembers(e: Entry, sorted: seq<Entry>)
    ensures multiset(Insert(e, sorted)) == multiset{e} + multiset(sorted)
  {
    if sorted != [] && Cost(e.gate) > Cost(sorted[0].gate) {
      InsertMembers(e, sorted[1..]);
      assert sorted == [sorted[0]] + sorted[1..];
    }
  }

  ghost predicate AllAbove(items: seq<Entry>, cost: nat) {
    forall i | 0 <= i < |items| :: cost <= Cost(items[i].gate)
  }

  lemma {:induction false} InsertAbove(e: Entry, sorted: seq<Entry>, cost: nat)
    requires AllAbove(sorted, cost) && cost <= Cost(e.gate)
    ensures AllAbove(Insert(e, sorted), cost)
  {
    if sorted != [] && Cost(e.gate) > Cost(sorted[0].gate) {
      InsertAbove(e, sorted[1..], cost);
    }
  }

  lemma {:induction false} InsertOrdered(e: Entry, sorted: seq<Entry>)
    requires Ordered(sorted)
    ensures Ordered(Insert(e, sorted))
  {
    if sorted != [] && Cost(e.gate) > Cost(sorted[0].gate) {
      InsertOrdered(e, sorted[1..]);
      InsertAbove(e, sorted[1..], Cost(sorted[0].gate));
    }
  }

  lemma {:induction false} InsertOfCost(e: Entry, sorted: seq<Entry>, cost: nat)
    requires Ordered(sorted)
    ensures OfCost(Insert(e, sorted), cost) == OfCost([e] + sorted, cost)
  {
    assert ([e] + sorted)[1..] == sorted;
    if sorted != [] && Cost(e.gate) > Cost(sorted[0].gate) {
      var rest := sorted[1..];
      InsertOfCost(e, rest, cost);
      assert ([e] + rest)[1..] == rest;
      assert Insert(e, sorted)[1..] == Insert(e, rest);
    }
  }

  /** Sorting keeps the entries, orders them by cost, and keeps the declared order among equals. */
  lemma {:induction false} SortedIsStable(items: seq<Entry>, cost: nat)
    ensures Ordered(Sorted(items))
    ensures OfCost(Sorted(items), cost) == OfCost(items, cost)
    ensures multiset(Sorted(items)) == multiset(items)
    ensures forall e :: e in Sorted(items) <==> e in items
  {
    if items != [] {
      SortedIsStable(items[1..], cost);
      InsertOrdered(items[0], Sorted(items[1..]));
      InsertMembers(items[0], Sorted(items[1..]));
      InsertOfCost(items[0], Sorted(items[1..]), cost);
      assert items == [items[0]] + items[1..];
      assert ([items[0]] + Sorted(items[1..]))[1..] == Sorted(items[1..]);
    }
    assert forall e :: e in Sorted(items) <==> e in multiset(Sorted(items));
    assert forall e :: e in items <==> e in multiset(items);
  }

  // ---- the walk ----------------------------------------------------------------

  /** Runs one gate; None is the deployment's missing default resolver role. */
  datatype Engine = Engine(run: Entry -> GateResult, resolverRole: Option<string>)

  function Results(items: seq<Entry>, run: Entry -> GateResult): (r: seq<GateResult>)
    ensures |r| == |items| && forall i | 0 <= i < |r| :: r[i] == run(items[i])
  {
    seq(|items|, i requires 0 <= i < |items| => run(items[i]))
  }

  /** The first failing position, or the length. */
  function FirstFail(items: seq<Entry>, run: Entry -> GateResult): (at: nat)
    ensures at <= |items|
    ensures at < |items| ==> run(items[at]).outcome == Outcome.Fail
    ensures forall i | 0 <= i < at :: run(items[i]).outcome != Outcome.Fail
  {
    if items == [] || run(items[0]).outcome == Outcome.Fail then 0 else 1 + FirstFail(items[1..], run)
  }

  function Holding(items: seq<Entry>, run: Entry -> GateResult): seq<Entry> {
    if items == [] then []
    else (if run(items[0]).outcome == Outcome.Hold then [items[0]] else []) + Holding(items[1..], run)
  }

  /** What a holding gate demands, or None when a check-driven hold has nobody to resolve it. */
  function ContractOf(e: Entry, result: GateResult, role: Option<string>): Option<ReleaseContract> {
    var c := e.config;
    var onTimeout := if c.mapping then c.onTimeout else "deny";
    var timeout := if c.mapping then c.timeout else None;
    var own := if c.mapping then c.approvers else [];
    if e.gate == DualAuthorization then
      Some(ReleaseContract(e.gate, "", 2, true, true, own, timeout, onTimeout, "", None, []))
    else if e.gate == RequireApproval then
      Some(ReleaseContract(e.gate, "", if c.mapping then c.quorum else 1, false, false, own, timeout, onTimeout, "", None, []))
    else if c.mapping && c.resolvers.Some? then Some(CheckContract(e.gate, result, [c.resolvers.value]))
    else if role.Some? then Some(CheckContract(e.gate, result, [role.value]))
    else if e.gate == Precondition || result.code != "" then None
    else Some(CheckContract(e.gate, result, own))
  }

  function CheckContract(gate: Gate, result: GateResult, approvers: seq<string>): ReleaseContract {
    ReleaseContract(gate, result.source, 1, false, false, approvers, None, "deny", result.code, result.evidence, [])
  }

  /** The contracts of the holding gates, up to the first that has none. */
  function Contracts(holds: seq<Entry>, engine: Engine): (r: Option<seq<ReleaseContract>>)
    ensures r.Some? <==> forall i | 0 <= i < |holds| :: ContractOf(holds[i], engine.run(holds[i]), engine.resolverRole).Some?
    ensures r.Some? ==> |r.value| == |holds|
    ensures r.Some? ==> forall i | 0 <= i < |holds| ::
      ContractOf(holds[i], engine.run(holds[i]), engine.resolverRole) == Some(r.value[i])
  {
    if holds == [] then Some([])
    else
      var first := ContractOf(holds[0], engine.run(holds[0]), engine.resolverRole);
      var rest := Contracts(holds[1..], engine);
      if first.None? then
        assert ContractOf(holds[0], engine.run(holds[0]), engine.resolverRole).None?;
        None
      else if rest.None? then
        var i :| 0 <= i < |holds[1..]| && ContractOf(holds[1..][i], engine.run(holds[1..][i]), engine.resolverRole).None?;
        assert holds[1..][i] == holds[i + 1];
        None
      else Some([first.value] + rest.value)
  }

  function Evaluate(items: seq<Entry>, engine: Engine): GateOutcome {
    var order := Sorted(items);
    var fail := FirstFail(order, engine.run);
    if fail < |order| then
      GateOutcome(Outcome.Fail, Results(order[..fail + 1], engine.run), Some(GateRule(order[fail].gate)), [])
    else
      var results := Results(order, engine.run);
      var holds := Holding(order, engine.run);
      if holds == [] then GateOutcome(Outcome.Pass, results, None, [])
      else
        match Contracts(holds, engine)
        case None => GateOutcome(Outcome.Fail, results, Some(HoldUnresolvable), [])
        case Some(contracts) => GateOutcome(Outcome.Hold, results, Some(GateRule(holds[0].gate)), contracts)
  }

  // ---- a declarative reading -------------------------------------------------------

  ghost predicate SomeFails(items: seq<Entry>, engine: Engine) {
    exists e :: e in items && engine.run(e).outcome == Outcome.Fail
  }

  ghost predicate Holds(e: Entry, engine: Engine) {
    engine.run(e).outcome == Outcome.Hold
  }

  ghost predicate SomeHolds(items: seq<Entry>, engine: Engine) {
    exists e :: e in items && Holds(e, engine)
  }

  ghost predicate SomeUnresolvable(items: seq<Entry>, engine: Engine) {
    exists e :: e in items && Holds(e, engine) && ContractOf(e, engine.run(e), engine.resolverRole).None?
  }

  lemma {:induction false} HoldingIs(items: seq<Entry>, engine: Engine)
    ensures forall e :: e in Holding(items, engine.run) <==> e in items && Holds(e, engine)
    ensures multiset(Holding(items, engine.run)) <= multiset(items)
  {
    if items != [] {
      HoldingIs(items[1..], engine);
      assert items == [items[0]] + items[1..];
      assert forall e :: e in items <==> e == items[0] || e in items[1..];
    }
  }

  /** The verdict is the conjunction of the gates, whatever order the policy lists them in. */
  lemma VerdictIsConjunction(items: seq<Entry>, engine: Engine)
    ensures var o := Evaluate(items, engine);
      && (o.outcome == Outcome.Fail <==> SomeFails(items, engine) || SomeUnresolvable(items, engine))
      && (o.outcome == Outcome.Hold <==>
            !SomeFails(items, engine) && SomeHolds(items, engine) && !SomeUnresolvable(items, engine))
      && (o.outcome == Outcome.Pass <==> !SomeFails(items, engine) && !SomeHolds(items, engine))
  {
    SortedIsStable(items, 0);
    var order := Sorted(items);
    var fail := FirstFail(order, engine.run);
    HoldingIs(order, engine);
    var holds := Holding(order, engine.run);
    if fail < |order| {
      assert order[fail] in items;
    } else {
      assert !SomeFails(items, engine) by {
        forall e | e in items ensures engine.run(e).outcome != Outcome.Fail {
          assert e in order;
          var i :| 0 <= i < |order| && order[i] == e;
        }
      }
      if holds != [] {
        assert holds[0] in items && Holds(holds[0], engine);
        if Contracts(holds, engine).None? {
          var i :| 0 <= i < |holds| && ContractOf(holds[i], engine.run(holds[i]), engine.resolverRole).None?;
          assert holds[i] in items && Holds(holds[i], engine);
        } else {
          forall e | e in items && Holds(e, engine)
            ensures ContractOf(e, engine.run(e), engine.resolverRole).Some?
          {
            assert e in holds;
            var i :| 0 <= i < |holds| && holds[i] == e;
          }
        }
      }
    }
  }

  /** Two policies listing the same gates in different orders get the same verdict. */
  lemma OrderDoesNotMatter(items: seq<Entry>, others: seq<Entry>, engine: Engine)
    requires multiset(items) == multiset(others)
    ensures Evaluate(items, engine).outcome == Evaluate(others, engine).outcome
  {
    assert forall e :: e in items <==> e in multiset(items);
    assert forall e :: e in others <==> e in multiset(others);
    VerdictIsConjunction(items, engine);
    VerdictIsConjunction(others, engine);
  }

  /** On a gate's failure the trace is the cost-sorted prefix ending at the first failure: nothing dearer has run. */
  lemma FailTrace(items: seq<Entry>, engine: Engine)
    requires SomeFails(items, engine)
    ensures var o, order := Evaluate(items, engine), Sorted(items);
      && 0 < |o.results| <= |order|
      && (forall i | 0 <= i < |o.results| :: o.results[i] == engine.run(order[i]))
      && (forall i | 0 <= i < |o.results| - 1 :: o.results[i].outcome != Outcome.Fail)
      && o.results[|o.results| - 1].outcome == Outcome.Fail
      && o.reason == Some(GateRule(order[|o.results| - 1].gate))
      && (forall i | |o.results| <= i < |order| :: Cost(order[|o.results| - 1].gate) <= Cost(order[i].gate))
  {
    var order := Sorted(items);
    var fail := FailPosition(items, engine);
    SortedIsStable(items, 0);
    assert Evaluate(items, engine).results == Results(order[..fail + 1], engine.run);
    assert forall i | 0 <= i <= fail :: order[..fail + 1][i] == order[i];
  }

  lemma FailPosition(items: seq<Entry>, engine: Engine) returns (fail: nat)
    requires SomeFails(items, engine)
    ensures fail == FirstFail(Sorted(items), engine.run) < |Sorted(items)|
  {
    var order := Sorted(items);
    fail := FirstFail(order, engine.run);
    SortedIsStable(items, 0);
    var e :| e in items && engine.run(e).outcome == Outcome.Fail;
    var i :| 0 <= i < |order| && order[i] == e;
  }

  lemma {:induction false} HoldingCount(items: seq<Entry>, engine: Engine)
    ensures |Holding(items, engine.run)| == |set i | 0 <= i < |items| && Holds(items[i], engine)|
  {
    var at := set i | 0 <= i < |items| && Holds(items[i], engine);
    if items == [] {
      assert at == {};
    } else {
      var last := |items| - 1;
      var front := items[..last];
      var atFront := set i | 0 <= i < |front| && Holds(front[i], engine);
      HoldingCount(front, engine);
      HoldingSnoc(front, items[last], engine);
      assert front + [items[last]] == items;
      assert forall i | 0 <= i < last :: items[i] == front[i];
      if Holds(items[last], engine) {
        assert at == atFront + {last};
      } else {
        assert at == atFront;
      }
    }
  }

  lemma {:induction false} HoldingSnoc(items: seq<Entry>, e: Entry, engine: Engine)
    ensures Holding(items + [e], engine.run)
      == Holding(items, engine.run) + if Holds(e, engine) then [e] else []
  {
    if items == [] {
      assert [] + [e] == [e];
    } else {
      HoldingSnoc(items[1..], e, engine);
      assert (items + [e])[1..] == items[1..] + [e];
    }
  }

  /** A HOLD runs every gate and carries exactly one contract per holding gate, in the order they ran. */
  lemma HoldCarriesEveryContract(items: seq<Entry>, engine: Engine)
    requires Evaluate(items, engine).outcome == Outcome.Hold
    ensures var o, order := Evaluate(items, engine), Sorted(items);
      var holds := Holding(order, engine.run);
      && |o.results| == |items| && |o.releases| == |holds|
      && |holds| == |set i | 0 <= i < |order| && Holds(order[i], engine)|
      && (forall i | 0 <= i < |holds| ::
            ContractOf(holds[i], engine.run(holds[i]), engine.resolverRole) == Some(o.releases[i])
            && o.releases[i].gate == holds[i].gate && o.releases[i].satisfiedBy == [])
  {
    SortedIsStable(items, 0);
    var order := Sorted(items);
    HoldingCount(order, engine);
    assert |order| == |multiset(order)| == |multiset(items)| == |items|;
    var holds := Holding(order, engine.run);
    forall i | 0 <= i < |holds| ensures
      var c := ContractOf(holds[i], engine.run(holds[i]), engine.resolverRole);
      c.Some? ==> c.value.gate == holds[i].gate && c.value.satisfiedBy == []
    {
      ContractShape(holds[i], engine.run(holds[i]), engine.resolverRole);
    }
  }

  lemma ContractShape(e: Entry, result: GateResult, role: Option<string>)
    ensures var c := ContractOf(e, result, role);
      c.Some? ==> c.value.gate == e.gate && c.value.satisfiedBy == []
  {
  }

  // ---- the engine's own loops ---------------------------------------------------------

  /** The cost-sorted walk, collecting results and holds, then one contract per hold. */
  method Run(items: seq<Entry>, engine: Engine) returns (o: GateOutcome)
    ensures o == Evaluate(items, engine)
  {
    var order := Sorted(items);
    var results: seq<GateResult> := [];
    var holds: seq<Entry> := [];
    for i := 0 to |order|
      invariant results == Results(order[..i], engine.run)
      invariant forall k | 0 <= k < i :: engine.run(order[k]).outcome != Outcome.Fail
      invariant holds == Holding(order[..i], engine.run)
    {
      var result := engine.run(order[i]);
      assert order[..i + 1] == order[..i] + [order[i]];
      HoldingSnoc(order[..i], order[i], engine);
      results := results + [result];
      if result.outcome == Outcome.Fail {
        assert FirstFail(order, engine.run) == i;
        return GateOutcome(Outcome.Fail, results, Some(GateRule(order[i].gate)), []);
      }
      if result.outcome == Outcome.Hold {
        holds := holds + [order[i]];
      }
    }
    assert order[..|order|] == order;
    assert FirstFail(order, engine.run) == |order|;
    if holds == [] {
      return GateOutcome(Outcome.Pass, results, None, []);
    }
    var contracts := GatherContracts(holds, engine);
    return if contracts.None? then GateOutcome(Outcome.Fail, results, Some(HoldUnresolvable), [])
           else GateOutcome(Outcome.Hold, results, Some(GateRule(holds[0].gate)), contracts.value);
  }

  method GatherContracts(holds: seq<Entry>, engine: Engine) returns (c: Option<seq<ReleaseContract>>)
    ensures c == Contracts(holds, engine)
  {
    var contracts: seq<ReleaseContract> := [];
    for i := 0 to |holds|
      invariant |contracts| == i
      invariant forall k | 0 <= k < i ::
        ContractOf(holds[k], engine.run(holds[k]), engine.resolverRole) == Some(contracts[k])
    {
      var contract := ContractOf(holds[i], engine.run(holds[i]), engine.resolverRole);
      if contract.None? {
        return None;
      }
      contracts := contracts + [contract.value];
    }
    assert Contracts(holds, engine).value == contracts;
    return Some(contracts);
  }
}
