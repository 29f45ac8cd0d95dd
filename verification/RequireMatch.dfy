/** The `requireMatch` gate: the intent must correspond to exactly one open obligation, within tolerance. */
module RequireMatch {
  import opened Vocabulary
  import opened Syntax
  import opened Text
  import opened Evaluation
  import Parser

  // ---- configuration as it was declared -----------------------------------------------------

  datatype Within = Percent(text: string) | Absolute(bound: real) | BadWithin

  datatype RawClause =
    | Text(src: string)
    | Tolerance(field: Option<string>, matches: Option<string>, within: Within)
    | BadClause

  datatype Spending = Spends(path: string) | SpendsNothing | BadSpending

  datatype OnAmbiguous = AmbiguousHolds | AmbiguousDenies | AmbiguousAllows

  /** `match_` is None unless the key holds a list. */
  datatype Config = Config(
    registry: string,
    consume: Spending,
    onAmbiguous: OnAmbiguous,
    holdsOnNoMatch: bool,
    match_: Option<seq<RawClause>>,
    provenance: seq<RawClause>)

  // ---- the systems of record -------------------------------------------------------------------

  datatype Obligation = Obligation(ref: string, fields: Payload)

  datatype EqConstraint = EqConstraint(field: string, value: Datum)

  /** `query` is None when there is no adapter; its answer is None when the adapter raises. */
  datatype Registries = Registries(
    capability: string -> Option<Capability>,
    query: string -> Option<seq<EqConstraint> -> Option<seq<Obligation>>>)

  datatype GateContext = GateContext(
    resolved: ResolvedAction, failureMode: FailureMode, ctx: Context, registries: Registries)

  // ---- clauses -----------------------------------------------------------------------------------

  /** `eq` is set on a clause the registry can be asked: one obligation field equals something of the intent. */
  datatype Clause =
    | Condition(expr: Expr, eq: Option<(string, Operand)>, fields: seq<FieldRef>, provenance: bool)
    | Near(field: string, matches: string, pct: Option<real>, bound: Option<real>, provenance: bool)

  predicate IsObligationPath(o: Operand) {
    o.Path? && |o.parts| > 1 && o.parts[0] == OBLIGATION
  }

  function SelectorPart(e: Expr): Option<(string, Operand)> {
    if !e.Compare? || e.op != Eq || IsObligationPath(e.lhs) == IsObligationPath(e.rhs) then None
    else
      var (side, other) := if IsObligationPath(e.lhs) then (e.lhs, e.rhs) else (e.rhs, e.lhs);
      if Mentions(other, OBLIGATION) then None else Some((JoinDots(side.parts[1..]), other))
  }

  // The paths of an expression in the order its walk meets them: a right branch before a left one.

  function OperandPaths(o: Operand): seq<seq<string>>
    decreases o, 0
  {
    match o
    case Path(parts) => [parts]
    case Func(_, args) => ArgPaths(args)
    case _ => []
  }

  function ArgPaths(args: seq<Operand>): seq<seq<string>>
    decreases args, 1
  {
    if args == [] then [] else OperandPaths(args[0]) + ArgPaths(args[1..])
  }

  function ExprPaths(e: Expr): seq<seq<string>> {
    match e
    case And(l, r) => ExprPaths(r) + ExprPaths(l)
    case Or(l, r) => ExprPaths(r) + ExprPaths(l)
    case Not(inner) => ExprPaths(inner)
    case Exists(path) => [path]
    case InExpr(item, collection, _) => OperandPaths(item) + OperandPaths(collection)
    case Compare(l, _, r) => OperandPaths(l) + OperandPaths(r)
  }

  function StackPaths(stack: seq<Expr>): seq<seq<string>> {
    if stack == [] then [] else ExprPaths(stack[|stack| - 1]) + StackPaths(stack[..|stack| - 1])
  }

  function Size(e: Expr): nat {
    match e
    case And(l, r) => 1 + Size(l) + Size(r)
    case Or(l, r) => 1 + Size(l) + Size(r)
    case Not(inner) => 1 + Size(inner)
    case _ => 1
  }

  function StackSize(stack: seq<Expr>): nat {
    if stack == [] then 0 else Size(stack[|stack| - 1]) + StackSize(stack[..|stack| - 1])
  }

  /** The walk with an explicit stack. */
  method CollectPaths(e: Expr) returns (out: seq<seq<string>>)
    ensures out == ExprPaths(e)
  {
    out := [];
    var stack := [e];
    assert StackPaths([e]) == ExprPaths(e) + StackPaths([]);
    while stack != []
      invariant ExprPaths(e) == out + StackPaths(stack)
      decreases StackSize(stack)
    {
      var node, under := stack[|stack| - 1], stack[..|stack| - 1];
      match node {
        case And(l, r) => Pushed(under, l, r); stack := under + [l, r];
        case Or(l, r) => Pushed(under, l, r); stack := under + [l, r];
        case Not(inner) =>
          PushedOne(under, inner);
          stack := under + [inner];
        case _ =>
          out := out + ExprPaths(node);
          stack := under;
      }
    }
  }

  lemma PushedOne(under: seq<Expr>, x: Expr)
    ensures StackPaths(under + [x]) == ExprPaths(x) + StackPaths(under)
    ensures StackSize(under + [x]) == Size(x) + StackSize(under)
  {
    assert (under + [x])[..|under|] == under;
  }

  lemma Pushed(under: seq<Expr>, l: Expr, r: Expr)
    ensures StackPaths(under + [l, r]) == ExprPaths(r) + ExprPaths(l) + StackPaths(under)
    ensures StackSize(under + [l, r]) == Size(r) + Size(l) + StackSize(under)
  {
    PushedOne(under, l);
    PushedOne(under + [l], r);
    assert under + [l, r] == under + [l] + [r];
  }

  function FieldOf(parts: seq<string>): FieldRef {
    if |parts| > 1 && parts[0] == "data" then DataField(parts[1..]) else WorldField(JoinDots(parts))
  }

  /** The intent's own side of a clause. */
  function IntentFields(paths: seq<seq<string>>): seq<FieldRef> {
    if paths == [] then []
    else
      (if |paths[0]| > 1 && Frozen(paths[0][0]) then [FieldOf(paths[0])] else []) + IntentFields(paths[1..])
  }

  const PREFIX := "obligation."

  /** One entry; None when it is malformed, its condition does not parse, or its bound does not convert. */
  function ParseClause(raw: RawClause, provenance: bool, host: Host): Option<Clause> {
    match raw
    case Text(src) =>
      (match Parser.Parse(src)
       case Ok(e) => Some(Condition(e, SelectorPart(e), IntentFields(ExprPaths(e)), provenance))
       case Err(_) => None)
    case Tolerance(field, matches, within) =>
      if field.None? || !(PREFIX <= field.value) || matches.None? || matches.value == "" then None
      else
        var rest := field.value[|PREFIX|..];
        (match within
         case Percent(text) =>
           if host.number(text).Some? then Some(Near(rest, matches.value, host.number(text), None, provenance)) else None
         case Absolute(bound) =>
           if bound >= 0.0 then Some(Near(rest, matches.value, None, Some(bound), provenance)) else None
         case BadWithin => None)
    case BadClause => None
  }

  function ParseClauses(raws: seq<RawClause>, provenance: bool, host: Host): Option<seq<Clause>> {
    if raws == [] then Some([])
    else
      var first, rest := ParseClause(raws[0], provenance, host), ParseClauses(raws[1..], provenance, host);
      if first.Some? && rest.Some? then Some([first.value] + rest.value) else None
  }

  function AllClauses(cfg: Config, host: Host): Option<seq<Clause>> {
    if cfg.match_.None? || cfg.match_ == Some([]) then None
    else
      var own, prov := ParseClauses(cfg.match_.value, false, host), ParseClauses(cfg.provenance, true, host);
      if own.Some? && prov.Some? then Some(own.value + prov.value) else None
  }

  function FieldsOf(c: Clause): seq<FieldRef> {
    if c.Condition? then c.fields else [FieldOf(SplitDots(c.matches))]
  }

  /** Every compared field once, in first-seen order. */
  function AllFields(clauses: seq<Clause>, seen: seq<FieldRef>): seq<FieldRef> {
    if clauses == [] then seen else AllFields(clauses[1..], AddFields(FieldsOf(clauses[0]), seen))
  }

  function AddFields(fields: seq<FieldRef>, seen: seq<FieldRef>): seq<FieldRef> {
    if fields == [] then seen
    else AddFields(fields[1..], if fields[0] in seen then seen else seen + [fields[0]])
  }

  // ---- the selector ---------------------------------------------------------------------------------

  predicate Selects(c: Clause) {
    c.Condition? && c.eq.Some? && !c.provenance
  }

  datatype Selection = Selector(constraints: seq<EqConstraint>) | Unresolved(at: Clause) | Escapes

  /** The intent side of every selecting clause, resolved now. */
  function SelectorOf(clauses: seq<Clause>, ctx: Context): Selection {
    if clauses == [] then Selector([])
    else if !Selects(clauses[0]) then SelectorOf(clauses[1..], ctx)
    else
      var (field, operand) := clauses[0].eq.value;
      match Resolve(operand, ctx)
      case FailClosed => Unresolved(clauses[0])
      case Raises => Escapes
      case Ans(value) =>
        match SelectorOf(clauses[1..], ctx)
        case Selector(rest) => Selector([EqConstraint(field, value)] + rest)
        case other => other
  }

  // ---- the verdict ------------------------------------------------------------------------------------

  function Failing(code: string, retry: Option<RetryClass>, evidence: Option<Evidence>, fields: seq<FieldRef>): GateResult {
    GateResult(Gate.RequireMatch, Outcome.Fail, code, "", evidence, retry, fields)
  }

  function Holding(code: string, evidence: Option<Evidence>, fields: seq<FieldRef>): GateResult {
    GateResult(Gate.RequireMatch, Outcome.Hold, code, "", evidence, None, fields)
  }

  function Passing(evidence: Option<Evidence>): GateResult {
    GateResult(Gate.RequireMatch, Outcome.Pass, "", "", evidence, None, [])
  }

  const NO_MATCH := "no-match"
  const AMBIGUOUS := "ambiguous-match"
  const OUTSIDE := "outside-tolerance"
  const PROVENANCE := "provenance-mismatch"
  const MATCH_FAILED := "match-failed"

  /** An unreachable registry is a dependency failure: open mode skips the gate, never for an irreversible effect. */
  function Unreachable(g: GateContext): GateResult {
    if ShouldFailClosed(g.resolved, g.failureMode) then Failing("", None, None, []) else Passing(None)
  }

  function Abs(x: real): real {
    if x < 0.0 then -x else x
  }

  /** The widest difference a tolerance admits; neither bound given means exact. */
  function Limit(c: Clause, obligation: real): real
    requires c.Near?
  {
    if c.pct.Some? then c.pct.value / 100.0 * Abs(obligation)
    else if c.bound.Some? then c.bound.value else 0.0
  }

  function ToNumber(v: Value, host: Host): Option<real> {
    AsNumber(Json(v), host)
  }

  /** What the tolerance compares: the record's number and the intent's, when both are there. */
  function Sides(c: Clause, ob: Obligation, g: GateContext): Option<(real, real)>
    requires c.Near?
  {
    var theirs, ours := LookupField(ob.fields, c.field), Lookup(g.ctx.namespaces, SplitDots(c.matches));
    if theirs.None? || theirs.value == Null || ours.None? then None
    else
      var x, y := ToNumber(theirs.value, g.ctx.host), ToNumber(ours.value, g.ctx.host);
      if x.Some? && y.Some? then Some((x.value, y.value)) else None
  }

  function CheckTolerance(c: Clause, ob: Obligation, g: GateContext, evidence: Evidence): Option<GateResult>
    requires c.Near?
  {
    var fields := FieldsOf(c);
    match Sides(c, ob, g)
    case None => Some(Failing("", None, Some(evidence), fields))
    case Some((theirs, ours)) =>
      if Abs(theirs - ours) <= Limit(c, theirs) then None
      else if c.provenance then Some(Failing(PROVENANCE, Some(Terminal), Some(evidence), fields))
      else Some(Failing(OUTSIDE, Some(Retryable), Some(evidence), fields))
  }

  datatype Verdict = Holds | Fails(result: GateResult) | Escaped

  function CheckClause(c: Clause, ob: Obligation, g: GateContext, evidence: Evidence): Verdict {
    match c
    case Near(_, _, _, _, _) =>
      var failure := CheckTolerance(c, ob, g, evidence);
      if failure.Some? then Fails(failure.value) else Holds
    case Condition(e, _, fields, provenance) =>
      match Evaluate(e, Extended(g.ctx, OBLIGATION, ob.fields))
      case Raises => Escaped
      case FailClosed => Fails(Failing("", None, Some(evidence), fields))
      case Ans(true) => Holds
      case Ans(false) =>
        Fails(Failing(if provenance then PROVENANCE else MATCH_FAILED, Some(Terminal), Some(evidence), fields))
  }

  function CheckAll(clauses: seq<Clause>, ob: Obligation, g: GateContext, evidence: Evidence): Eval<GateResult> {
    if clauses == [] then Ans(Passing(Some(evidence)))
    else
      match CheckClause(clauses[0], ob, g, evidence)
      case Escaped => Raises
      case Fails(result) => Ans(result)
      case Holds => CheckAll(clauses[1..], ob, g, evidence)
  }

  function PlanOf(cfg: Config, capability: Capability): Option<ConsumePlan> {
    match cfg.consume
    case Spends(path) => Some(ConsumePlan(Consume.Path(path), capability))
    case _ => Some(ConsumePlan(Nothing, capability))
  }

  predicate WellFormed(cfg: Config, g: GateContext) {
    && !cfg.consume.BadSpending? && cfg.onAmbiguous != AmbiguousAllows
    && g.registries.capability(cfg.registry).Some? && AllClauses(cfg, g.ctx.host).Some?
  }

  /** What the adapter answers the selector; None when there is no adapter or it raises. */
  function Candidates(cfg: Config, g: GateContext, selector: seq<EqConstraint>): Option<seq<Obligation>> {
    var adapter := g.registries.query(cfg.registry);
    if adapter.None? then None else adapter.value(selector)
  }

  function Decide(cfg: Config, g: GateContext, clauses: seq<Clause>, found: seq<Obligation>): Eval<GateResult>
    requires g.registries.capability(cfg.registry).Some?
  {
    var refs := seq(|found|, i requires 0 <= i < |found| => found[i].ref);
    var lineage := Some(Match(cfg.registry, refs, |found|, None));
    var fields := AllFields(clauses, []);
    if found == [] then
      Ans(if cfg.holdsOnNoMatch then Holding(NO_MATCH, lineage, fields)
          else Failing(NO_MATCH, Some(Terminal), lineage, fields))
    else if |found| > 1 then
      Ans(if cfg.onAmbiguous == AmbiguousDenies then Failing(AMBIGUOUS, Some(Escalate), lineage, fields)
          else Holding(AMBIGUOUS, lineage, fields))
    else
      var capability := g.registries.capability(cfg.registry).value;
      CheckAll(clauses, found[0], g, Match(cfg.registry, [found[0].ref], 1, PlanOf(cfg, capability)))
  }

  /** The gate; None is a configuration that is not a mapping. */
  function Run(config: Option<Config>, g: GateContext): Eval<GateResult> {
    var refused := Ans(Failing("", None, None, []));
    if config.None? || !WellFormed(config.value, g) then refused
    else
      var cfg := config.value;
      var clauses := AllClauses(cfg, g.ctx.host).value;
      match SelectorOf(clauses, g.ctx)
      case Escapes => Raises
      case Unresolved(at) => Ans(Failing("", None, None, FieldsOf(at)))
      case Selector(selector) =>
        match Candidates(cfg, g, selector)
        case None => Ans(Unreachable(g))
        case Some(found) => Decide(cfg, g, clauses, found)
  }

  // ---- the loops as the gate runs them ------------------------------------------------------------------

  method ParseEach(raws: seq<RawClause>, provenance: bool, host: Host) returns (clauses: Option<seq<Clause>>)
    ensures clauses == ParseClauses(raws, provenance, host)
  {
    var parsed: seq<Clause> := [];
    assert raws[0..] == raws;
    Prefixed([], ParseClauses(raws, provenance, host));
    for i := 0 to |raws|
      invariant ParseClauses(raws, provenance, host) == Before(parsed, ParseClauses(raws[i..], provenance, host))
    {
      assert raws[i..][1..] == raws[i + 1..];
      var next := ParseClause(raws[i], provenance, host);
      if next.None? {
        return None;
      }
      OneMore(parsed, next.value, ParseClauses(raws[i + 1..], provenance, host));
      parsed := parsed + [next.value];
    }
    assert parsed + [] == parsed;
    return Some(parsed);
  }

  function Before(done: seq<Clause>, rest: Option<seq<Clause>>): Option<seq<Clause>> {
    if rest.Some? then Some(done + rest.value) else None
  }

  lemma Prefixed(done: seq<Clause>, rest: Option<seq<Clause>>)
    ensures done == [] ==> Before(done, rest) == rest
  {
    if rest.Some? {
      assert [] + rest.value == rest.value;
    }
  }

  lemma OneMore(done: seq<Clause>, next: Clause, rest: Option<seq<Clause>>)
    ensures Before(done, if rest.Some? then Some([next] + rest.value) else None) == Before(done + [next], rest)
  {
    if rest.Some? {
      assert done + ([next] + rest.value) == done + [next] + rest.value;
    }
  }

  method BuildSelector(clauses: seq<Clause>, ctx: Context) returns (s: Selection)
    ensures s == SelectorOf(clauses, ctx)
  {
    var selector: seq<EqConstraint> := [];
    assert clauses[0..] == clauses;
    assert forall rest: seq<EqConstraint> :: [] + rest == rest;
    for i := 0 to |clauses|
      invariant SelectorOf(clauses, ctx) == Onto(selector, SelectorOf(clauses[i..], ctx))
    {
      assert clauses[i..][1..] == clauses[i + 1..];
      if Selects(clauses[i]) {
        var (field, operand) := clauses[i].eq.value;
        var value := Resolve(operand, ctx);
        match value {
          case FailClosed => return Unresolved(clauses[i]);
          case Raises => return Escapes;
          case Ans(v) =>
            OntoOne(selector, EqConstraint(field, v), SelectorOf(clauses[i + 1..], ctx));
            selector := selector + [EqConstraint(field, v)];
        }
      }
    }
    assert selector + [] == selector;
    return Selector(selector);
  }

  function Onto(done: seq<EqConstraint>, rest: Selection): Selection {
    if rest.Selector? then Selector(done + rest.constraints) else rest
  }

  lemma OntoOne(done: seq<EqConstraint>, next: EqConstraint, rest: Selection)
    ensures Onto(done, if rest.Selector? then Selector([next] + rest.constraints) else rest) == Onto(done + [next], rest)
  {
    if rest.Selector? {
      assert done + ([next] + rest.constraints) == done + [next] + rest.constraints;
    }
  }

  method CheckEach(clauses: seq<Clause>, ob: Obligation, g: GateContext, evidence: Evidence) returns (r: Eval<GateResult>)
    ensures r == CheckAll(clauses, ob, g, evidence)
  {
    assert clauses[0..] == clauses;
    for i := 0 to |clauses|
      invariant CheckAll(clauses, ob, g, evidence) == CheckAll(clauses[i..], ob, g, evidence)
    {
      assert clauses[i..][1..] == clauses[i + 1..];
      match CheckClause(clauses[i], ob, g, evidence) {
        case Escaped => return Raises;
        case Fails(result) => return Ans(result);
        case Holds =>
      }
    }
    return Ans(Passing(Some(evidence)));
  }

  method GatherFields(clauses: seq<Clause>) returns (fields: seq<FieldRef>)
    ensures fields == AllFields(clauses, [])
  {
    fields := [];
    assert clauses[0..] == clauses;
    for i := 0 to |clauses|
      invariant AllFields(clauses, []) == AllFields(clauses[i..], fields)
    {
      assert clauses[i..][1..] == clauses[i + 1..];
      var more := FieldsOf(clauses[i]);
      ghost var before := fields;
      assert more[0..] == more;
      for k := 0 to |more|
        invariant AddFields(more, before) == AddFields(more[k..], fields)
      {
        assert more[k..][1..] == more[k + 1..];
        if more[k] !in fields {
          fields := fields + [more[k]];
        }
      }
    }
  }

  /** The gate, start to finish. */
  method Verify(config: Option<Config>, g: GateContext) returns (r: Eval<GateResult>)
    ensures r == Run(config, g)
  {
    var refused := Ans(Failing("", None, None, []));
    if config.None? { return refused; }
    var cfg := config.value;
    if cfg.consume.BadSpending? || cfg.onAmbiguous == AmbiguousAllows || g.registries.capability(cfg.registry).None? {
      return refused;
    }
    if cfg.match_.None? || cfg.match_.value == [] { return refused; }
    var own := ParseEach(cfg.match_.value, false, g.ctx.host);
    var provenance := ParseEach(cfg.provenance, true, g.ctx.host);
    if own.None? || provenance.None? { return refused; }
    var clauses := own.value + provenance.value;
    var selection := BuildSelector(clauses, g.ctx);
    if selection.Escapes? { return Raises; }
    if selection.Unresolved? { return Ans(Failing("", None, None, FieldsOf(selection.at))); }
    var adapter := g.registries.query(cfg.registry);
    if adapter.None? { return Ans(Unreachable(g)); }
    var found := adapter.value(selection.constraints);
    if found.None? { return Ans(Unreachable(g)); }
    r := Settle(cfg, g, clauses, found.value);
  }

  /** None, several, or the one candidate. */
  method Settle(cfg: Config, g: GateContext, clauses: seq<Clause>, found: seq<Obligation>) returns (r: Eval<GateResult>)
    requires g.registries.capability(cfg.registry).Some?
    ensures r == Decide(cfg, g, clauses, found)
  {
    if |found| == 1 {
      var capability := g.registries.capability(cfg.registry).value;
      r := CheckEach(clauses, found[0], g, Match(cfg.registry, [found[0].ref], 1, PlanOf(cfg, capability)));
      return;
    }
    var refs := seq(|found|, i requires 0 <= i < |found| => found[i].ref);
    var lineage := Some(Match(cfg.registry, refs, |found|, None));
    var fields := GatherFields(clauses);
    if found == [] {
      r := Ans(if cfg.holdsOnNoMatch then Holding(NO_MATCH, lineage, fields)
               else Failing(NO_MATCH, Some(Terminal), lineage, fields));
    } else {
      r := Ans(if cfg.onAmbiguous == AmbiguousDenies then Failing(AMBIGUOUS, Some(Escalate), lineage, fields)
               else Holding(AMBIGUOUS, lineage, fields));
    }
  }
}
