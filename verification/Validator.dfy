/** The static check of conditions, and what passing it promises about evaluation. */
module Validator {
  import opened Vocabulary
  import opened Syntax
  import opened Evaluation
  import opened Parser
  import RoundTrip
  import ParseErrors

  const NAMESPACES := {"action", "data", "resource", "actor", "context"}
  const FUNCTIONS := {"count", "now", "window", "spend"}

  // ---- the check -------------------------------------------------------------------

  datatype Complaint = UnknownRoot(path: seq<string>) | UnknownFunction(name: string)

  /** A single segment is a namespace or a word standing for itself; longer paths must start at a namespace. */
  function OperandComplaints(o: Operand, known: set<string>): seq<Complaint>
    decreases o, 0
  {
    match o
    case Path(parts) => if |parts| > 1 && parts[0] !in known then [UnknownRoot(parts)] else []
    case Func(name, args) =>
      (if name !in FUNCTIONS then [UnknownFunction(name)] else []) + ArgComplaints(args, known)
    case _ => []
  }

  function ArgComplaints(args: seq<Operand>, known: set<string>): seq<Complaint>
    decreases args, 1
  {
    if args == [] then [] else OperandComplaints(args[0], known) + ArgComplaints(args[1..], known)
  }

  function Complaints(e: Expr, known: set<string>): seq<Complaint> {
    match e
    case And(l, r) => Complaints(l, known) + Complaints(r, known)
    case Or(l, r) => Complaints(l, known) + Complaints(r, known)
    case Not(inner) => Complaints(inner, known)
    case Compare(l, _, r) => OperandComplaints(l, known) + OperandComplaints(r, known)
    case InExpr(item, collection, _) => OperandComplaints(item, known) + OperandComplaints(collection, known)
    case Exists(path) => OperandComplaints(Operand.Path(path), known)
  }

  function Validate(e: Expr, extra: set<string>): seq<Complaint> {
    Complaints(e, NAMESPACES + extra)
  }

  // ---- what a deployment supplies -----------------------------------------------------

  /** A request of a deployment with these namespaces, whatever is in them, and no function beyond the four. */
  ghost predicate Supplies(ctx: Context, known: set<string>) {
    ctx.namespaces.Keys == known && forall name, args :: ctx.host.call(name, args).Some? ==> name in FUNCTIONS
  }

  /** Nothing the condition refers to is missing: every operand resolves and every dotted path it probes is there. */
  ghost predicate Resolvable(e: Expr, ctx: Context) {
    match e
    case And(l, r) => Resolvable(l, ctx) && Resolvable(r, ctx)
    case Or(l, r) => Resolvable(l, ctx) && Resolvable(r, ctx)
    case Not(inner) => Resolvable(inner, ctx)
    case Compare(l, _, r) => Resolve(l, ctx).Ans? && Resolve(r, ctx).Ans?
    case InExpr(item, collection, _) => Resolve(item, ctx).Ans? && Resolve(collection, ctx).Ans?
    case Exists(path) => |path| > 1 ==> Lookup(ctx.namespaces, path).Some?
  }

  ghost predicate AllResolvable(es: seq<Expr>, ctx: Context) {
    forall i | 0 <= i < |es| :: Resolvable(es[i], ctx)
  }

  // ---- what resolves was not complained about ---------------------------------------------

  lemma {:induction false} ResolvedIsClean(o: Operand, ctx: Context, known: set<string>)
    requires Supplies(ctx, known) && Resolve(o, ctx).Ans?
    ensures OperandComplaints(o, known) == []
    decreases o, 0
  {
    if o.Func? {
      ResolvedArgsAreClean(o.args, ctx, known);
    }
  }

  lemma {:induction false} ResolvedArgsAreClean(args: seq<Operand>, ctx: Context, known: set<string>)
    requires Supplies(ctx, known) && ResolveAll(args, ctx).Ans?
    ensures ArgComplaints(args, known) == []
    decreases args, 1
  {
    if args != [] {
      ResolvedIsClean(args[0], ctx, known);
      ResolvedArgsAreClean(args[1..], ctx, known);
    }
  }

  lemma {:induction false} ResolvableIsClean(e: Expr, ctx: Context, known: set<string>)
    requires Supplies(ctx, known) && Resolvable(e, ctx)
    ensures Complaints(e, known) == []
  {
    match e
    case And(l, r) => ResolvableIsClean(l, ctx, known); ResolvableIsClean(r, ctx, known);
    case Or(l, r) => ResolvableIsClean(l, ctx, known); ResolvableIsClean(r, ctx, known);
    case Not(inner) => ResolvableIsClean(inner, ctx, known);
    case Compare(l, _, r) => ResolvedIsClean(l, ctx, known); ResolvedIsClean(r, ctx, known);
    case InExpr(item, collection, _) => ResolvedIsClean(item, ctx, known); ResolvedIsClean(collection, ctx, known);
    case Exists(_) =>
  }

  /** A comparison or membership test that was complained about answers in no request: it always fails closed. */
  lemma RejectedNeverAnswers(e: Expr, extra: set<string>, ctx: Context)
    requires (e.Compare? || e.InExpr?) && Validate(e, extra) != [] && Supplies(ctx, NAMESPACES + extra)
    ensures !Evaluate(e, ctx).Ans?
  {
    if Resolvable(e, ctx) {
      ResolvableIsClean(e, ctx, NAMESPACES + extra);
    }
  }

  // ---- a request in which every listed path is there -----------------------------------------

  /** The value with one more path through it. */
  function Grow(v: Value, path: seq<string>): (r: Value)
    ensures path != [] || v.Rec? ==> r.Rec?
    decreases |path|
  {
    if path == [] then v
    else
      var fields := if v.Rec? then v.fields else map[];
      Rec(fields[path[0] := Grow(if path[0] in fields then fields[path[0]] else Null, path[1..])])
  }

  lemma {:induction false} GrownReaches(v: Value, path: seq<string>)
    ensures Descend(Grow(v, path), path).Some?
    decreases |path|
  {
    if path != [] {
      var fields := if v.Rec? then v.fields else map[];
      GrownReaches(if path[0] in fields then fields[path[0]] else Null, path[1..]);
    }
  }

  lemma {:induction false} GrownStillReaches(v: Value, path: seq<string>, other: seq<string>)
    requires Descend(v, other).Some?
    ensures Descend(Grow(v, path), other).Some?
    decreases |path|
  {
    if path != [] && other != [] && path[0] == other[0] {
      GrownStillReaches(v.fields[path[0]], path[1..], other[1..]);
    }
  }

  function Plant(namespaces: Namespaces, paths: seq<seq<string>>): (r: Namespaces)
    ensures r.Keys == namespaces.Keys
    decreases |paths|
  {
    if paths == [] then namespaces
    else
      var path, planted := paths[0], Plant(namespaces, paths[1..]);
      if path == [] || path[0] !in planted then planted
      else planted[path[0] := Grow(Rec(planted[path[0]]), path[1..]).fields]
  }

  lemma {:induction false} PlantedReaches(namespaces: Namespaces, paths: seq<seq<string>>, path: seq<string>)
    requires path in paths && path != [] && path[0] in namespaces
    ensures Lookup(Plant(namespaces, paths), path).Some?
    decreases |paths|
  {
    var first, planted := paths[0], Plant(namespaces, paths[1..]);
    if path == first {
      GrownReaches(Rec(planted[path[0]]), path[1..]);
    } else {
      PlantedReaches(namespaces, paths[1..], path);
      if first != [] && first[0] == path[0] {
        GrownStillReaches(Rec(planted[path[0]]), first[1..], path[1..]);
      }
    }
  }

  // ---- a clean condition resolves there --------------------------------------------------------

  function OperandPaths(o: Operand): seq<seq<string>>
    decreases o, 0
  {
    match o
    case Path(parts) => if |parts| > 1 then [parts] else []
    case Func(_, args) => ArgPaths(args)
    case _ => []
  }

  function ArgPaths(args: seq<Operand>): seq<seq<string>>
    decreases args, 1
  {
    if args == [] then [] else OperandPaths(args[0]) + ArgPaths(args[1..])
  }

  /** The dotted paths of a condition. */
  function Paths(e: Expr): seq<seq<string>> {
    match e
    case And(l, r) => Paths(l) + Paths(r)
    case Or(l, r) => Paths(l) + Paths(r)
    case Not(inner) => Paths(inner)
    case Compare(l, _, r) => OperandPaths(l) + OperandPaths(r)
    case InExpr(item, collection, _) => OperandPaths(item) + OperandPaths(collection)
    case Exists(path) => OperandPaths(Operand.Path(path))
  }

  function AllPaths(es: seq<Expr>): (r: seq<seq<string>>)
    ensures forall i, path | 0 <= i < |es| && path in Paths(es[i]) :: path in r
  {
    if es == [] then [] else Paths(es[0]) + AllPaths(es[1..])
  }

  /** Every path that starts at a namespace is there, and every one of the four functions answers. */
  ghost predicate Stocked(ctx: Context, known: set<string>, paths: seq<seq<string>>) {
    && ctx.namespaces.Keys == known && NAMESPACES <= known
    && (forall name, args | name in FUNCTIONS :: ctx.host.call(name, args) == Some(Ans(Json(Null))))
    && forall path | path in paths && path != [] && path[0] in known :: Lookup(ctx.namespaces, path).Some?
  }

  lemma {:induction false} CleanResolves(o: Operand, ctx: Context, known: set<string>, paths: seq<seq<string>>)
    requires GoodOperand(o) && OperandComplaints(o, known) == []
    requires Stocked(ctx, known, paths) && forall path | path in OperandPaths(o) :: path in paths
    ensures Resolve(o, ctx).Ans?
    decreases o, 0
  {
    match o
    case Path(parts) => if |parts| > 1 { assert parts in OperandPaths(o); }
    case Func(name, args) => CleanArgsResolve(args, ctx, known, paths);
    case _ =>
  }

  lemma {:induction false} CleanArgsResolve(args: seq<Operand>, ctx: Context, known: set<string>, paths: seq<seq<string>>)
    requires GoodArgs(args) && ArgComplaints(args, known) == []
    requires Stocked(ctx, known, paths) && forall path | path in ArgPaths(args) :: path in paths
    ensures ResolveAll(args, ctx).Ans?
    decreases args, 1
  {
    if args != [] {
      CleanResolves(args[0], ctx, known, paths);
      CleanArgsResolve(args[1..], ctx, known, paths);
    }
  }

  lemma {:induction false} CleanIsResolvable(e: Expr, ctx: Context, known: set<string>, paths: seq<seq<string>>)
    requires GoodExpr(e) && Complaints(e, known) == []
    requires Stocked(ctx, known, paths) && forall path | path in Paths(e) :: path in paths
    ensures Resolvable(e, ctx)
  {
    match e
    case And(l, r) => CleanIsResolvable(l, ctx, known, paths); CleanIsResolvable(r, ctx, known, paths);
    case Or(l, r) => CleanIsResolvable(l, ctx, known, paths); CleanIsResolvable(r, ctx, known, paths);
    case Not(inner) => CleanIsResolvable(inner, ctx, known, paths);
    case Compare(l, _, r) => CleanResolves(l, ctx, known, paths); CleanResolves(r, ctx, known, paths);
    case InExpr(item, collection, _) =>
      CleanResolves(item, ctx, known, paths);
      CleanResolves(collection, ctx, known, paths);
    case Exists(path) => if |path| > 1 { assert path in Paths(e); }
  }

  /** A request that holds all the paths, and a host whose four functions answer. */
  function Witness(known: set<string>, paths: seq<seq<string>>): Context {
    Context(
      Plant(map name | name in known :: map[], paths),
      Host(_ => None, _ => "", _ => None, (_, _) => None,
           (name, args) => if name in FUNCTIONS then Some(Ans(Json(Null))) else None))
  }

  lemma WitnessIsStocked(known: set<string>, paths: seq<seq<string>>)
    requires NAMESPACES <= known
    ensures Stocked(Witness(known, paths), known, paths) && Supplies(Witness(known, paths), known)
  {
    var empty: Namespaces := map name | name in known :: map[];
    forall path | path in paths && path != [] && path[0] in known
      ensures Lookup(Plant(empty, paths), path).Some?
    {
      PlantedReaches(empty, paths, path);
    }
  }

  // ---- the theorem -----------------------------------------------------------------------------------

  /**
   * A policy's conditions all pass the check if and only if some request of such a deployment resolves everything
   * in all of them at once: the check complains about nothing satisfiable and misses nothing unsatisfiable.
   */
  lemma ValidatesExactly(es: seq<Expr>, extra: set<string>)
    requires forall i | 0 <= i < |es| :: GoodExpr(es[i])
    ensures (forall i | 0 <= i < |es| :: Validate(es[i], extra) == []) <==>
            exists ctx :: Supplies(ctx, NAMESPACES + extra) && AllResolvable(es, ctx)
  {
    var known := NAMESPACES + extra;
    if forall i | 0 <= i < |es| :: Validate(es[i], extra) == [] {
      var paths := AllPaths(es);
      var ctx := Witness(known, paths);
      WitnessIsStocked(known, paths);
      forall i | 0 <= i < |es| ensures Resolvable(es[i], ctx) {
        CleanIsResolvable(es[i], ctx, known, paths);
      }
      assert Supplies(ctx, known) && AllResolvable(es, ctx);
    }
    forall ctx, i | Supplies(ctx, known) && AllResolvable(es, ctx) && 0 <= i < |es| ensures Validate(es[i], extra) == [] {
      ResolvableIsClean(es[i], ctx, known);
    }
  }

  /** An `exists` can hold in some request exactly if it starts at a namespace; a single word always passes the check. */
  lemma AcceptedExistsCanHold(path: seq<string>, extra: set<string>)
    requires path != []
    ensures Validate(Exists(path), extra) == [] <==> |path| == 1 || path[0] in NAMESPACES + extra
    ensures (exists ctx :: Supplies(ctx, NAMESPACES + extra) && Evaluate(Exists(path), ctx) == Ans(true)) <==>
            path[0] in NAMESPACES + extra
  {
    var known := NAMESPACES + extra;
    if path[0] in known {
      var ctx := Witness(known, [path]);
      WitnessIsStocked(known, [path]);
      assert Supplies(ctx, known) && Evaluate(Exists(path), ctx) == Ans(true);
    }
  }

  /** So `exists` of a word that is no namespace, though it passes the check, is false in every request. */
  lemma WordNeverExists(word: string, extra: set<string>, ctx: Context)
    requires word !in NAMESPACES + extra && Supplies(ctx, NAMESPACES + extra)
    ensures Validate(Exists([word]), extra) == [] && Evaluate(Exists([word]), ctx) == Ans(false)
  {
    AcceptedExistsCanHold([word], extra);
  }

  /** What the linter is told about a condition's text. */
  datatype Report = Listed(complaints: seq<Complaint>) | Unparsable | Crashed

  /**
   * Parse, then check. A text that does not parse is reported as one problem, except that a number that does not
   * convert, where a number is wanted, ends the check with an error the report was meant to replace. Nothing is
   * reported of a text exactly when some request resolves everything in it.
   */
  method ParseAndValidate(src: string, extra: set<string>) returns (r: Report)
    ensures r.Crashed? <==> ParseErrors.BadNumberWanted(src)
    ensures r.Listed? <==> Parse(src).Ok?
    ensures r == Listed([]) <==>
            && Parse(src).Ok?
            && exists ctx :: Supplies(ctx, NAMESPACES + extra) && Resolvable(Parse(src).value, ctx)
  {
    var parsed := ParseText(src);
    ParseErrors.RaisesExactly(src);
    if parsed.Ok? {
      r := Listed(Validate(parsed.value, extra));
      RoundTrip.ParsedExactlyGood(parsed.value);
      ValidatesExactly([parsed.value], extra);
      assert forall ctx :: AllResolvable([parsed.value], ctx) <==> Resolvable([parsed.value][0], ctx);
    } else {
      r := if parsed.error == BadNumber then Crashed else Unparsable;
    }
  }
}
