/** The fail-closed evaluator of the condition language. */
module Evaluation {
  import opened Vocabulary
  import opened Syntax
  import opened Text

  /** A payload value, or what only a host function returns: a daily interval, a time of day in minutes. */
  datatype Datum = Json(v: Value) | Range(from: int, until: int) | Moment(minutes: int)

  /** `FailClosed` is a `ConditionRuntimeError`; `Raises` is any other exception. */
  datatype Eval<+T> = Ans(value: T) | FailClosed | Raises

  /** Python's own conversions and the deployment's functions, left abstract. */
  datatype Host = Host(
    number: string -> Option<real>,            // float(text), for finite values
    show: Datum -> string,                     // str(value)
    minutes: string -> Option<int>,            // "HH:MM" as minutes since midnight
    search: (string, string) -> Option<bool>,  // re.search; None when the pattern does not compile
    call: (string, seq<Datum>) -> Option<Eval<Datum>>)  // a host function; None when there is none of that name

  type Namespaces = map<string, Payload>

  datatype Context = Context(namespaces: Namespaces, host: Host)

  const OBLIGATION := "obligation"

  predicate Frozen(name: string) {
    name == "action" || name == "data" || name == "resource" || name == "actor" || name == "context"
  }

  // ---- paths -----------------------------------------------------------------------------

  function Descend(value: Value, parts: seq<string>): Option<Value>
    decreases |parts|
  {
    if parts == [] then Some(value)
    else if value.Rec? && parts[0] in value.fields then Descend(value.fields[parts[0]], parts[1..])
    else None
  }

  /** None is a missing value. */
  function Lookup(namespaces: Namespaces, parts: seq<string>): Option<Value> {
    if parts == [] || parts[0] !in namespaces then None else Descend(Rec(namespaces[parts[0]]), parts[1..])
  }

  /** A dotted path into one record's fields; None is `MISSING`. */
  function LookupField(fields: Payload, path: string): Option<Value> {
    Descend(Rec(fields), SplitDots(path))
  }

  /** The descent both lookups make, one part at a time. */
  method Walk(start: Value, parts: seq<string>) returns (found: Option<Value>)
    ensures found == Descend(start, parts)
  {
    var value := start;
    assert parts[0..] == parts;
    for i := 0 to |parts|
      invariant Descend(start, parts) == Descend(value, parts[i..])
    {
      assert parts[i..][1..] == parts[i + 1..];
      if !value.Rec? || parts[i] !in value.fields {
        return None;
      }
      value := value.fields[parts[i]];
    }
    return Some(value);
  }

  // ---- values ------------------------------------------------------------------------------

  function DigitValue(c: char): real {
    if IsDigit(c) then (c as int - '0' as int) as real else 0.0
  }

  /** The digits before the first dot, as a whole number. */
  function Whole(text: string, sofar: real): real {
    if text == "" || !IsDigit(text[0]) then sofar else Whole(text[1..], 10.0 * sofar + DigitValue(text[0]))
  }

  function Fraction(text: string, unit: real): real {
    if text == "" || !IsDigit(text[0]) then 0.0
    else unit * DigitValue(text[0]) + Fraction(text[1..], unit / 10.0)
  }

  function AfterDot(text: string): string {
    if text == "" then "" else if text[0] == '.' then text[1..] else AfterDot(text[1..])
  }

  /** The number a literal's text denotes. */
  function Decimal(text: string): real {
    if text != "" && text[0] == '-' then -Decimal(text[1..])
    else Whole(text, 0.0) + Fraction(AfterDot(text), 0.1)
  }

  function LiteralValue(o: Operand): Value {
    match o
    case StrLit(s) => Str(s)
    case NumLit(text) => Num(Decimal(text))
    case BoolLit(b) => Bool(b)
    case ListLit(items) => List(seq(|items|, i requires 0 <= i < |items| => LiteralValue(items[i])))
    case _ => Null
  }

  /** Booleans are not numbers here; text is one when it converts. */
  function AsNumber(d: Datum, host: Host): Option<real> {
    match d
    case Json(Num(n)) => Some(n)
    case Json(Str(s)) => host.number(s)
    case _ => None
  }

  function BoolNumber(b: bool): real {
    if b then 1.0 else 0.0
  }

  /** Python's `==`: a boolean equals the number it stands for, and containers compare element by element. */
  predicate PyEq(a: Value, b: Value) {
    match (a, b)
    case (Bool(x), Num(n)) => BoolNumber(x) == n
    case (Num(n), Bool(x)) => BoolNumber(x) == n
    case (List(xs), List(ys)) => |xs| == |ys| && forall i | 0 <= i < |xs| :: PyEq(xs[i], ys[i])
    case (Rec(f), Rec(g)) => f.Keys == g.Keys && forall k | k in f.Keys && k in g.Keys :: PyEq(f[k], g[k])
    case _ => a == b
  }

  predicate DatumEq(a: Datum, b: Datum) {
    if a.Json? && b.Json? then PyEq(a.v, b.v) else a == b
  }

  /** The evaluator's equality. */
  predicate Equal(a: Datum, b: Datum, host: Host) {
    var x, y := AsNumber(a, host), AsNumber(b, host);
    if x.Some? && y.Some? then x == y else DatumEq(a, b)
  }

  /** The adapter's equality, which asks about booleans first and then counts them as numbers. */
  predicate ValuesEqual(a: Datum, b: Datum, host: Host) {
    if IsBool(a) || IsBool(b) then DatumEq(a, b)
    else
      var x, y := AnyNumber(a, host), AnyNumber(b, host);
      if x.Some? && y.Some? then x == y else DatumEq(a, b)
  }

  predicate IsBool(d: Datum) {
    d.Json? && d.v.Bool?
  }

  function AnyNumber(d: Datum, host: Host): Option<real> {
    if IsBool(d) then Some(BoolNumber(d.v.b)) else AsNumber(d, host)
  }

  lemma EqualityAgrees(a: Datum, b: Datum, host: Host)
    ensures Equal(a, b, host) == ValuesEqual(a, b, host)
  {
  }

  lemma {:induction false} PyEqSymmetric(a: Value, b: Value)
    ensures PyEq(a, b) == PyEq(b, a)
  {
    match (a, b)
    case (List(xs), List(ys)) =>
      if |xs| == |ys| {
        forall i | 0 <= i < |xs| ensures PyEq(xs[i], ys[i]) == PyEq(ys[i], xs[i]) {
          PyEqSymmetric(xs[i], ys[i]);
        }
      }
    case (Rec(f), Rec(g)) =>
      if f.Keys == g.Keys {
        forall k | k in f.Keys && k in g.Keys ensures PyEq(f[k], g[k]) == PyEq(g[k], f[k]) {
          PyEqSymmetric(f[k], g[k]);
        }
      }
    case _ =>
  }

  lemma EqualSymmetric(a: Datum, b: Datum, host: Host)
    ensures Equal(a, b, host) == Equal(b, a, host)
  {
    if a.Json? && b.Json? {
      PyEqSymmetric(a.v, b.v);
    }
  }

  // ---- resolving and evaluating ---------------------------------------------------------------

  function Resolve(o: Operand, ctx: Context): Eval<Datum>
    decreases o, 0
  {
    match o
    case Path(parts) =>
      if |parts| == 1 && !Frozen(parts[0]) then Ans(Json(Str(parts[0])))
      else if Lookup(ctx.namespaces, parts).Some? then Ans(Json(Lookup(ctx.namespaces, parts).value))
      else FailClosed
    case Func(name, args) =>
      (match ResolveAll(args, ctx)
       case Ans(values) => if ctx.host.call(name, values).Some? then ctx.host.call(name, values).value else FailClosed
       case FailClosed => FailClosed
       case Raises => Raises)
    case _ => Ans(Json(LiteralValue(o)))
  }

  /** Left to right, stopping at the first that does not resolve. */
  function ResolveAll(args: seq<Operand>, ctx: Context): Eval<seq<Datum>>
    decreases args, 1
  {
    if args == [] then Ans([])
    else
      match Resolve(args[0], ctx)
      case FailClosed => FailClosed
      case Raises => Raises
      case Ans(first) =>
        match ResolveAll(args[1..], ctx)
        case Ans(rest) => Ans([first] + rest)
        case FailClosed => FailClosed
        case Raises => Raises
  }

  function TimeOfDay(d: Datum, host: Host): Option<int> {
    match d
    case Moment(m) => Some(m)
    case Json(Str(s)) => if ':' in s then host.minutes(s) else None
    case _ => None
  }

  /** A range whose end is before its start runs over midnight. */
  predicate InRange(from: int, until: int, minutes: Option<int>) {
    minutes.Some? &&
      if from <= until then from <= minutes.value <= until else minutes.value >= from || minutes.value <= until
  }

  predicate Substring(part: string, whole: string) {
    exists i :: 0 <= i <= |whole| && part <= whole[i..]
  }

  function Contains(collection: Datum, item: Datum, host: Host): Eval<bool> {
    match collection
    case Range(from, until) => Ans(InRange(from, until, TimeOfDay(item, host)))
    case Json(List(items)) => Ans(exists i :: 0 <= i < |items| && Equal(item, Json(items[i]), host))
    case Json(Str(s)) => Ans(Substring(host.show(item), s))
    case _ => FailClosed
  }

  function CompareData(l: Datum, op: Operator, r: Datum, host: Host): Eval<bool> {
    match op
    case Eq => Ans(Equal(l, r, host))
    case Ne => Ans(!Equal(l, r, host))
    case Matches =>
      var found := host.search(host.show(r), host.show(l));
      if found.Some? then Ans(found.value) else Raises
    case _ =>
      var x, y := AsNumber(l, host), AsNumber(r, host);
      if x.None? || y.None? then FailClosed else Ans(Ordered(x.value, op, y.value))
  }

  predicate Ordered(x: real, op: Operator, y: real) {
    if op == Lt then x < y else if op == Le then x <= y else if op == Gt then x > y else x >= y
  }

  /** Both operands are resolved, left first, before anything is compared. */
  function Both(l: Operand, r: Operand, ctx: Context): Eval<(Datum, Datum)> {
    match Resolve(l, ctx)
    case FailClosed => FailClosed
    case Raises => Raises
    case Ans(x) =>
      match Resolve(r, ctx)
      case FailClosed => FailClosed
      case Raises => Raises
      case Ans(y) => Ans((x, y))
  }

  function Negated(answer: Eval<bool>): Eval<bool> {
    if answer.Ans? then Ans(!answer.value) else answer
  }

  /** `and` and `or` stop at the operand that decides. */
  function Evaluate(e: Expr, ctx: Context): Eval<bool> {
    match e
    case And(l, r) => if Evaluate(l, ctx) == Ans(true) then Evaluate(r, ctx) else Evaluate(l, ctx)
    case Or(l, r) => if Evaluate(l, ctx) == Ans(false) then Evaluate(r, ctx) else Evaluate(l, ctx)
    case Not(inner) => Negated(Evaluate(inner, ctx))
    case Exists(path) => Ans(Lookup(ctx.namespaces, path).Some?)
    case InExpr(item, collection, negated) =>
      (match Both(item, collection, ctx)
       case FailClosed => FailClosed
       case Raises => Raises
       case Ans((x, y)) => if negated then Negated(Contains(y, x, ctx.host)) else Contains(y, x, ctx.host))
    case Compare(l, op, r) =>
      match Both(l, r, ctx)
      case FailClosed => FailClosed
      case Raises => Raises
      case Ans((x, y)) => CompareData(x, op, y, ctx.host)
  }

  // ---- adding a namespace ---------------------------------------------------------------------------

  /** The same request with one more namespace, or that namespace replaced. */
  function Extended(ctx: Context, name: string, fields: Payload): Context {
    ctx.(namespaces := ctx.namespaces[name := fields])
  }

  predicate Mentions(o: Operand, name: string) {
    match o
    case Path(parts) => parts != [] && parts[0] == name
    case Func(_, args) => exists i :: 0 <= i < |args| && Mentions(args[i], name)
    case _ => false
  }

  predicate ExprMentions(e: Expr, name: string) {
    match e
    case And(l, r) => ExprMentions(l, name) || ExprMentions(r, name)
    case Or(l, r) => ExprMentions(l, name) || ExprMentions(r, name)
    case Not(inner) => ExprMentions(inner, name)
    case Exists(path) => path != [] && path[0] == name
    case InExpr(item, collection, _) => Mentions(item, name) || Mentions(collection, name)
    case Compare(l, _, r) => Mentions(l, name) || Mentions(r, name)
  }

  lemma {:induction false} ResolveFrame(o: Operand, ctx: Context, name: string, fields: Payload)
    requires !Mentions(o, name)
    ensures Resolve(o, Extended(ctx, name, fields)) == Resolve(o, ctx)
    decreases o, 0
  {
    if o.Func? {
      ResolveAllFrame(o.args, ctx, name, fields);
    }
  }

  lemma {:induction false} ResolveAllFrame(args: seq<Operand>, ctx: Context, name: string, fields: Payload)
    requires forall i | 0 <= i < |args| :: !Mentions(args[i], name)
    ensures ResolveAll(args, Extended(ctx, name, fields)) == ResolveAll(args, ctx)
    decreases args, 1
  {
    if args != [] {
      ResolveFrame(args[0], ctx, name, fields);
      ResolveAllFrame(args[1..], ctx, name, fields);
    }
  }

  /** A condition that does not name a namespace cannot tell whether it is there. */
  lemma {:induction false} EvaluateFrame(e: Expr, ctx: Context, name: string, fields: Payload)
    requires !ExprMentions(e, name)
    ensures Evaluate(e, Extended(ctx, name, fields)) == Evaluate(e, ctx)
  {
    match e
    case And(l, r) => EvaluateFrame(l, ctx, name, fields); EvaluateFrame(r, ctx, name, fields);
    case Or(l, r) => EvaluateFrame(l, ctx, name, fields); EvaluateFrame(r, ctx, name, fields);
    case Not(inner) => EvaluateFrame(inner, ctx, name, fields);
    case InExpr(item, collection, _) =>
      ResolveFrame(item, ctx, name, fields);
      ResolveFrame(collection, ctx, name, fields);
    case Compare(l, _, r) => ResolveFrame(l, ctx, name, fields); ResolveFrame(r, ctx, name, fields);
    case Exists(_) =>
  }
}
