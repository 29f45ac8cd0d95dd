/** What a condition means: its comparisons, connectives and memberships as numbers, truth values and list positions. */
module Meaning {
  import opened Vocabulary
  import opened Syntax
  import opened Tokenizer
  import opened Parser
  import opened Evaluation
  import opened RequireMatch
  import opened RoundTrip
  import MatchSoundness

  // ---- comparisons -------------------------------------------------------------------------

  /** A number, or text that converts to one; a truth value is none. */
  ghost predicate Counts(d: Datum, host: Host, n: real) {
    d == Json(Num(n)) || (d.Json? && d.v.Str? && host.number(d.v.s) == Some(n))
  }

  ghost predicate CountsNothing(d: Datum, host: Host) {
    forall n: real :: !Counts(d, host, n)
  }

  lemma CountingIsExact(d: Datum, host: Host)
    ensures AsNumber(d, host).Some? ==> Counts(d, host, AsNumber(d, host).value)
    ensures forall n: real :: Counts(d, host, n) ==> AsNumber(d, host) == Some(n)
    ensures CountsNothing(d, host) <==> AsNumber(d, host).None?
  {
    if AsNumber(d, host).Some? {
      assert Counts(d, host, AsNumber(d, host).value);
    }
  }

  /** How far the left side is below the right decides the four orderings. */
  predicate Settled(op: Operator, ahead: real) {
    match op
    case Lt => ahead > 0.0
    case Le => ahead >= 0.0
    case Gt => ahead < 0.0
    case Ge => ahead <= 0.0
    case _ => false
  }

  predicate IsOrdering(op: Operator) {
    op == Lt || op == Le || op == Gt || op == Ge
  }

  /** An ordering answers by the difference of the two numbers, and fails closed when a side is no number. */
  lemma OrderingIsNumeric(l: Operand, op: Operator, r: Operand, ctx: Context, a: Datum, b: Datum)
    requires IsOrdering(op) && Resolve(l, ctx) == Ans(a) && Resolve(r, ctx) == Ans(b)
    ensures forall x: real, y: real | Counts(a, ctx.host, x) && Counts(b, ctx.host, y) ::
      Evaluate(Compare(l, op, r), ctx) == Ans(Settled(op, y - x))
    ensures CountsNothing(a, ctx.host) || CountsNothing(b, ctx.host) ==> Evaluate(Compare(l, op, r), ctx) == FailClosed
  {
    CountingIsExact(a, ctx.host);
    CountingIsExact(b, ctx.host);
  }

  /** Two numbers are equal when neither is ahead, whatever they are written as; and `!=` is always the other answer. */
  lemma EqualityIsNumeric(l: Operand, r: Operand, ctx: Context, a: Datum, b: Datum)
    requires Resolve(l, ctx) == Ans(a) && Resolve(r, ctx) == Ans(b)
    ensures forall x: real, y: real | Counts(a, ctx.host, x) && Counts(b, ctx.host, y) ::
      Evaluate(Compare(l, Eq, r), ctx) == Ans(y - x == 0.0)
    ensures Evaluate(Compare(l, Eq, r), ctx).Ans? && Evaluate(Compare(l, Ne, r), ctx).Ans?
    ensures Evaluate(Compare(l, Ne, r), ctx).value == !Evaluate(Compare(l, Eq, r), ctx).value
  {
    CountingIsExact(a, ctx.host);
    CountingIsExact(b, ctx.host);
  }

  /** A truth value equals the number it stands for, and otherwise only like equals like. */
  lemma EqualityByKind(a: Value, b: Value, host: Host)
    requires CountsNothing(Json(a), host) || CountsNothing(Json(b), host)
    ensures var same := Equal(Json(a), Json(b), host);
      && (a.Bool? && b.Num? ==> (same <==> b.n == if a.b then 1.0 else 0.0))
      && (a.Num? && b.Bool? ==> (same <==> a.n == if b.b then 1.0 else 0.0))
      && (a.Bool? && b.Bool? ==> (same <==> a.b == b.b))
      && (a.Str? && b.Str? ==> (same <==> a.s == b.s))
      && (a.Null? && b.Null? ==> same)
      && ((a.Null? && !b.Null?) || (a.Str? && !b.Str?) || (a.List? && !b.List?) || (a.Rec? && !b.Rec?) ==> !same)
  {
    CountingIsExact(Json(a), host);
    CountingIsExact(Json(b), host);
  }

  /** Lists are equal place by place, records key by key. */
  lemma EqualityOfContainers(a: Value, b: Value, host: Host)
    requires (a.List? && b.List?) || (a.Rec? && b.Rec?)
    ensures a.List? ==> (Equal(Json(a), Json(b), host) <==>
      |a.items| == |b.items| && forall i | 0 <= i < |a.items| && i < |b.items| :: PyEq(a.items[i], b.items[i]))
    ensures a.Rec? ==> (Equal(Json(a), Json(b), host) <==>
      a.fields.Keys == b.fields.Keys && forall k | k in a.fields && k in b.fields :: PyEq(a.fields[k], b.fields[k]))
  {
  }

  /** What only a host returns equals only itself. */
  lemma EqualityOfHostValues(a: Datum, b: Datum, host: Host)
    requires !a.Json? || !b.Json?
    ensures Equal(a, b, host) <==> a == b
  {
  }

  /** A pattern is searched in the left side's text, the right side's being the pattern. */
  lemma MatchesSearches(l: Operand, r: Operand, ctx: Context, a: Datum, b: Datum)
    requires Resolve(l, ctx) == Ans(a) && Resolve(r, ctx) == Ans(b)
    ensures var found := ctx.host.search(ctx.host.show(b), ctx.host.show(a));
      Evaluate(Compare(l, Matches, r), ctx) == if found.None? then Raises else Ans(found.value)
  {
  }

  /** An operand that does not resolve decides, the left one first. */
  lemma UnresolvedDecides(l: Operand, op: Operator, r: Operand, negated: bool, ctx: Context)
    ensures Resolve(l, ctx) == FailClosed || (Resolve(l, ctx).Ans? && Resolve(r, ctx) == FailClosed) ==>
      Evaluate(Compare(l, op, r), ctx) == FailClosed && Evaluate(InExpr(l, r, negated), ctx) == FailClosed
    ensures Resolve(l, ctx) == Raises || (Resolve(l, ctx).Ans? && Resolve(r, ctx) == Raises) ==>
      Evaluate(Compare(l, op, r), ctx) == Raises && Evaluate(InExpr(l, r, negated), ctx) == Raises
  {
  }

  ghost predicate FirstUnanswered(args: seq<Operand>, ctx: Context, k: nat) {
    k < |args| && !Resolve(args[k], ctx).Ans? && forall i | 0 <= i < k :: Resolve(args[i], ctx).Ans?
  }

  ghost predicate AllAnswered(args: seq<Operand>, ctx: Context, values: seq<Datum>) {
    |values| == |args| && forall i | 0 <= i < |args| :: Resolve(args[i], ctx) == Ans(values[i])
  }

  /** A call is answered by the host from its arguments' values; the first argument that has none decides instead. */
  lemma CallsAskTheHost(name: string, args: seq<Operand>, ctx: Context, k: nat, values: seq<Datum>)
    ensures FirstUnanswered(args, ctx, k) ==>
      Resolve(Func(name, args), ctx) == if Resolve(args[k], ctx) == Raises then Raises else FailClosed
    ensures AllAnswered(args, ctx, values) ==>
      var said := ctx.host.call(name, values);
      Resolve(Func(name, args), ctx) == if said.Some? then said.value else FailClosed
  {
    if FirstUnanswered(args, ctx, k) {
      FirstUnansweredDecides(args, ctx, k);
    }
    if AllAnswered(args, ctx, values) {
      AnswersAreTaken(args, ctx, values);
    }
  }

  lemma {:induction false} FirstUnansweredDecides(args: seq<Operand>, ctx: Context, k: nat)
    requires FirstUnanswered(args, ctx, k)
    ensures ResolveAll(args, ctx) == if Resolve(args[k], ctx) == Raises then Raises else FailClosed
    decreases |args|
  {
    if k > 0 {
      assert args[1..][k - 1] == args[k] && forall i | 0 <= i < k - 1 :: args[1..][i] == args[i + 1];
      FirstUnansweredDecides(args[1..], ctx, k - 1);
    }
  }

  lemma {:induction false} AnswersAreTaken(args: seq<Operand>, ctx: Context, values: seq<Datum>)
    requires AllAnswered(args, ctx, values)
    ensures ResolveAll(args, ctx) == Ans(values)
    decreases |args|
  {
    if args != [] {
      AnswersAreTaken(args[1..], ctx, values[1..]);
      assert values == [values[0]] + values[1..];
    }
  }

  // ---- connectives --------------------------------------------------------------------------

  /** Truth tables, and where evaluation stops: the right side of a decided `and` or `or` is never looked at. */
  lemma ConnectivesAreBoolean(l: Expr, r: Expr, ctx: Context)
    ensures var x, y := Evaluate(l, ctx), Evaluate(r, ctx);
      && (x.Ans? && y.Ans? ==>
            && Evaluate(And(l, r), ctx) == Ans(x.value && y.value)
            && Evaluate(Or(l, r), ctx) == Ans(x.value || y.value))
      && (x == Ans(false) ==> Evaluate(And(l, r), ctx) == Ans(false))
      && (x == Ans(true) ==> Evaluate(Or(l, r), ctx) == Ans(true))
      && (x == Ans(true) ==> Evaluate(And(l, r), ctx) == y)
      && (x == Ans(false) ==> Evaluate(Or(l, r), ctx) == y)
      && (!x.Ans? ==> Evaluate(And(l, r), ctx) == x && Evaluate(Or(l, r), ctx) == x)
      && (x.Ans? ==> Evaluate(Not(l), ctx) == Ans(!x.value))
      && (!x.Ans? ==> Evaluate(Not(l), ctx) == x)
  {
  }

  // ---- membership -----------------------------------------------------------------------------

  /** In a list at some position, in text as a stretch of it, in a daily interval from its start to its end. */
  ghost predicate Within(item: Datum, collection: Datum, host: Host) {
    match collection
    case Json(List(items)) => exists i :: 0 <= i < |items| && Equal(item, Json(items[i]), host)
    case Json(Str(s)) => exists before: string, after: string :: s == before + host.show(item) + after
    case Range(from, until) =>
      exists minutes :: TimeOf(item, host, minutes)
        && if until < from then !(until < minutes < from) else from <= minutes && minutes <= until
    case _ => false
  }

  ghost predicate TimeOf(item: Datum, host: Host, minutes: int) {
    item == Moment(minutes) || (item.Json? && item.v.Str? && ':' in item.v.s && host.minutes(item.v.s) == Some(minutes))
  }

  predicate IsCollection(d: Datum) {
    d.Range? || (d.Json? && (d.v.List? || d.v.Str?))
  }

  lemma SubstringIsAStretch(part: string, whole: string)
    ensures Substring(part, whole) <==> exists before: string, after: string :: whole == before + part + after
  {
    if i :| 0 <= i <= |whole| && part <= whole[i..] {
      assert whole == whole[..i] + part + whole[i + |part|..];
    }
    if before: string, after: string :| whole == before + part + after {
      assert part <= whole[|before|..];
    }
  }

  lemma TimeIsExact(item: Datum, host: Host, minutes: int)
    ensures TimeOf(item, host, minutes) <==> TimeOfDay(item, host) == Some(minutes)
  {
  }

  /** `in` answers membership, `not in` the opposite, and what is no collection fails closed. */
  lemma MembershipIsPositional(l: Operand, r: Operand, ctx: Context, a: Datum, b: Datum)
    requires Resolve(l, ctx) == Ans(a) && Resolve(r, ctx) == Ans(b)
    ensures IsCollection(b) ==>
      && Evaluate(InExpr(l, r, false), ctx) == Ans(Within(a, b, ctx.host))
      && Evaluate(InExpr(l, r, true), ctx) == Ans(!Within(a, b, ctx.host))
    ensures !IsCollection(b) ==>
      Evaluate(InExpr(l, r, false), ctx) == FailClosed && Evaluate(InExpr(l, r, true), ctx) == FailClosed
  {
    if b.Range? {
      var time := TimeOfDay(a, ctx.host);
      if time.Some? {
        TimeIsExact(a, ctx.host, time.value);
      }
      forall minutes ensures TimeOf(a, ctx.host, minutes) <==> time == Some(minutes) {
        TimeIsExact(a, ctx.host, minutes);
      }
    } else if b.Json? && b.v.Str? {
      SubstringIsAStretch(ctx.host.show(a), b.v.s);
    }
  }

  // ---- operands ---------------------------------------------------------------------------------

  /** Each value on the way is a record that holds the next part. */
  ghost predicate Trail(values: seq<Value>, parts: seq<string>) {
    && |values| == |parts| + 1
    && forall i | 0 <= i < |parts| ::
         values[i].Rec? && parts[i] in values[i].fields && values[i].fields[parts[i]] == values[i + 1]
  }

  ghost predicate Reaches(start: Value, parts: seq<string>, end: Value) {
    exists values :: Trail(values, parts) && values[0] == start && values[|parts|] == end
  }

  lemma {:induction false} DescendsTheTrail(start: Value, parts: seq<string>, values: seq<Value>)
    requires Trail(values, parts) && values[0] == start
    ensures Descend(start, parts) == Some(values[|parts|])
    decreases |parts|
  {
    if parts != [] {
      DescendsTheTrail(values[1], parts[1..], values[1..]);
    }
  }

  lemma {:induction false} DescentHasATrail(start: Value, parts: seq<string>)
    requires Descend(start, parts).Some?
    ensures Reaches(start, parts, Descend(start, parts).value)
    decreases |parts|
  {
    if parts == [] {
      assert Trail([start], parts);
    } else {
      var next := start.fields[parts[0]];
      DescentHasATrail(next, parts[1..]);
      var rest :| Trail(rest, parts[1..]) && rest[0] == next && rest[|parts| - 1] == Descend(next, parts[1..]).value;
      var values := [start] + rest;
      forall i | 0 <= i < |parts|
        ensures values[i].Rec? && parts[i] in values[i].fields && values[i].fields[parts[i]] == values[i + 1]
      {
        if i > 0 { assert values[i] == rest[i - 1] && parts[i] == parts[1..][i - 1]; }
      }
      assert Trail(values, parts) && values[|parts|] == rest[|parts| - 1];
    }
  }

  /** `exists` asks whether the dotted path leads anywhere from its namespace. */
  lemma ExistsFollowsThePath(path: seq<string>, ctx: Context)
    ensures Evaluate(Exists(path), ctx) == Ans(path != [] && path[0] in ctx.namespaces
      && exists v :: Reaches(Rec(ctx.namespaces[path[0]]), path[1..], v))
  {
    if path != [] && path[0] in ctx.namespaces {
      var start := Rec(ctx.namespaces[path[0]]);
      if Descend(start, path[1..]).Some? {
        DescentHasATrail(start, path[1..]);
      }
      forall v | Reaches(start, path[1..], v) ensures Descend(start, path[1..]) == Some(v) {
        var values :| Trail(values, path[1..]) && values[0] == start && values[|path| - 1] == v;
        DescendsTheTrail(start, path[1..], values);
      }
    }
  }

  const FROZEN := {"action", "data", "resource", "actor", "context"}

  /** A single word is itself unless it names a namespace; any other path is followed, and missing it fails closed. */
  lemma PathsAreFollowed(parts: seq<string>, ctx: Context)
    ensures |parts| == 1 && parts[0] !in FROZEN ==> Resolve(Operand.Path(parts), ctx) == Ans(Json(Str(parts[0])))
    ensures !(|parts| == 1 && parts[0] !in FROZEN) ==>
      if parts != [] && parts[0] in ctx.namespaces
      then forall v :: Resolve(Operand.Path(parts), ctx) == Ans(Json(v)) <==> Reaches(Rec(ctx.namespaces[parts[0]]), parts[1..], v)
      else Resolve(Operand.Path(parts), ctx) == FailClosed
    ensures Resolve(Operand.Path(parts), ctx).Ans? || Resolve(Operand.Path(parts), ctx) == FailClosed
  {
    if parts != [] && parts[0] in ctx.namespaces {
      var start := Rec(ctx.namespaces[parts[0]]);
      if Descend(start, parts[1..]).Some? {
        DescentHasATrail(start, parts[1..]);
      }
      forall v | Reaches(start, parts[1..], v) ensures Descend(start, parts[1..]) == Some(v) {
        var values :| Trail(values, parts[1..]) && values[0] == start && values[|parts| - 1] == v;
        DescendsTheTrail(start, parts[1..], values);
      }
    }
  }

  // ---- numbers as they are written -------------------------------------------------------------

  predicate AllDigits(s: string) {
    forall i | 0 <= i < |s| :: '0' <= s[i] <= '9'
  }

  function Figure(c: char): real
    requires '0' <= c <= '9'
  {
    (c as int - '0' as int) as real
  }

  /** What the n-th figure behind the dot counts. */
  function Place(n: nat): real {
    if n == 0 then 1.0 else Place(n - 1) / 10.0
  }

  lemma {:induction false} WholeGrows(s: string, c: char, sofar: real)
    requires AllDigits(s) && '0' <= c <= '9'
    ensures Whole(s + [c], sofar) == 10.0 * Whole(s, sofar) + Figure(c)
    decreases |s|
  {
    if s == "" {
      assert s + [c] == [c];
    } else {
      WholeGrows(s[1..], c, 10.0 * sofar + DigitValue(s[0]));
      assert (s + [c])[1..] == s[1..] + [c];
    }
  }

  lemma {:induction false} WholeStops(s: string, rest: string, sofar: real)
    requires AllDigits(s) && (rest == "" || !IsDigit(rest[0]))
    ensures Whole(s + rest, sofar) == Whole(s, sofar)
    decreases |s|
  {
    if s == "" {
      assert s + rest == rest;
    } else {
      WholeStops(s[1..], rest, 10.0 * sofar + DigitValue(s[0]));
      assert (s + rest)[1..] == s[1..] + rest;
    }
  }

  lemma {:induction false} FractionGrows(s: string, c: char, unit: real)
    requires AllDigits(s) && '0' <= c <= '9'
    ensures Fraction(s + [c], unit) == Fraction(s, unit) + unit * Place(|s|) * Figure(c)
    decreases |s|
  {
    if s == "" {
      assert s + [c] == [c];
      assert Fraction([c][1..], unit / 10.0) == 0.0;
    } else {
      FractionGrows(s[1..], c, unit / 10.0);
      assert (s + [c])[1..] == s[1..] + [c];
      Shifted(unit, Place(|s| - 1), Figure(c));
    }
  }

  lemma Shifted(unit: real, place: real, figure: real)
    ensures unit / 10.0 * place * figure == unit * (place / 10.0) * figure
  {
    var tenth := place / 10.0;
    assert place == 10.0 * tenth;
    assert unit / 10.0 * place == unit * tenth by {
      var u := unit / 10.0;
      assert unit == 10.0 * u;
      assert u * (10.0 * tenth) == 10.0 * u * tenth;
    }
  }

  lemma {:induction false} BehindTheDot(s: string, t: string)
    requires AllDigits(s)
    ensures AfterDot(s + "." + t) == t && AfterDot(s) == ""
    decreases |s|
  {
    if s == "" {
      assert s + "." + t == "." + t && ("." + t)[1..] == t;
    } else {
      BehindTheDot(s[1..], t);
      assert (s + "." + t)[1..] == s[1..] + "." + t;
    }
  }

  /** Figure by figure, what a literal of digits denotes. */
  lemma DecimalOfDigits(s: string, c: char)
    requires AllDigits(s) && '0' <= c <= '9'
    ensures Decimal([c]) == Figure(c)
    ensures s != "" ==> Decimal(s + [c]) == 10.0 * Decimal(s) + Figure(c)
  {
    assert "" + [c] == [c] && [c][0] != '-' && Fraction("", 0.1) == 0.0;
    WholeGrows("", c, 0.0);
    BehindTheDot([c], "");
    if s != "" {
      WholeGrows(s, c, 0.0);
      BehindTheDot(s, "");
      BehindTheDot(s + [c], "");
    }
  }

  /** What follows its dot counts a tenth less each time. */
  lemma DecimalOfFraction(s: string, t: string, c: char)
    requires AllDigits(s) && s != "" && AllDigits(t) && '0' <= c <= '9'
    ensures Decimal(s + ".") == Decimal(s)
    ensures Decimal(s + "." + (t + [c])) == Decimal(s + "." + t) + Place(|t| + 1) * Figure(c)
  {
    OnlyTheDot(s);
    WithDot(s, t);
    WithDot(s, t + [c]);
    TenthsGrow(t, c, 0.1);
  }

  lemma OnlyTheDot(s: string)
    requires AllDigits(s) && s != ""
    ensures Decimal(s + ".") == Decimal(s)
  {
    BehindTheDot(s, "");
    WithDot(s, "");
    assert Fraction("", 0.1) == 0.0 && s + "." + "" == s + ".";
  }

  lemma TenthsGrow(t: string, c: char, unit: real)
    requires AllDigits(t) && '0' <= c <= '9' && unit == 0.1
    ensures Fraction(t + [c], unit) == Fraction(t, unit) + Place(|t| + 1) * Figure(c)
  {
    FractionGrows(t, c, unit);
    Tenths(unit, Place(|t|), Figure(c));
  }

  lemma Tenths(unit: real, place: real, figure: real)
    requires unit == 0.1
    ensures unit * place * figure == place / 10.0 * figure
  {
    assert unit * place == place / 10.0;
  }

  lemma WithDot(s: string, t: string)
    requires AllDigits(s) && s != ""
    ensures Decimal(s + "." + t) == Whole(s, 0.0) + Fraction(t, 0.1)
  {
    BehindTheDot(s, t);
    WholeStops(s, "." + t, 0.0);
    assert s + "." + t == s + ("." + t);
  }

  // ---- from characters to answers -------------------------------------------------------------------

  function Sign(op: Operator): string
    requires op != Matches
  {
    match op
    case Eq => "=="
    case Ne => "!="
    case Lt => "<"
    case Le => "<="
    case Gt => ">"
    case Ge => ">="
  }

  predicate Literal(text: string) {
    IsNumber(text) && Converts(text)
  }

  /** Two literals with a comparison between them are read as that comparison. */
  lemma ComparisonIsRead(a: string, op: Operator, b: string)
    requires op != Matches && Literal(a) && Literal(b)
    ensures Parse(a + " " + Sign(op) + " " + b) == Ok(Compare(NumLit(a), op, NumLit(b)))
  {
    var e := Compare(NumLit(a), op, NumLit(b));
    var ts, gaps := [NumTok(a), OpTok(op), NumTok(b)], ["", " ", " ", ""];
    assert Written(e, 0) == ts;
    RoundTrip.RoundTrip(e, gaps);
    ThreeLaid(NumTok(a), OpTok(op), NumTok(b), " ");
    assert Spelling(OpTok(op)) == Sign(op);
  }

  lemma OneLaid(t: Token, ts: seq<Token>, gap: string, gaps: seq<string>)
    requires |gaps| == |ts| + 1
    ensures Laid([t] + ts, [gap] + gaps) == gap + (Spelling(t) + Laid(ts, gaps))
  {
    assert ([t] + ts)[1..] == ts && ([gap] + gaps)[1..] == gaps;
  }

  lemma Regrouped(x: string, y: string, z: string, gap: string)
    ensures "" + (x + (gap + (y + (gap + (z + ""))))) == x + gap + y + gap + z
  {
  }

  lemma ThreeLaid(x: Token, y: Token, z: Token, gap: string)
    ensures Laid([x, y, z], ["", gap, gap, ""]) == Spelling(x) + gap + Spelling(y) + gap + Spelling(z)
  {
    var none: seq<Token> := [];
    assert [z] + none == [z] && [y] + [z] == [y, z] && [x] + [y, z] == [x, y, z];
    assert [gap] + [""] == [gap, ""] && [gap] + [gap, ""] == [gap, gap, ""] && [""] + [gap, gap, ""] == ["", gap, gap, ""];
    OneLaid(z, none, gap, [""]);
    OneLaid(y, [z], gap, [gap, ""]);
    OneLaid(x, [y, z], "", [gap, gap, ""]);
    Regrouped(Spelling(x), Spelling(y), Spelling(z), gap);
  }

  /** And answered by their numbers, in every request. */
  lemma LiteralsAreCompared(a: string, op: Operator, b: string, ctx: Context)
    requires op != Matches && Literal(a) && Literal(b)
    ensures var e := Parse(a + " " + Sign(op) + " " + b);
      && e.Ok?
      && (IsOrdering(op) ==> Evaluate(e.value, ctx) == Ans(Settled(op, Decimal(b) - Decimal(a))))
      && (op == Eq ==> Evaluate(e.value, ctx) == Ans(Decimal(a) == Decimal(b)))
      && (op == Ne ==> Evaluate(e.value, ctx) == Ans(Decimal(a) != Decimal(b)))
  {
    ComparisonIsRead(a, op, b);
    assert Counts(Json(Num(Decimal(a))), ctx.host, Decimal(a)) && Counts(Json(Num(Decimal(b))), ctx.host, Decimal(b));
  }

  lemma WordIsRead(word: string, t: Token)
    requires GoodToken(t) && Spelling(t) == word
    ensures ScanToken(word) == Ok(Scan(t, |word|))
  {
    ScanSpelling(t, "");
    assert word + "" == word;
  }

  /** The words of the language. */
  lemma WordsAreRead(word: string)
    ensures word == "and" ==> ScanToken(word) == Ok(Scan(Kw(KwAnd), 3))
    ensures word == "or" ==> ScanToken(word) == Ok(Scan(Kw(KwOr), 2))
    ensures word == "not" ==> ScanToken(word) == Ok(Scan(Kw(KwNot), 3))
    ensures word == "in" ==> ScanToken(word) == Ok(Scan(Kw(KwIn), 2))
    ensures word == "exists" ==> ScanToken(word) == Ok(Scan(Kw(KwExists), 6))
    ensures word == "matches" ==> ScanToken(word) == Ok(Scan(Kw(KwMatches), 7))
    ensures word == "true" ==> ScanToken(word) == Ok(Scan(BoolTok(true), 4))
    ensures word == "false" ==> ScanToken(word) == Ok(Scan(BoolTok(false), 5))
  {
    if word == "and" { WordIsRead(word, Kw(KwAnd)); }
    if word == "or" { WordIsRead(word, Kw(KwOr)); }
    if word == "not" { WordIsRead(word, Kw(KwNot)); }
    if word == "in" { WordIsRead(word, Kw(KwIn)); }
    if word == "exists" { WordIsRead(word, Kw(KwExists)); }
    if word == "matches" { WordIsRead(word, Kw(KwMatches)); }
    if word == "true" { WordIsRead(word, BoolTok(true)); }
    if word == "false" { WordIsRead(word, BoolTok(false)); }
  }

  predicate Simple(e: Expr) {
    GoodExpr(e) && (e.Compare? || e.InExpr? || e.Exists?)
  }

  lemma ReadsAs(e: Expr, ts: seq<Token>)
    requires GoodExpr(e) && Written(e, 0) == ts
    ensures ParseTokens(ts) == Ok(e)
  {
    WrittenReadsBack(e, 0, []);
    assert ts + [] == ts;
  }

  lemma SimpleWritten(x: Expr, context: nat)
    requires Simple(x) && context <= 2
    ensures Written(x, context) == Bare(x)
  {
  }

  lemma OrWritten(l: Expr, r: Expr, ls: seq<Token>, rs: seq<Token>)
    requires GoodExpr(l) && GoodExpr(r) && ls == Written(l, 0) && rs == Written(r, 1)
    ensures Written(Or(l, r), 0) == ls + ([Kw(KwOr)] + rs)
    ensures Written(Or(l, r), 1) == [LParen] + (ls + ([Kw(KwOr)] + rs) + [RParen])
  {
  }

  lemma AndWritten(l: Expr, r: Expr, context: nat, ls: seq<Token>, rs: seq<Token>)
    requires GoodExpr(l) && GoodExpr(r) && context <= 1 && ls == Written(l, 1) && rs == Written(r, 2)
    ensures Written(And(l, r), context) == ls + ([Kw(KwAnd)] + rs)
  {
  }

  lemma NotWritten(x: Expr, context: nat, xs: seq<Token>)
    requires GoodExpr(x) && context <= 2 && xs == Written(x, 2)
    ensures Written(Not(x), context) == [Kw(KwNot)] + xs
  {
  }

  /** `and` binds tighter than `or`, on either side of it. */
  lemma AndBindsTighter(x: Expr, y: Expr, z: Expr, xs: seq<Token>, ys: seq<Token>, zs: seq<Token>)
    requires Simple(x) && Simple(y) && Simple(z) && xs == Bare(x) && ys == Bare(y) && zs == Bare(z)
    ensures ParseTokens(xs + ([Kw(KwOr)] + (ys + ([Kw(KwAnd)] + zs)))) == Ok(Or(x, And(y, z)))
    ensures ParseTokens(xs + ([Kw(KwAnd)] + ys) + ([Kw(KwOr)] + zs)) == Ok(Or(And(x, y), z))
  {
    AllWritten(x, y, z);
    AndWritten(y, z, 1, ys, zs);
    OrWritten(x, And(y, z), xs, ys + ([Kw(KwAnd)] + zs));
    ReadsAs(Or(x, And(y, z)), xs + ([Kw(KwOr)] + (ys + ([Kw(KwAnd)] + zs))));
    AndWritten(x, y, 0, xs, ys);
    OrWritten(And(x, y), z, xs + ([Kw(KwAnd)] + ys), zs);
    ReadsAs(Or(And(x, y), z), xs + ([Kw(KwAnd)] + ys) + ([Kw(KwOr)] + zs));
  }

  lemma AllWritten(x: Expr, y: Expr, z: Expr)
    requires Simple(x) && Simple(y) && Simple(z)
    ensures forall context | 0 <= context <= 2 ::
      Written(x, context) == Bare(x) && Written(y, context) == Bare(y) && Written(z, context) == Bare(z)
  {
    forall context | 0 <= context <= 2
      ensures Written(x, context) == Bare(x) && Written(y, context) == Bare(y) && Written(z, context) == Bare(z)
    {
      SimpleWritten(x, context);
      SimpleWritten(y, context);
      SimpleWritten(z, context);
    }
  }

  /** Equals group from the left. */
  lemma EqualsGroupLeft(x: Expr, y: Expr, z: Expr, xs: seq<Token>, ys: seq<Token>, zs: seq<Token>)
    requires Simple(x) && Simple(y) && Simple(z) && xs == Bare(x) && ys == Bare(y) && zs == Bare(z)
    ensures ParseTokens(xs + ([Kw(KwOr)] + ys) + ([Kw(KwOr)] + zs)) == Ok(Or(Or(x, y), z))
    ensures ParseTokens(xs + ([Kw(KwAnd)] + ys) + ([Kw(KwAnd)] + zs)) == Ok(And(And(x, y), z))
  {
    AllWritten(x, y, z);
    OrWritten(x, y, xs, ys);
    OrWritten(Or(x, y), z, xs + ([Kw(KwOr)] + ys), zs);
    ReadsAs(Or(Or(x, y), z), xs + ([Kw(KwOr)] + ys) + ([Kw(KwOr)] + zs));
    AndWritten(x, y, 1, xs, ys);
    AndWritten(And(x, y), z, 0, xs + ([Kw(KwAnd)] + ys), zs);
    ReadsAs(And(And(x, y), z), xs + ([Kw(KwAnd)] + ys) + ([Kw(KwAnd)] + zs));
  }

  /** `not` takes the next condition only, and parentheses take what they enclose. */
  lemma NotAndParentheses(x: Expr, y: Expr, z: Expr, xs: seq<Token>, ys: seq<Token>, zs: seq<Token>)
    requires Simple(x) && Simple(y) && Simple(z) && xs == Bare(x) && ys == Bare(y) && zs == Bare(z)
    ensures ParseTokens([Kw(KwNot)] + xs + ([Kw(KwAnd)] + ys)) == Ok(And(Not(x), y))
    ensures ParseTokens([LParen] + (xs + ([Kw(KwOr)] + ys) + [RParen]) + ([Kw(KwAnd)] + zs)) == Ok(And(Or(x, y), z))
  {
    AllWritten(x, y, z);
    NotWritten(x, 1, xs);
    AndWritten(Not(x), y, 0, [Kw(KwNot)] + xs, ys);
    ReadsAs(And(Not(x), y), [Kw(KwNot)] + xs + ([Kw(KwAnd)] + ys));
    OrWritten(x, y, xs, ys);
    AndWritten(Or(x, y), z, 0, [LParen] + (xs + ([Kw(KwOr)] + ys) + [RParen]), zs);
    ReadsAs(And(Or(x, y), z), [LParen] + (xs + ([Kw(KwOr)] + ys) + [RParen]) + ([Kw(KwAnd)] + zs));
  }

  // ---- a match clause on amounts ------------------------------------------------------------------------

  lemma OneField(namespaces: Namespaces, name: string, field: string)
    requires name in namespaces && field in namespaces[name]
    ensures Lookup(namespaces, [name, field]) == Some(namespaces[name][field])
  {
    assert [name, field][1..] == [field] && [field][1..] == [];
    assert Descend(Rec(namespaces[name]), [field]) == Descend(namespaces[name][field], []);
  }

  /** A declared ordering of a record's field and the intent's holds exactly by the two numbers. */
  lemma ClauseComparesAmounts(src: string, field: string, op: Operator, name: string, ob: Obligation, g: GateContext)
    requires Parse(src) == Ok(Compare(Operand.Path([OBLIGATION, field]), op, Operand.Path(["data", name])))
    requires IsOrdering(op) && field in ob.fields && "data" in g.ctx.namespaces && name in g.ctx.namespaces["data"]
    ensures forall x: real, y: real |
        Counts(Json(ob.fields[field]), g.ctx.host, x) && Counts(Json(g.ctx.namespaces["data"][name]), g.ctx.host, y) ::
      MatchSoundness.DeclaredHolds(Text(src), ob, g) <==> Settled(op, y - x)
  {
    var ctx := Extended(g.ctx, OBLIGATION, ob.fields);
    var l, r := Operand.Path([OBLIGATION, field]), Operand.Path(["data", name]);
    OneField(ctx.namespaces, OBLIGATION, field);
    OneField(ctx.namespaces, "data", name);
    assert Resolve(l, ctx) == Ans(Json(ob.fields[field]));
    assert Resolve(r, ctx) == Ans(Json(g.ctx.namespaces["data"][name]));
    OrderingIsNumeric(l, op, r, ctx, Json(ob.fields[field]), Json(g.ctx.namespaces["data"][name]));
  }
}
