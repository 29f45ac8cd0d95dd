/** The parser looks one token ahead: what it has read does not depend on what it has not reached. */
module Lookahead {
  import opened Syntax
  import opened Parser

  /** What may follow a finished operand or condition without being read as part of it. */
  predicate Closer(t: Token) {
    t == RParen || t == RBrack || t == OpTok(Eq)
  }

  predicate OperandStart(t: Token) {
    t.NumTok? || t.Ident? || t.LBrack?
  }

  /**
   * Two lists with the same first `n` tokens, where the parser stops before what follows in the first only if it
   * stops before what follows in the second.
   */
  ghost predicate Alike(t: seq<Token>, u: seq<Token>, n: nat) {
    && n <= |t| && n < |u|
    && (forall i | 0 <= i < n :: t[i] == u[i])
    && if n == |t| then Closer(u[n]) else t[n] == u[n] || (t[n].NumTok? && OperandStart(u[n]))
  }

  /** What ends within the first `n` tokens of one list ends there in the other. */
  ghost predicate Within<T>(x: Parsed<T>, y: Parsed<T>, t: seq<Token>, u: seq<Token>, n: nat)
    requires n <= |t| && n <= |u|
  {
    x.Read? && |t| - n <= |x.rest| ==>
      && |x.rest| <= |t|
      && x.rest == t[|t| - |x.rest|..] && y == Read(x.value, u[|t| - |x.rest|..])
  }

  lemma Dropped(t: seq<Token>, i: nat, k: nat)
    requires i + k <= |t|
    ensures t[i..][k..] == t[i + k..]
  {
  }

  /** One closing token behind what was read. */
  function Closed<T>(value: T, rest: seq<Token>, close: Token): Parsed<T> {
    if At(rest, close) then Read(value, rest[1..]) else Bad(ConditionError)
  }

  lemma ClosedWithin<T>(value: T, close: Token, t: seq<Token>, u: seq<Token>, n: nat, j: nat)
    requires Alike(t, u, n) && j <= n
    ensures Within(Closed(value, t[j..], close), Closed(value, u[j..], close), t, u, n)
  {
    if j < n {
      Dropped(t, j, 1);
      Dropped(u, j, 1);
    }
  }

  // ---- the parser's functions, one step at a time ----------------------------------------

  lemma OrStarts(ts: seq<Token>, v: Expr, rest: seq<Token>)
    requires ParseAnd(ts) == Read(v, rest)
    ensures ParseOr(ts) == OrLoop(v, rest)
  {
  }

  lemma OrFails(ts: seq<Token>, e: Problem)
    requires ParseAnd(ts) == Bad(e)
    ensures ParseOr(ts) == Bad(e)
  {
  }

  lemma OrLoopStops(left: Expr, ts: seq<Token>)
    requires !At(ts, Kw(KwOr))
    ensures OrLoop(left, ts) == Read(left, ts)
  {
  }

  lemma OrLoopGoes(left: Expr, ts: seq<Token>, v: Expr, rest: seq<Token>)
    requires At(ts, Kw(KwOr)) && ParseAnd(ts[1..]) == Read(v, rest)
    ensures OrLoop(left, ts) == OrLoop(Or(left, v), rest)
  {
  }

  lemma OrLoopFails(left: Expr, ts: seq<Token>, e: Problem)
    requires At(ts, Kw(KwOr)) && ParseAnd(ts[1..]) == Bad(e)
    ensures OrLoop(left, ts) == Bad(e)
  {
  }

  lemma AndStarts(ts: seq<Token>, v: Expr, rest: seq<Token>)
    requires ParseUnary(ts) == Read(v, rest)
    ensures ParseAnd(ts) == AndLoop(v, rest)
  {
  }

  lemma AndFails(ts: seq<Token>, e: Problem)
    requires ParseUnary(ts) == Bad(e)
    ensures ParseAnd(ts) == Bad(e)
  {
  }

  lemma AndLoopStops(left: Expr, ts: seq<Token>)
    requires !At(ts, Kw(KwAnd))
    ensures AndLoop(left, ts) == Read(left, ts)
  {
  }

  lemma AndLoopGoes(left: Expr, ts: seq<Token>, v: Expr, rest: seq<Token>)
    requires At(ts, Kw(KwAnd)) && ParseUnary(ts[1..]) == Read(v, rest)
    ensures AndLoop(left, ts) == AndLoop(And(left, v), rest)
  {
  }

  lemma AndLoopFails(left: Expr, ts: seq<Token>, e: Problem)
    requires At(ts, Kw(KwAnd)) && ParseUnary(ts[1..]) == Bad(e)
    ensures AndLoop(left, ts) == Bad(e)
  {
  }

  lemma NotReads(ts: seq<Token>, v: Expr, rest: seq<Token>)
    requires At(ts, Kw(KwNot)) && ParseUnary(ts[1..]) == Read(v, rest)
    ensures ParseUnary(ts) == Read(Not(v), rest)
  {
  }

  lemma NotFails(ts: seq<Token>, e: Problem)
    requires At(ts, Kw(KwNot)) && ParseUnary(ts[1..]) == Bad(e)
    ensures ParseUnary(ts) == Bad(e)
  {
  }

  lemma GroupReads(ts: seq<Token>, v: Expr, rest: seq<Token>)
    requires At(ts, LParen) && ParseOr(ts[1..]) == Read(v, rest)
    ensures ParseUnary(ts) == Closed(v, rest, RParen)
  {
  }

  lemma GroupFails(ts: seq<Token>, e: Problem)
    requires At(ts, LParen) && ParseOr(ts[1..]) == Bad(e)
    ensures ParseUnary(ts) == Bad(e)
  {
  }

  lemma PlainReads(ts: seq<Token>)
    requires !At(ts, Kw(KwNot)) && !At(ts, LParen)
    ensures ParseUnary(ts) == ParseComparison(ts)
  {
  }

  lemma ExistsReads(ts: seq<Token>, v: seq<string>, rest: seq<Token>)
    requires At(ts, Kw(KwExists)) && ParsePath(ts[1..]) == Read(v, rest)
    ensures ParseComparison(ts) == Read(Exists(v), rest)
  {
  }

  lemma ExistsFails(ts: seq<Token>, e: Problem)
    requires At(ts, Kw(KwExists)) && ParsePath(ts[1..]) == Bad(e)
    ensures ParseComparison(ts) == Bad(e)
  {
  }

  lemma ComparesStarts(ts: seq<Token>, v: Operand, rest: seq<Token>)
    requires ParseOperand(ts) == Read(v, rest) && !At(ts, Kw(KwExists))
    ensures ParseComparison(ts) == ParseRest(v, rest)
  {
  }

  lemma ComparesFails(ts: seq<Token>, e: Problem)
    requires ParseOperand(ts) == Bad(e) && !At(ts, Kw(KwExists))
    ensures ParseComparison(ts) == Bad(e)
  {
  }

  lemma CollectionReads(left: Operand, negated: bool, ts: seq<Token>, v: Operand, rest: seq<Token>)
    requires ParseOperand(ts) == Read(v, rest)
    ensures ParseCollection(left, ts, negated) == Read(InExpr(left, v, negated), rest)
  {
  }

  lemma CollectionFails(left: Operand, negated: bool, ts: seq<Token>, e: Problem)
    requires ParseOperand(ts) == Bad(e)
    ensures ParseCollection(left, ts, negated) == Bad(e)
  {
  }

  lemma RelationReads(left: Operand, ts: seq<Token>, v: Operand, rest: seq<Token>)
    requires ts != [] && (ts[0].OpTok? || ts[0] == Kw(KwMatches)) && ParseOperand(ts[1..]) == Read(v, rest)
    ensures ParseRest(left, ts) == Read(Compare(left, if ts[0].OpTok? then ts[0].op else Matches, v), rest)
  {
  }

  lemma RelationFails(left: Operand, ts: seq<Token>, e: Problem)
    requires ts != [] && (ts[0].OpTok? || ts[0] == Kw(KwMatches)) && ParseOperand(ts[1..]) == Bad(e)
    ensures ParseRest(left, ts) == Bad(e)
  {
  }

  lemma Among(left: Operand, ts: seq<Token>)
    requires At(ts, Kw(KwIn))
    ensures ParseRest(left, ts) == ParseCollection(left, ts[1..], false)
  {
  }

  lemma NotAmong(left: Operand, ts: seq<Token>)
    requires |ts| > 1 && ts[0] == Kw(KwNot) && ts[1] == Kw(KwIn)
    ensures ParseRest(left, ts) == ParseCollection(left, ts[2..], true)
  {
  }

  lemma PathStarts(ts: seq<Token>)
    requires ts != [] && ts[0].Ident?
    ensures ParsePath(ts) == PathLoop([ts[0].name], ts[1..])
  {
  }

  lemma PathGoes(parts: seq<string>, ts: seq<Token>)
    requires |ts| > 1 && ts[0] == Dot && ts[1].Ident?
    ensures PathLoop(parts, ts) == PathLoop(parts + [ts[1].name], ts[2..])
  {
  }

  lemma Lists(ts: seq<Token>)
    requires At(ts, LBrack)
    ensures ParseOperand(ts) == ParseList(ts[1..])
  {
  }

  lemma Calls(ts: seq<Token>)
    requires |ts| > 1 && ts[0].Ident? && ts[1] == LParen
    ensures ParseOperand(ts) == ParseFunc(ts[0].name, ts[2..])
  {
  }

  lemma NameReads(ts: seq<Token>, v: seq<string>, rest: seq<Token>)
    requires ts != [] && ts[0].Ident? && !At(ts[1..], LParen) && PathLoop([ts[0].name], ts[1..]) == Read(v, rest)
    ensures ParseOperand(ts) == Read(Path(v), rest)
  {
  }

  lemma NameFails(ts: seq<Token>, e: Problem)
    requires ts != [] && ts[0].Ident? && !At(ts[1..], LParen) && PathLoop([ts[0].name], ts[1..]) == Bad(e)
    ensures ParseOperand(ts) == Bad(e)
  {
  }

  lemma FuncEmpty(name: string, ts: seq<Token>)
    requires At(ts, RParen)
    ensures ParseFunc(name, ts) == Read(Func(name, []), ts[1..])
  {
  }

  lemma FuncReads(name: string, ts: seq<Token>, v: Operand, left: seq<Token>, all: seq<Operand>, rest: seq<Token>)
    requires !At(ts, RParen) && ParseOperand(ts) == Read(v, left) && ArgsLoop([v], left) == Read(all, rest)
    ensures ParseFunc(name, ts) == Closed(Func(name, all), rest, RParen)
  {
  }

  lemma FuncFails(name: string, ts: seq<Token>, e: Problem)
    requires !At(ts, RParen) && ParseOperand(ts) == Bad(e)
    ensures ParseFunc(name, ts) == Bad(e)
  {
  }

  lemma FuncBreaks(name: string, ts: seq<Token>, v: Operand, left: seq<Token>, e: Problem)
    requires !At(ts, RParen) && ParseOperand(ts) == Read(v, left) && ArgsLoop([v], left) == Bad(e)
    ensures ParseFunc(name, ts) == Bad(e)
  {
  }

  lemma ArgsStops(args: seq<Operand>, ts: seq<Token>)
    requires !At(ts, Comma)
    ensures ArgsLoop(args, ts) == Read(args, ts)
  {
  }

  lemma ArgsGoes(args: seq<Operand>, ts: seq<Token>, v: Operand, rest: seq<Token>)
    requires At(ts, Comma) && ParseOperand(ts[1..]) == Read(v, rest)
    ensures ArgsLoop(args, ts) == ArgsLoop(args + [v], rest)
  {
  }

  lemma ArgsFails(args: seq<Operand>, ts: seq<Token>, e: Problem)
    requires At(ts, Comma) && ParseOperand(ts[1..]) == Bad(e)
    ensures ArgsLoop(args, ts) == Bad(e)
  {
  }

  lemma ListEmpty(ts: seq<Token>)
    requires At(ts, RBrack)
    ensures ParseList(ts) == Read(ListLit([]), ts[1..])
  {
  }

  lemma ListReads(ts: seq<Token>, v: Operand, left: seq<Token>, all: seq<Operand>, rest: seq<Token>)
    requires !At(ts, RBrack) && ParseItem(ts) == Read(v, left) && ItemsLoop([v], left) == Read(all, rest)
    ensures ParseList(ts) == Closed(ListLit(all), rest, RBrack)
  {
  }

  lemma ListFails(ts: seq<Token>, e: Problem)
    requires !At(ts, RBrack) && ParseItem(ts) == Bad(e)
    ensures ParseList(ts) == Bad(e)
  {
  }

  lemma ListBreaks(ts: seq<Token>, v: Operand, left: seq<Token>, e: Problem)
    requires !At(ts, RBrack) && ParseItem(ts) == Read(v, left) && ItemsLoop([v], left) == Bad(e)
    ensures ParseList(ts) == Bad(e)
  {
  }

  lemma ItemsStops(items: seq<Operand>, ts: seq<Token>)
    requires !At(ts, Comma)
    ensures ItemsLoop(items, ts) == Read(items, ts)
  {
  }

  lemma ItemsGoes(items: seq<Operand>, ts: seq<Token>, v: Operand, rest: seq<Token>)
    requires At(ts, Comma) && ParseItem(ts[1..]) == Read(v, rest)
    ensures ItemsLoop(items, ts) == ItemsLoop(items + [v], rest)
  {
  }

  lemma ItemsFails(items: seq<Operand>, ts: seq<Token>, e: Problem)
    requires At(ts, Comma) && ParseItem(ts[1..]) == Bad(e)
    ensures ItemsLoop(items, ts) == Bad(e)
  {
  }

  lemma ItemFails(ts: seq<Token>, e: Problem)
    requires ParseOperand(ts) == Bad(e)
    ensures ParseItem(ts) == Bad(e)
  {
  }

  // ---- every part of the grammar --------------------------------------------------------------

  lemma {:induction false} OrWithin(t: seq<Token>, u: seq<Token>, n: nat, i: nat)
    requires Alike(t, u, n) && i <= n
    ensures Within(ParseOr(t[i..]), ParseOr(u[i..]), t, u, n)
    decreases n - i, 4
  {
    var left := ParseAnd(t[i..]);
    if left.Read? && |t| - n <= |left.rest| {
      AndWithin(t, u, n, i);
      var j := |t| - |left.rest|;
      OrLoopWithin(left.value, t, u, n, j);
      OrJoined(t, u, n, i, left, j);
    } else {
      OrBeyond(t, n, i);
    }
  }

  lemma OrJoined(t: seq<Token>, u: seq<Token>, n: nat, i: nat, left: Parsed<Expr>, j: nat)
    requires i <= n <= |t| && n <= |u| && left == ParseAnd(t[i..])
    requires left.Read? && |t| - n <= |left.rest| <= |t| && j == |t| - |left.rest|
    requires Within(left, ParseAnd(u[i..]), t, u, n)
    ensures ParseOr(t[i..]) == OrLoop(left.value, t[j..]) && ParseOr(u[i..]) == OrLoop(left.value, u[j..])
  {
    OrStarts(t[i..], left.value, t[j..]);
    OrStarts(u[i..], left.value, u[j..]);
  }

  lemma OrBeyond(t: seq<Token>, n: nat, i: nat)
    requires i <= |t| && n <= |t|
    requires ParseAnd(t[i..]).Read? ==> |ParseAnd(t[i..]).rest| < |t| - n
    ensures var x := ParseOr(t[i..]); x.Read? ==> |x.rest| < |t| - n
  {
    var left := ParseAnd(t[i..]);
    if left.Bad? {
      OrFails(t[i..], left.error);
    } else {
      OrStarts(t[i..], left.value, left.rest);
    }
  }

  lemma {:induction false} OrLoopWithin(left: Expr, t: seq<Token>, u: seq<Token>, n: nat, i: nat)
    requires Alike(t, u, n) && i <= n
    ensures Within(OrLoop(left, t[i..]), OrLoop(left, u[i..]), t, u, n)
    decreases n - i, 0
  {
    if !At(t[i..], Kw(KwOr)) {
      OrLoopStops(left, t[i..]);
      OrLoopStops(left, u[i..]);
    } else {
      var next := ParseAnd(t[i + 1..]);
      if next.Read? && |t| - n <= |next.rest| {
        AndWithin(t, u, n, i + 1);
        var j := |t| - |next.rest|;
        OrLoopWithin(Or(left, next.value), t, u, n, j);
        OrLoopJoined(left, t, u, n, i, next, j);
      } else {
        OrLoopBeyond(left, t, n, i);
      }
    }
  }

  lemma OrLoopBeyond(left: Expr, t: seq<Token>, n: nat, i: nat)
    requires i < |t| && n <= |t| && t[i] == Kw(KwOr)
    requires ParseAnd(t[i + 1..]).Read? ==> |ParseAnd(t[i + 1..]).rest| < |t| - n
    ensures var x := OrLoop(left, t[i..]); x.Read? ==> |x.rest| < |t| - n
  {
    Dropped(t, i, 1);
    var next := ParseAnd(t[i + 1..]);
    if next.Bad? {
      OrLoopFails(left, t[i..], next.error);
    } else {
      OrLoopGoes(left, t[i..], next.value, next.rest);
    }
  }

  lemma OrLoopJoined(left: Expr, t: seq<Token>, u: seq<Token>, n: nat, i: nat, next: Parsed<Expr>, j: nat)
    requires n <= |t| && n <= |u| && i < n && t[i] == Kw(KwOr) == u[i] && next == ParseAnd(t[i + 1..])
    requires next.Read? && |t| - n <= |next.rest| <= |t| && j == |t| - |next.rest|
    requires Within(next, ParseAnd(u[i + 1..]), t, u, n)
    ensures OrLoop(left, t[i..]) == OrLoop(Or(left, next.value), t[j..])
    ensures OrLoop(left, u[i..]) == OrLoop(Or(left, next.value), u[j..])
  {
    Dropped(t, i, 1);
    Dropped(u, i, 1);
    OrLoopGoes(left, t[i..], next.value, t[j..]);
    OrLoopGoes(left, u[i..], next.value, u[j..]);
  }

  lemma {:induction false} AndWithin(t: seq<Token>, u: seq<Token>, n: nat, i: nat)
    requires Alike(t, u, n) && i <= n
    ensures Within(ParseAnd(t[i..]), ParseAnd(u[i..]), t, u, n)
    decreases n - i, 3
  {
    var left := ParseUnary(t[i..]);
    if left.Read? && |t| - n <= |left.rest| {
      UnaryWithin(t, u, n, i);
      var j := |t| - |left.rest|;
      AndLoopWithin(left.value, t, u, n, j);
      AndJoined(t, u, n, i, left, j);
    } else {
      AndBeyond(t, n, i);
    }
  }

  lemma AndJoined(t: seq<Token>, u: seq<Token>, n: nat, i: nat, left: Parsed<Expr>, j: nat)
    requires i <= n <= |t| && n <= |u| && left == ParseUnary(t[i..])
    requires left.Read? && |t| - n <= |left.rest| <= |t| && j == |t| - |left.rest|
    requires Within(left, ParseUnary(u[i..]), t, u, n)
    ensures ParseAnd(t[i..]) == AndLoop(left.value, t[j..]) && ParseAnd(u[i..]) == AndLoop(left.value, u[j..])
  {
    AndStarts(t[i..], left.value, t[j..]);
    AndStarts(u[i..], left.value, u[j..]);
  }

  lemma AndBeyond(t: seq<Token>, n: nat, i: nat)
    requires i <= |t| && n <= |t|
    requires ParseUnary(t[i..]).Read? ==> |ParseUnary(t[i..]).rest| < |t| - n
    ensures var x := ParseAnd(t[i..]); x.Read? ==> |x.rest| < |t| - n
  {
    var left := ParseUnary(t[i..]);
    if left.Bad? {
      AndFails(t[i..], left.error);
    } else {
      AndStarts(t[i..], left.value, left.rest);
    }
  }

  lemma {:induction false} AndLoopWithin(left: Expr, t: seq<Token>, u: seq<Token>, n: nat, i: nat)
    requires Alike(t, u, n) && i <= n
    ensures Within(AndLoop(left, t[i..]), AndLoop(left, u[i..]), t, u, n)
    decreases n - i, 0
  {
    if !At(t[i..], Kw(KwAnd)) {
      AndLoopStops(left, t[i..]);
      AndLoopStops(left, u[i..]);
    } else {
      var next := ParseUnary(t[i + 1..]);
      if next.Read? && |t| - n <= |next.rest| {
        UnaryWithin(t, u, n, i + 1);
        var j := |t| - |next.rest|;
        AndLoopWithin(And(left, next.value), t, u, n, j);
        AndLoopJoined(left, t, u, n, i, next, j);
      } else {
        AndLoopBeyond(left, t, n, i);
      }
    }
  }

  lemma AndLoopBeyond(left: Expr, t: seq<Token>, n: nat, i: nat)
    requires i < |t| && n <= |t| && t[i] == Kw(KwAnd)
    requires ParseUnary(t[i + 1..]).Read? ==> |ParseUnary(t[i + 1..]).rest| < |t| - n
    ensures var x := AndLoop(left, t[i..]); x.Read? ==> |x.rest| < |t| - n
  {
    Dropped(t, i, 1);
    var next := ParseUnary(t[i + 1..]);
    if next.Bad? {
      AndLoopFails(left, t[i..], next.error);
    } else {
      AndLoopGoes(left, t[i..], next.value, next.rest);
    }
  }

  lemma AndLoopJoined(left: Expr, t: seq<Token>, u: seq<Token>, n: nat, i: nat, next: Parsed<Expr>, j: nat)
    requires n <= |t| && n <= |u| && i < n && t[i] == Kw(KwAnd) == u[i] && next == ParseUnary(t[i + 1..])
    requires next.Read? && |t| - n <= |next.rest| <= |t| && j == |t| - |next.rest|
    requires Within(next, ParseUnary(u[i + 1..]), t, u, n)
    ensures AndLoop(left, t[i..]) == AndLoop(And(left, next.value), t[j..])
    ensures AndLoop(left, u[i..]) == AndLoop(And(left, next.value), u[j..])
  {
    Dropped(t, i, 1);
    Dropped(u, i, 1);
    AndLoopGoes(left, t[i..], next.value, t[j..]);
    AndLoopGoes(left, u[i..], next.value, u[j..]);
  }

  lemma {:induction false} UnaryWithin(t: seq<Token>, u: seq<Token>, n: nat, i: nat)
    requires Alike(t, u, n) && i <= n
    ensures Within(ParseUnary(t[i..]), ParseUnary(u[i..]), t, u, n)
    decreases n - i, 2
  {
    if At(t[i..], Kw(KwNot)) {
      if i < n { NotWithin(t, u, n, i); }
    } else if At(t[i..], LParen) {
      if i < n { GroupWithin(t, u, n, i); }
    } else {
      ComparisonWithin(t, u, n, i);
      PlainReads(t[i..]);
      PlainReads(u[i..]);
    }
  }

  lemma {:induction false} NotWithin(t: seq<Token>, u: seq<Token>, n: nat, i: nat)
    requires Alike(t, u, n) && i <= n && i < n && t[i] == Kw(KwNot)
    ensures Within(ParseUnary(t[i..]), ParseUnary(u[i..]), t, u, n)
    decreases n - i, 1
  {
    UnaryWithin(t, u, n, i + 1);
    NotFilled(t, u, n, i, ParseUnary(t[i + 1..]));
  }

  lemma NotFilled(t: seq<Token>, u: seq<Token>, n: nat, i: nat, inner: Parsed<Expr>)
    requires Alike(t, u, n) && i < n && t[i] == Kw(KwNot)
    requires inner == ParseUnary(t[i + 1..]) && Within(inner, ParseUnary(u[i + 1..]), t, u, n)
    ensures Within(ParseUnary(t[i..]), ParseUnary(u[i..]), t, u, n)
  {
    if inner.Read? && |t| - n <= |inner.rest| {
      var j := |t| - |inner.rest|;
      NotJoined(t, i, inner.value, j);
      NotJoined(u, i, inner.value, j);
    } else {
      NotBeyond(t, n, i);
    }
  }

  lemma NotJoined(t: seq<Token>, i: nat, v: Expr, j: nat)
    requires i < j <= |t| && t[i] == Kw(KwNot) && ParseUnary(t[i + 1..]) == Read(v, t[j..])
    ensures ParseUnary(t[i..]) == Read(Not(v), t[j..])
  {
    Dropped(t, i, 1);
    NotReads(t[i..], v, t[j..]);
  }

  lemma NotBeyond(t: seq<Token>, n: nat, i: nat)
    requires i < |t| && n <= |t| && t[i] == Kw(KwNot)
    requires ParseUnary(t[i + 1..]).Read? ==> |ParseUnary(t[i + 1..]).rest| < |t| - n
    ensures var x := ParseUnary(t[i..]); x.Read? ==> |x.rest| < |t| - n
  {
    Dropped(t, i, 1);
    var inner := ParseUnary(t[i + 1..]);
    if inner.Bad? {
      NotFails(t[i..], inner.error);
    } else {
      NotReads(t[i..], inner.value, inner.rest);
    }
  }

  lemma {:induction false} GroupWithin(t: seq<Token>, u: seq<Token>, n: nat, i: nat)
    requires Alike(t, u, n) && i <= n && i < n && t[i] == LParen
    ensures Within(ParseUnary(t[i..]), ParseUnary(u[i..]), t, u, n)
    decreases n - i, 1
  {
    OrWithin(t, u, n, i + 1);
    GroupFilled(t, u, n, i, ParseOr(t[i + 1..]));
  }

  lemma GroupFilled(t: seq<Token>, u: seq<Token>, n: nat, i: nat, inner: Parsed<Expr>)
    requires Alike(t, u, n) && i < n && t[i] == LParen
    requires inner == ParseOr(t[i + 1..]) && Within(inner, ParseOr(u[i + 1..]), t, u, n)
    ensures Within(ParseUnary(t[i..]), ParseUnary(u[i..]), t, u, n)
  {
    if inner.Read? && |t| - n <= |inner.rest| {
      var j := |t| - |inner.rest|;
      GroupJoined(t, i, inner.value, j);
      GroupJoined(u, i, inner.value, j);
      ClosedWithin(inner.value, RParen, t, u, n, j);
    } else {
      GroupBeyond(t, n, i);
    }
  }

  lemma GroupJoined(t: seq<Token>, i: nat, v: Expr, j: nat)
    requires i < j <= |t| && t[i] == LParen && ParseOr(t[i + 1..]) == Read(v, t[j..])
    ensures ParseUnary(t[i..]) == Closed(v, t[j..], RParen)
  {
    Dropped(t, i, 1);
    GroupReads(t[i..], v, t[j..]);
  }

  lemma GroupBeyond(t: seq<Token>, n: nat, i: nat)
    requires i < |t| && n <= |t| && t[i] == LParen
    requires ParseOr(t[i + 1..]).Read? ==> |ParseOr(t[i + 1..]).rest| < |t| - n
    ensures var x := ParseUnary(t[i..]); x.Read? ==> |x.rest| < |t| - n
  {
    Dropped(t, i, 1);
    var inner := ParseOr(t[i + 1..]);
    if inner.Bad? {
      GroupFails(t[i..], inner.error);
    } else {
      GroupReads(t[i..], inner.value, inner.rest);
    }
  }

  lemma {:induction false} ComparisonWithin(t: seq<Token>, u: seq<Token>, n: nat, i: nat)
    requires Alike(t, u, n) && i <= n
    ensures Within(ParseComparison(t[i..]), ParseComparison(u[i..]), t, u, n)
    decreases n - i, 1, 1
  {
    if At(t[i..], Kw(KwExists)) {
      if i < n { ExistsWithin(t, u, n, i); }
    } else {
      ComparesWithin(t, u, n, i);
    }
  }

  lemma {:induction false} ExistsWithin(t: seq<Token>, u: seq<Token>, n: nat, i: nat)
    requires Alike(t, u, n) && i <= n && i < n && t[i] == Kw(KwExists)
    ensures Within(ParseComparison(t[i..]), ParseComparison(u[i..]), t, u, n)
    decreases n - i, 0
  {
    NamedPathWithin(t, u, n, i + 1);
    ExistsFilled(t, u, n, i, ParsePath(t[i + 1..]));
  }

  lemma ExistsFilled(t: seq<Token>, u: seq<Token>, n: nat, i: nat, inner: Parsed<seq<string>>)
    requires Alike(t, u, n) && i < n && t[i] == Kw(KwExists)
    requires inner == ParsePath(t[i + 1..]) && Within(inner, ParsePath(u[i + 1..]), t, u, n)
    ensures Within(ParseComparison(t[i..]), ParseComparison(u[i..]), t, u, n)
  {
    if inner.Read? && |t| - n <= |inner.rest| {
      var j := |t| - |inner.rest|;
      ExistsJoined(t, i, inner.value, j);
      ExistsJoined(u, i, inner.value, j);
    } else {
      ExistsBeyond(t, n, i);
    }
  }

  lemma ExistsJoined(t: seq<Token>, i: nat, v: seq<string>, j: nat)
    requires i < j <= |t| && t[i] == Kw(KwExists) && ParsePath(t[i + 1..]) == Read(v, t[j..])
    ensures ParseComparison(t[i..]) == Read(Exists(v), t[j..])
  {
    Dropped(t, i, 1);
    ExistsReads(t[i..], v, t[j..]);
  }

  lemma ExistsBeyond(t: seq<Token>, n: nat, i: nat)
    requires i < |t| && n <= |t| && t[i] == Kw(KwExists)
    requires ParsePath(t[i + 1..]).Read? ==> |ParsePath(t[i + 1..]).rest| < |t| - n
    ensures var x := ParseComparison(t[i..]); x.Read? ==> |x.rest| < |t| - n
  {
    Dropped(t, i, 1);
    var inner := ParsePath(t[i + 1..]);
    if inner.Bad? {
      ExistsFails(t[i..], inner.error);
    } else {
      ExistsReads(t[i..], inner.value, inner.rest);
    }
  }

  lemma {:induction false} ComparesWithin(t: seq<Token>, u: seq<Token>, n: nat, i: nat)
    requires Alike(t, u, n) && i <= n && !At(t[i..], Kw(KwExists))
    ensures Within(ParseComparison(t[i..]), ParseComparison(u[i..]), t, u, n)
    decreases n - i, 1, 0
  {
    var left := ParseOperand(t[i..]);
    if left.Read? && |t| - n <= |left.rest| {
      OperandWithin(t, u, n, i);
      var j := |t| - |left.rest|;
      RestWithin(left.value, t, u, n, j);
      ComparesJoined(t, u, n, i, left, j);
    } else {
      ComparesBeyond(t, n, i);
    }
  }

  lemma ComparesJoined(t: seq<Token>, u: seq<Token>, n: nat, i: nat, left: Parsed<Operand>, j: nat)
    requires i <= n <= |t| && n <= |u| && left == ParseOperand(t[i..]) && !At(t[i..], Kw(KwExists))
    requires !At(u[i..], Kw(KwExists))
    requires left.Read? && |t| - n <= |left.rest| <= |t| && j == |t| - |left.rest|
    requires Within(left, ParseOperand(u[i..]), t, u, n)
    ensures ParseComparison(t[i..]) == ParseRest(left.value, t[j..])
    ensures ParseComparison(u[i..]) == ParseRest(left.value, u[j..])
  {
    ComparesStarts(t[i..], left.value, t[j..]);
    ComparesStarts(u[i..], left.value, u[j..]);
  }

  lemma ComparesBeyond(t: seq<Token>, n: nat, i: nat)
    requires i <= |t| && n <= |t| && !At(t[i..], Kw(KwExists))
    requires ParseOperand(t[i..]).Read? ==> |ParseOperand(t[i..]).rest| < |t| - n
    ensures var x := ParseComparison(t[i..]); x.Read? ==> |x.rest| < |t| - n
  {
    var left := ParseOperand(t[i..]);
    if left.Bad? {
      ComparesFails(t[i..], left.error);
    } else {
      ComparesStarts(t[i..], left.value, left.rest);
    }
  }

  lemma {:induction false} NamedPathWithin(t: seq<Token>, u: seq<Token>, n: nat, i: nat)
    requires Alike(t, u, n) && i <= n
    ensures Within(ParsePath(t[i..]), ParsePath(u[i..]), t, u, n)
    decreases n - i, 1
  {
    if i < n && t[i].Ident? {
      Dropped(t, i, 1);
      Dropped(u, i, 1);
      PathStarts(t[i..]);
      PathStarts(u[i..]);
      PathWithin([t[i].name], t, u, n, i + 1);
    }
  }

  lemma {:induction false} CollectionWithin(left: Operand, negated: bool, t: seq<Token>, u: seq<Token>, n: nat, i: nat)
    requires Alike(t, u, n) && i <= n
    ensures Within(ParseCollection(left, t[i..], negated), ParseCollection(left, u[i..], negated), t, u, n)
    decreases n - i, 1
  {
    OperandWithin(t, u, n, i);
    var right := ParseOperand(t[i..]);
    if right.Bad? {
      CollectionFails(left, negated, t[i..], right.error);
    } else {
      CollectionReads(left, negated, t[i..], right.value, right.rest);
      if |t| - n <= |right.rest| {
        CollectionReads(left, negated, u[i..], right.value, u[|t| - |right.rest|..]);
      }
    }
  }

  lemma {:induction false} RelationWithin(left: Operand, t: seq<Token>, u: seq<Token>, n: nat, i: nat)
    requires Alike(t, u, n) && i <= n && i < n && (t[i].OpTok? || t[i] == Kw(KwMatches))
    ensures Within(ParseRest(left, t[i..]), ParseRest(left, u[i..]), t, u, n)
    decreases n - i, 0
  {
    OperandWithin(t, u, n, i + 1);
    RelationFilled(left, t, u, n, i, ParseOperand(t[i + 1..]));
  }

  lemma RelationFilled(left: Operand, t: seq<Token>, u: seq<Token>, n: nat, i: nat, inner: Parsed<Operand>)
    requires Alike(t, u, n) && i < n && (t[i].OpTok? || t[i] == Kw(KwMatches))
    requires inner == ParseOperand(t[i + 1..]) && Within(inner, ParseOperand(u[i + 1..]), t, u, n)
    ensures Within(ParseRest(left, t[i..]), ParseRest(left, u[i..]), t, u, n)
  {
    if inner.Read? && |t| - n <= |inner.rest| {
      var j := |t| - |inner.rest|;
      RelationJoined(left, t, i, inner.value, j);
      RelationJoined(left, u, i, inner.value, j);
    } else {
      RelationBeyond(left, t, n, i);
    }
  }

  lemma RelationJoined(left: Operand, t: seq<Token>, i: nat, v: Operand, j: nat)
    requires i < j <= |t| && (t[i].OpTok? || t[i] == Kw(KwMatches)) && ParseOperand(t[i + 1..]) == Read(v, t[j..])
    ensures ParseRest(left, t[i..]) == Read(Compare(left, if t[i].OpTok? then t[i].op else Matches, v), t[j..])
  {
    Dropped(t, i, 1);
    RelationReads(left, t[i..], v, t[j..]);
  }

  lemma RelationBeyond(left: Operand, t: seq<Token>, n: nat, i: nat)
    requires i < |t| && n <= |t| && (t[i].OpTok? || t[i] == Kw(KwMatches))
    requires ParseOperand(t[i + 1..]).Read? ==> |ParseOperand(t[i + 1..]).rest| < |t| - n
    ensures var x := ParseRest(left, t[i..]); x.Read? ==> |x.rest| < |t| - n
  {
    Dropped(t, i, 1);
    var inner := ParseOperand(t[i + 1..]);
    if inner.Bad? {
      RelationFails(left, t[i..], inner.error);
    } else {
      RelationReads(left, t[i..], inner.value, inner.rest);
    }
  }

  lemma {:induction false} RestWithin(left: Operand, t: seq<Token>, u: seq<Token>, n: nat, i: nat)
    requires Alike(t, u, n) && i <= n
    ensures Within(ParseRest(left, t[i..]), ParseRest(left, u[i..]), t, u, n)
    decreases n - i, 2
  {
    if i < n {
      if t[i] == Kw(KwIn) {
        Dropped(t, i, 1);
        Dropped(u, i, 1);
        CollectionWithin(left, false, t, u, n, i + 1);
        Among(left, t[i..]);
        Among(left, u[i..]);
      } else if t[i] == Kw(KwNot) {
        if i + 1 < n && t[i + 1] == Kw(KwIn) {
          Dropped(t, i, 2);
          Dropped(u, i, 2);
          CollectionWithin(left, true, t, u, n, i + 2);
          NotAmong(left, t[i..]);
          NotAmong(left, u[i..]);
        }
      } else if t[i].OpTok? || t[i] == Kw(KwMatches) {
        RelationWithin(left, t, u, n, i);
      }
    }
  }

  lemma {:induction false} PathWithin(parts: seq<string>, t: seq<Token>, u: seq<Token>, n: nat, i: nat)
    requires Alike(t, u, n) && i <= n
    ensures Within(PathLoop(parts, t[i..]), PathLoop(parts, u[i..]), t, u, n)
    decreases n - i, 0
  {
    if i + 1 < n && t[i] == Dot && t[i + 1].Ident? {
      Dropped(t, i, 2);
      Dropped(u, i, 2);
      PathGoes(parts, t[i..]);
      PathGoes(parts, u[i..]);
      PathWithin(parts + [t[i + 1].name], t, u, n, i + 2);
    }
  }

  lemma {:induction false} OperandWithin(t: seq<Token>, u: seq<Token>, n: nat, i: nat)
    requires Alike(t, u, n) && i <= n
    ensures Within(ParseOperand(t[i..]), ParseOperand(u[i..]), t, u, n)
    decreases n - i, 0, 1
  {
    if i < n {
      match t[i]
      case LBrack =>
        Dropped(t, i, 1);
        Dropped(u, i, 1);
        ListWithin(t, u, n, i + 1);
        Lists(t[i..]);
        Lists(u[i..]);
      case Ident(name) => NamedWithin(name, t, u, n, i);
      case _ =>
    }
  }

  lemma {:induction false} NamedWithin(name: string, t: seq<Token>, u: seq<Token>, n: nat, i: nat)
    requires Alike(t, u, n) && i <= n && i < n && t[i] == Ident(name)
    ensures Within(ParseOperand(t[i..]), ParseOperand(u[i..]), t, u, n)
    decreases n - i, 0, 0
  {
    if At(t[i + 1..], LParen) {
      if i + 1 < n {
        Dropped(t, i, 1);
        Dropped(t, i, 2);
        Dropped(u, i, 1);
        Dropped(u, i, 2);
        FuncWithin(name, t, u, n, i + 2);
        Calls(t[i..]);
        Calls(u[i..]);
      }
    } else {
      PathWithin([name], t, u, n, i + 1);
      NameFilled(t, u, n, i, PathLoop([name], t[i + 1..]));
    }
  }

  lemma NameJoined(t: seq<Token>, i: nat, v: seq<string>, j: nat)
    requires i < j <= |t| && t[i].Ident? && !At(t[i + 1..], LParen)
    requires PathLoop([t[i].name], t[i + 1..]) == Read(v, t[j..])
    ensures ParseOperand(t[i..]) == Read(Path(v), t[j..])
  {
    Dropped(t, i, 1);
    NameReads(t[i..], v, t[j..]);
  }

  lemma NameFilled(t: seq<Token>, u: seq<Token>, n: nat, i: nat, path: Parsed<seq<string>>)
    requires Alike(t, u, n) && i < n && t[i].Ident? && !At(t[i + 1..], LParen)
    requires path == PathLoop([t[i].name], t[i + 1..]) && Within(path, PathLoop([t[i].name], u[i + 1..]), t, u, n)
    ensures Within(ParseOperand(t[i..]), ParseOperand(u[i..]), t, u, n)
  {
    if path.Read? && |t| - n <= |path.rest| {
      var j := |t| - |path.rest|;
      NameJoined(t, i, path.value, j);
      NameJoined(u, i, path.value, j);
    } else {
      NameBeyond(t, n, i);
    }
  }

  lemma NameBeyond(t: seq<Token>, n: nat, i: nat)
    requires i < |t| && n <= |t| && t[i].Ident? && !At(t[i + 1..], LParen)
    requires var path := PathLoop([t[i].name], t[i + 1..]); path.Read? ==> |path.rest| < |t| - n
    ensures var x := ParseOperand(t[i..]); x.Read? ==> |x.rest| < |t| - n
  {
    Dropped(t, i, 1);
    var path := PathLoop([t[i].name], t[i + 1..]);
    if path.Bad? {
      NameFails(t[i..], path.error);
    } else {
      NameReads(t[i..], path.value, path.rest);
    }
  }

  lemma {:induction false} FuncWithin(name: string, t: seq<Token>, u: seq<Token>, n: nat, i: nat)
    requires Alike(t, u, n) && i <= n
    ensures Within(ParseFunc(name, t[i..]), ParseFunc(name, u[i..]), t, u, n)
    decreases n - i, 2
  {
    if At(t[i..], RParen) {
      FuncEmpty(name, t[i..]);
      if i < n {
        Dropped(t, i, 1);
        Dropped(u, i, 1);
        FuncEmpty(name, u[i..]);
      }
    } else {
      var first := ParseOperand(t[i..]);
      if first.Bad? || |first.rest| < |t| - n {
        FuncBeyond(name, t, n, i, first);
      } else {
        OperandWithin(t, u, n, i);
        var j := |t| - |first.rest|;
        ArgsWithin([first.value], t, u, n, j);
        FuncFilled(name, t, u, n, i, first, j);
      }
    }
  }

  lemma FuncBeyond(name: string, t: seq<Token>, n: nat, i: nat, first: Parsed<Operand>)
    requires i <= |t| && n <= |t| && !At(t[i..], RParen) && first == ParseOperand(t[i..])
    requires first.Read? ==> var all := ArgsLoop([first.value], first.rest); all.Bad? || |all.rest| < |t| - n
    ensures var x := ParseFunc(name, t[i..]); x.Read? ==> |x.rest| < |t| - n
  {
    if first.Bad? {
      FuncFails(name, t[i..], first.error);
    } else {
      var all := ArgsLoop([first.value], first.rest);
      if all.Bad? {
        FuncBreaks(name, t[i..], first.value, first.rest, all.error);
      } else {
        FuncReads(name, t[i..], first.value, first.rest, all.value, all.rest);
      }
    }
  }

  lemma FuncFilled(name: string, t: seq<Token>, u: seq<Token>, n: nat, i: nat, first: Parsed<Operand>, j: nat)
    requires Alike(t, u, n) && i <= n && !At(t[i..], RParen) && (i < n ==> !At(u[i..], RParen))
    requires first == ParseOperand(t[i..])
    requires first.Read? && |t| - n <= |first.rest| <= |t| && j == |t| - |first.rest| && i < j
    requires Within(first, ParseOperand(u[i..]), t, u, n)
    requires Within(ArgsLoop([first.value], t[j..]), ArgsLoop([first.value], u[j..]), t, u, n)
    ensures Within(ParseFunc(name, t[i..]), ParseFunc(name, u[i..]), t, u, n)
  {
    var all := ArgsLoop([first.value], t[j..]);
    if all.Read? && |t| - n <= |all.rest| {
      FuncFinished(name, t, u, n, i, first.value, j, all);
    } else {
      FuncBeyond(name, t, n, i, first);
    }
  }

  lemma FuncFinished(name: string, t: seq<Token>, u: seq<Token>, n: nat, i: nat, v: Operand, j: nat,
                     all: Parsed<seq<Operand>>)
    requires Alike(t, u, n) && i < j <= n && !At(t[i..], RParen) && !At(u[i..], RParen)
    requires ParseOperand(t[i..]) == Read(v, t[j..]) && ParseOperand(u[i..]) == Read(v, u[j..])
    requires all == ArgsLoop([v], t[j..]) && all.Read? && |t| - n <= |all.rest|
    requires Within(all, ArgsLoop([v], u[j..]), t, u, n)
    ensures Within(ParseFunc(name, t[i..]), ParseFunc(name, u[i..]), t, u, n)
  {
    var m := |t| - |all.rest|;
    FuncJoined(name, t, i, v, j, all.value, m);
    FuncJoined(name, u, i, v, j, all.value, m);
    ClosedWithin(Func(name, all.value), RParen, t, u, n, m);
  }

  lemma FuncJoined(name: string, t: seq<Token>, i: nat, v: Operand, j: nat, all: seq<Operand>, m: nat)
    requires i <= j <= m <= |t| && !At(t[i..], RParen)
    requires ParseOperand(t[i..]) == Read(v, t[j..]) && ArgsLoop([v], t[j..]) == Read(all, t[m..])
    ensures ParseFunc(name, t[i..]) == Closed(Func(name, all), t[m..], RParen)
  {
    FuncReads(name, t[i..], v, t[j..], all, t[m..]);
  }

  lemma {:induction false} ArgsWithin(args: seq<Operand>, t: seq<Token>, u: seq<Token>, n: nat, i: nat)
    requires Alike(t, u, n) && i <= n
    ensures Within(ArgsLoop(args, t[i..]), ArgsLoop(args, u[i..]), t, u, n)
    decreases n - i, 0
  {
    if !At(t[i..], Comma) {
      ArgsStops(args, t[i..]);
      ArgsStops(args, u[i..]);
    } else {
      var next := ParseOperand(t[i + 1..]);
      if next.Read? && |t| - n <= |next.rest| {
        OperandWithin(t, u, n, i + 1);
        var j := |t| - |next.rest|;
        ArgsWithin(args + [next.value], t, u, n, j);
        ArgsJoined(args, t, u, n, i, next, j);
      } else {
        ArgsBeyond(args, t, n, i);
      }
    }
  }

  lemma ArgsBeyond(args: seq<Operand>, t: seq<Token>, n: nat, i: nat)
    requires i < |t| && n <= |t| && t[i] == Comma
    requires ParseOperand(t[i + 1..]).Read? ==> |ParseOperand(t[i + 1..]).rest| < |t| - n
    ensures var x := ArgsLoop(args, t[i..]); x.Read? ==> |x.rest| < |t| - n
  {
    Dropped(t, i, 1);
    var next := ParseOperand(t[i + 1..]);
    if next.Bad? {
      ArgsFails(args, t[i..], next.error);
    } else {
      ArgsGoes(args, t[i..], next.value, next.rest);
    }
  }

  lemma ArgsJoined(args: seq<Operand>, t: seq<Token>, u: seq<Token>, n: nat, i: nat, next: Parsed<Operand>, j: nat)
    requires n <= |t| && n <= |u| && i < n && t[i] == Comma == u[i] && next == ParseOperand(t[i + 1..])
    requires next.Read? && |t| - n <= |next.rest| <= |t| && j == |t| - |next.rest|
    requires Within(next, ParseOperand(u[i + 1..]), t, u, n)
    ensures ArgsLoop(args, t[i..]) == ArgsLoop(args + [next.value], t[j..])
    ensures ArgsLoop(args, u[i..]) == ArgsLoop(args + [next.value], u[j..])
  {
    Dropped(t, i, 1);
    Dropped(u, i, 1);
    ArgsGoes(args, t[i..], next.value, t[j..]);
    ArgsGoes(args, u[i..], next.value, u[j..]);
  }

  lemma {:induction false} ListWithin(t: seq<Token>, u: seq<Token>, n: nat, i: nat)
    requires Alike(t, u, n) && i <= n
    ensures Within(ParseList(t[i..]), ParseList(u[i..]), t, u, n)
    decreases n - i, 2
  {
    if At(t[i..], RBrack) {
      ListEmpty(t[i..]);
      if i < n {
        Dropped(t, i, 1);
        Dropped(u, i, 1);
        ListEmpty(u[i..]);
      }
    } else {
      var first := ParseItem(t[i..]);
      if first.Bad? || |first.rest| < |t| - n {
        ListBeyond(t, n, i, first);
      } else {
        ItemWithin(t, u, n, i);
        var j := |t| - |first.rest|;
        ItemsWithin([first.value], t, u, n, j);
        ListFilled(t, u, n, i, first, j);
      }
    }
  }

  lemma ListBeyond(t: seq<Token>, n: nat, i: nat, first: Parsed<Operand>)
    requires i <= |t| && n <= |t| && !At(t[i..], RBrack) && first == ParseItem(t[i..])
    requires first.Read? ==> var all := ItemsLoop([first.value], first.rest); all.Bad? || |all.rest| < |t| - n
    ensures var x := ParseList(t[i..]); x.Read? ==> |x.rest| < |t| - n
  {
    if first.Bad? {
      ListFails(t[i..], first.error);
    } else {
      var all := ItemsLoop([first.value], first.rest);
      if all.Bad? {
        ListBreaks(t[i..], first.value, first.rest, all.error);
      } else {
        ListReads(t[i..], first.value, first.rest, all.value, all.rest);
      }
    }
  }

  lemma ListFilled(t: seq<Token>, u: seq<Token>, n: nat, i: nat, first: Parsed<Operand>, j: nat)
    requires Alike(t, u, n) && i <= n && !At(t[i..], RBrack) && (i < n ==> !At(u[i..], RBrack))
    requires first == ParseItem(t[i..])
    requires first.Read? && |t| - n <= |first.rest| <= |t| && j == |t| - |first.rest| && i < j
    requires Within(first, ParseItem(u[i..]), t, u, n)
    requires Within(ItemsLoop([first.value], t[j..]), ItemsLoop([first.value], u[j..]), t, u, n)
    ensures Within(ParseList(t[i..]), ParseList(u[i..]), t, u, n)
  {
    var all := ItemsLoop([first.value], t[j..]);
    if all.Read? && |t| - n <= |all.rest| {
      ListFinished(t, u, n, i, first.value, j, all);
    } else {
      ListBeyond(t, n, i, first);
    }
  }

  lemma ListFinished(t: seq<Token>, u: seq<Token>, n: nat, i: nat, v: Operand, j: nat, all: Parsed<seq<Operand>>)
    requires Alike(t, u, n) && i < j <= n && !At(t[i..], RBrack) && !At(u[i..], RBrack)
    requires ParseItem(t[i..]) == Read(v, t[j..]) && ParseItem(u[i..]) == Read(v, u[j..])
    requires all == ItemsLoop([v], t[j..]) && all.Read? && |t| - n <= |all.rest|
    requires Within(all, ItemsLoop([v], u[j..]), t, u, n)
    ensures Within(ParseList(t[i..]), ParseList(u[i..]), t, u, n)
  {
    var m := |t| - |all.rest|;
    ListJoined(t, i, v, j, all.value, m);
    ListJoined(u, i, v, j, all.value, m);
    ClosedWithin(ListLit(all.value), RBrack, t, u, n, m);
  }

  lemma ListJoined(t: seq<Token>, i: nat, v: Operand, j: nat, all: seq<Operand>, m: nat)
    requires i <= j <= m <= |t| && !At(t[i..], RBrack)
    requires ParseItem(t[i..]) == Read(v, t[j..]) && ItemsLoop([v], t[j..]) == Read(all, t[m..])
    ensures ParseList(t[i..]) == Closed(ListLit(all), t[m..], RBrack)
  {
    ListReads(t[i..], v, t[j..], all, t[m..]);
  }

  lemma {:induction false} ItemsWithin(items: seq<Operand>, t: seq<Token>, u: seq<Token>, n: nat, i: nat)
    requires Alike(t, u, n) && i <= n
    ensures Within(ItemsLoop(items, t[i..]), ItemsLoop(items, u[i..]), t, u, n)
    decreases n - i, 0
  {
    if !At(t[i..], Comma) {
      ItemsStops(items, t[i..]);
      ItemsStops(items, u[i..]);
    } else {
      var next := ParseItem(t[i + 1..]);
      if next.Read? && |t| - n <= |next.rest| {
        ItemWithin(t, u, n, i + 1);
        var j := |t| - |next.rest|;
        ItemsWithin(items + [next.value], t, u, n, j);
        ItemsJoined(items, t, u, n, i, next, j);
      } else {
        ItemsBeyond(items, t, n, i);
      }
    }
  }

  lemma ItemsBeyond(items: seq<Operand>, t: seq<Token>, n: nat, i: nat)
    requires i < |t| && n <= |t| && t[i] == Comma
    requires ParseItem(t[i + 1..]).Read? ==> |ParseItem(t[i + 1..]).rest| < |t| - n
    ensures var x := ItemsLoop(items, t[i..]); x.Read? ==> |x.rest| < |t| - n
  {
    Dropped(t, i, 1);
    var next := ParseItem(t[i + 1..]);
    if next.Bad? {
      ItemsFails(items, t[i..], next.error);
    } else {
      ItemsGoes(items, t[i..], next.value, next.rest);
    }
  }

  lemma ItemsJoined(items: seq<Operand>, t: seq<Token>, u: seq<Token>, n: nat, i: nat, next: Parsed<Operand>, j: nat)
    requires n <= |t| && n <= |u| && i < n && t[i] == Comma == u[i] && next == ParseItem(t[i + 1..])
    requires next.Read? && |t| - n <= |next.rest| <= |t| && j == |t| - |next.rest|
    requires Within(next, ParseItem(u[i + 1..]), t, u, n)
    ensures ItemsLoop(items, t[i..]) == ItemsLoop(items + [next.value], t[j..])
    ensures ItemsLoop(items, u[i..]) == ItemsLoop(items + [next.value], u[j..])
  {
    Dropped(t, i, 1);
    Dropped(u, i, 1);
    ItemsGoes(items, t[i..], next.value, t[j..]);
    ItemsGoes(items, u[i..], next.value, u[j..]);
  }

  lemma {:induction false} ItemWithin(t: seq<Token>, u: seq<Token>, n: nat, i: nat)
    requires Alike(t, u, n) && i <= n
    ensures Within(ParseItem(t[i..]), ParseItem(u[i..]), t, u, n)
    decreases n - i, 1, 0
  {
    OperandWithin(t, u, n, i);
  }
}
