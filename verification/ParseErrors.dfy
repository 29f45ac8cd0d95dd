/** Which texts make the parser raise the conversion error its callers do not expect. */
module ParseErrors {
  import opened Syntax
  import opened Tokenizer
  import opened Parser
  import opened Lookahead

  /** A number token that does not convert: it has two dots, or too many digits and no dot. */
  predicate Fault(t: Token) {
    t.NumTok? && !Converts(t.text)
  }

  const ZERO := NumTok("0")

  // ---- what reads a number raises where an operand there raises ------------------------------

  /** Lists with the same first `n` tokens: then `u` has a number, and `t` an operand that raises. */
  ghost predicate Marked(t: seq<Token>, u: seq<Token>, n: nat) {
    && n < |t| && n < |u|
    && (forall i | 0 <= i < n :: u[i] == t[i])
    && u[n] == ZERO && OperandStart(t[n]) && ParseOperand(t[n..]) == Bad(BadNumber)
  }

  /** It was read, and further than the first `n` tokens. */
  ghost predicate Passes<T>(x: Parsed<T>, u: seq<Token>, n: nat) {
    x.Read? && |x.rest| + n < |u|
  }

  lemma {:induction false} OrRaises(t: seq<Token>, u: seq<Token>, n: nat, i: nat)
    requires Marked(t, u, n) && i <= n && Passes(ParseOr(u[i..]), u, n)
    ensures ParseOr(t[i..]) == Bad(BadNumber)
    decreases n - i, 4
  {
    var left := ParseAnd(u[i..]);
    if Passes(left, u, n) {
      AndRaises(t, u, n, i);
      OrFails(t[i..], BadNumber);
    } else if left.Read? {
      AndWithin(u, t, n, i);
      var j := |u| - |left.rest|;
      OrJoined(u, t, n, i, left, j);
      OrLoopRaises(left.value, t, u, n, j);
    }
  }

  lemma {:induction false} OrLoopRaises(left: Expr, t: seq<Token>, u: seq<Token>, n: nat, i: nat)
    requires Marked(t, u, n) && i <= n && Passes(OrLoop(left, u[i..]), u, n)
    ensures OrLoop(left, t[i..]) == Bad(BadNumber)
    decreases n - i, 0
  {
    if i < n && u[i] == Kw(KwOr) {
      var next := ParseAnd(u[i + 1..]);
      if Passes(next, u, n) {
        AndRaises(t, u, n, i + 1);
        OrLoopFailsAt(left, t, i, BadNumber);
      } else {
        OrLoopReads(left, u, i);
        AndWithin(u, t, n, i + 1);
        var j := |u| - |next.rest|;
        OrLoopJoined(left, u, t, n, i, next, j);
        OrLoopRaises(Or(left, next.value), t, u, n, j);
      }
    }
  }

  lemma OrLoopFailsAt(left: Expr, t: seq<Token>, i: nat, e: Problem)
    requires i < |t| && t[i] == Kw(KwOr) && ParseAnd(t[i + 1..]) == Bad(e)
    ensures OrLoop(left, t[i..]) == Bad(e)
  {
    Dropped(t, i, 1);
    OrLoopFails(left, t[i..], e);
  }

  lemma OrLoopReads(left: Expr, u: seq<Token>, i: nat)
    requires i < |u| && u[i] == Kw(KwOr) && OrLoop(left, u[i..]).Read?
    ensures ParseAnd(u[i + 1..]).Read?
  {
    Dropped(u, i, 1);
  }

  lemma {:induction false} AndRaises(t: seq<Token>, u: seq<Token>, n: nat, i: nat)
    requires Marked(t, u, n) && i <= n && Passes(ParseAnd(u[i..]), u, n)
    ensures ParseAnd(t[i..]) == Bad(BadNumber)
    decreases n - i, 3
  {
    var left := ParseUnary(u[i..]);
    if Passes(left, u, n) {
      UnaryRaises(t, u, n, i);
      AndFails(t[i..], BadNumber);
    } else if left.Read? {
      UnaryWithin(u, t, n, i);
      var j := |u| - |left.rest|;
      AndJoined(u, t, n, i, left, j);
      AndLoopRaises(left.value, t, u, n, j);
    }
  }

  lemma {:induction false} AndLoopRaises(left: Expr, t: seq<Token>, u: seq<Token>, n: nat, i: nat)
    requires Marked(t, u, n) && i <= n && Passes(AndLoop(left, u[i..]), u, n)
    ensures AndLoop(left, t[i..]) == Bad(BadNumber)
    decreases n - i, 0
  {
    if i < n && u[i] == Kw(KwAnd) {
      var next := ParseUnary(u[i + 1..]);
      if Passes(next, u, n) {
        UnaryRaises(t, u, n, i + 1);
        AndLoopFailsAt(left, t, i, BadNumber);
      } else {
        AndLoopReads(left, u, i);
        UnaryWithin(u, t, n, i + 1);
        var j := |u| - |next.rest|;
        AndLoopJoined(left, u, t, n, i, next, j);
        AndLoopRaises(And(left, next.value), t, u, n, j);
      }
    }
  }

  lemma AndLoopFailsAt(left: Expr, t: seq<Token>, i: nat, e: Problem)
    requires i < |t| && t[i] == Kw(KwAnd) && ParseUnary(t[i + 1..]) == Bad(e)
    ensures AndLoop(left, t[i..]) == Bad(e)
  {
    Dropped(t, i, 1);
    AndLoopFails(left, t[i..], e);
  }

  lemma AndLoopReads(left: Expr, u: seq<Token>, i: nat)
    requires i < |u| && u[i] == Kw(KwAnd) && AndLoop(left, u[i..]).Read?
    ensures ParseUnary(u[i + 1..]).Read?
  {
    Dropped(u, i, 1);
  }

  lemma {:induction false} UnaryRaises(t: seq<Token>, u: seq<Token>, n: nat, i: nat)
    requires Marked(t, u, n) && i <= n && Passes(ParseUnary(u[i..]), u, n)
    ensures ParseUnary(t[i..]) == Bad(BadNumber)
    decreases n - i, 2
  {
    if At(u[i..], Kw(KwNot)) {
      NotRaises(t, u, n, i);
    } else if At(u[i..], LParen) {
      GroupRaises(t, u, n, i);
    } else {
      PlainReads(u[i..]);
      PlainReads(t[i..]);
      ComparisonRaises(t, u, n, i);
    }
  }

  lemma {:induction false} NotRaises(t: seq<Token>, u: seq<Token>, n: nat, i: nat)
    requires Marked(t, u, n) && i <= n && Passes(ParseUnary(u[i..]), u, n) && i < n && u[i] == Kw(KwNot)
    ensures ParseUnary(t[i..]) == Bad(BadNumber)
    decreases n - i, 1
  {
    Dropped(t, i, 1);
    Dropped(u, i, 1);
    var inner := ParseUnary(u[i + 1..]);
    if inner.Read? {
      NotReads(u[i..], inner.value, inner.rest);
      UnaryRaises(t, u, n, i + 1);
      NotFails(t[i..], BadNumber);
    }
  }

  lemma {:induction false} GroupRaises(t: seq<Token>, u: seq<Token>, n: nat, i: nat)
    requires Marked(t, u, n) && i <= n && Passes(ParseUnary(u[i..]), u, n) && i < n && u[i] == LParen
    ensures ParseUnary(t[i..]) == Bad(BadNumber)
    decreases n - i, 1
  {
    Dropped(t, i, 1);
    Dropped(u, i, 1);
    var inner := ParseOr(u[i + 1..]);
    if inner.Read? {
      GroupReads(u[i..], inner.value, inner.rest);
      OrWithin(u, t, n, i + 1);
      OrRaises(t, u, n, i + 1);
      GroupFails(t[i..], BadNumber);
    }
  }

  lemma {:induction false} ComparisonRaises(t: seq<Token>, u: seq<Token>, n: nat, i: nat)
    requires Marked(t, u, n) && i <= n && Passes(ParseComparison(u[i..]), u, n)
    ensures ParseComparison(t[i..]) == Bad(BadNumber)
    decreases n - i, 1, 1
  {
    if At(u[i..], Kw(KwExists)) {
      ExistsStays(t, u, n, i);
    } else {
      ComparesRaises(t, u, n, i);
    }
  }

  lemma {:induction false} PathStays(parts: seq<string>, t: seq<Token>, u: seq<Token>, n: nat, i: nat)
    requires Marked(t, u, n) && i <= n
    ensures !Passes(PathLoop(parts, u[i..]), u, n)
    decreases n - i
  {
    if i + 1 < n && u[i] == Dot && u[i + 1].Ident? {
      Dropped(u, i, 2);
      PathGoes(parts, u[i..]);
      PathStays(parts + [u[i + 1].name], t, u, n, i + 2);
    }
  }

  lemma ExistsStays(t: seq<Token>, u: seq<Token>, n: nat, i: nat)
    requires Marked(t, u, n) && i < n && u[i] == Kw(KwExists)
    ensures !Passes(ParseComparison(u[i..]), u, n)
  {
    Dropped(u, i, 1);
    var path := ParsePath(u[i + 1..]);
    if path.Bad? {
      ExistsFails(u[i..], path.error);
    } else {
      ExistsReads(u[i..], path.value, path.rest);
      if i + 1 < n && u[i + 1].Ident? {
        Dropped(u, i + 1, 1);
        PathStarts(u[i + 1..]);
        PathStays([u[i + 1].name], t, u, n, i + 2);
      }
    }
  }

  lemma NameStays(t: seq<Token>, u: seq<Token>, n: nat, i: nat)
    requires Marked(t, u, n) && i < n && u[i].Ident? && u[i + 1] != LParen
    ensures !Passes(ParseOperand(u[i..]), u, n)
  {
    Dropped(u, i, 1);
    var path := PathLoop([u[i].name], u[i + 1..]);
    PathStays([u[i].name], t, u, n, i + 1);
    if path.Bad? {
      NameFails(u[i..], path.error);
    } else {
      NameReads(u[i..], path.value, path.rest);
    }
  }

  lemma {:induction false} ComparesRaises(t: seq<Token>, u: seq<Token>, n: nat, i: nat)
    requires Marked(t, u, n) && i <= n && Passes(ParseComparison(u[i..]), u, n) && !At(u[i..], Kw(KwExists))
    ensures ParseComparison(t[i..]) == Bad(BadNumber)
    decreases n - i, 1, 0
  {
    var left := ParseOperand(u[i..]);
    if Passes(left, u, n) {
      OperandRaises(t, u, n, i);
      ComparesFails(t[i..], BadNumber);
    } else if left.Read? {
      OperandWithin(u, t, n, i);
      var j := |u| - |left.rest|;
      ComparesJoined(u, t, n, i, left, j);
      RestRaises(left.value, t, u, n, j);
    }
  }

  lemma {:induction false} CollectionRaises(left: Operand, negated: bool, t: seq<Token>, u: seq<Token>, n: nat, i: nat)
    requires Marked(t, u, n) && i <= n && Passes(ParseCollection(left, u[i..], negated), u, n)
    ensures ParseCollection(left, t[i..], negated) == Bad(BadNumber)
    decreases n - i, 1
  {
    var right := ParseOperand(u[i..]);
    if right.Read? {
      CollectionReads(left, negated, u[i..], right.value, right.rest);
      OperandRaises(t, u, n, i);
      CollectionFails(left, negated, t[i..], BadNumber);
    }
  }

  lemma {:induction false} RelationRaises(left: Operand, t: seq<Token>, u: seq<Token>, n: nat, i: nat)
    requires Marked(t, u, n) && i <= n && Passes(ParseRest(left, u[i..]), u, n) && i < n
    requires (u[i].OpTok? || u[i] == Kw(KwMatches))
    ensures ParseRest(left, t[i..]) == Bad(BadNumber)
    decreases n - i, 0
  {
    Dropped(t, i, 1);
    Dropped(u, i, 1);
    var inner := ParseOperand(u[i + 1..]);
    if inner.Read? {
      RelationReads(left, u[i..], inner.value, inner.rest);
      OperandRaises(t, u, n, i + 1);
      RelationFails(left, t[i..], BadNumber);
    }
  }

  lemma {:induction false} RestRaises(left: Operand, t: seq<Token>, u: seq<Token>, n: nat, i: nat)
    requires Marked(t, u, n) && i <= n && Passes(ParseRest(left, u[i..]), u, n)
    ensures ParseRest(left, t[i..]) == Bad(BadNumber)
    decreases n - i, 2
  {
    if u[i] == Kw(KwIn) {
      Dropped(t, i, 1);
      Dropped(u, i, 1);
      Among(left, t[i..]);
      Among(left, u[i..]);
      CollectionRaises(left, false, t, u, n, i + 1);
    } else if u[i] == Kw(KwNot) {
      if i + 1 < n && u[i + 1] == Kw(KwIn) {
        Dropped(t, i, 2);
        Dropped(u, i, 2);
        NotAmong(left, t[i..]);
        NotAmong(left, u[i..]);
        CollectionRaises(left, true, t, u, n, i + 2);
      }
    } else if u[i].OpTok? || u[i] == Kw(KwMatches) {
      RelationRaises(left, t, u, n, i);
    }
  }

  lemma {:induction false} OperandRaises(t: seq<Token>, u: seq<Token>, n: nat, i: nat)
    requires Marked(t, u, n) && i <= n && Passes(ParseOperand(u[i..]), u, n)
    ensures ParseOperand(t[i..]) == Bad(BadNumber)
    decreases n - i, 0, 0
  {
    if i < n {
      match u[i]
      case LBrack =>
        Dropped(t, i, 1);
        Dropped(u, i, 1);
        Lists(t[i..]);
        Lists(u[i..]);
        ListRaises(t, u, n, i + 1);
      case Ident(name) =>
        if u[i + 1] == LParen {
          Dropped(t, i, 2);
          Dropped(u, i, 2);
          Calls(t[i..]);
          Calls(u[i..]);
          FuncRaises(name, t, u, n, i + 2);
        } else {
          NameStays(t, u, n, i);
        }
      case _ =>
    }
  }

  lemma {:induction false} FuncRaises(name: string, t: seq<Token>, u: seq<Token>, n: nat, i: nat)
    requires Marked(t, u, n) && i <= n && Passes(ParseFunc(name, u[i..]), u, n)
    ensures ParseFunc(name, t[i..]) == Bad(BadNumber)
    decreases n - i, 2
  {
    if !At(u[i..], RParen) {
      var first := ParseOperand(u[i..]);
      if Passes(first, u, n) {
        OperandRaises(t, u, n, i);
        FuncFails(name, t[i..], BadNumber);
      } else if first.Read? {
        OperandWithin(u, t, n, i);
        var j := |u| - |first.rest|;
        FuncBehind(name, t, u, n, i, first.value, j);
      }
    }
  }

  lemma {:induction false} FuncBehind(name: string, t: seq<Token>, u: seq<Token>, n: nat, i: nat, v: Operand, j: nat)
    requires Marked(t, u, n) && i < j <= n && !At(u[i..], RParen) && !At(t[i..], RParen)
    requires ParseOperand(u[i..]) == Read(v, u[j..]) && ParseOperand(t[i..]) == Read(v, t[j..])
    requires Passes(ParseFunc(name, u[i..]), u, n)
    ensures ParseFunc(name, t[i..]) == Bad(BadNumber)
    decreases n - i, 0
  {
    var all := ArgsLoop([v], u[j..]);
    if all.Read? {
      FuncReads(name, u[i..], v, u[j..], all.value, all.rest);
      ArgsWithin([v], u, t, n, j);
      ArgsRaises([v], t, u, n, j);
      FuncBreaks(name, t[i..], v, t[j..], BadNumber);
    }
  }

  lemma {:induction false} ArgsRaises(args: seq<Operand>, t: seq<Token>, u: seq<Token>, n: nat, i: nat)
    requires Marked(t, u, n) && i <= n && Passes(ArgsLoop(args, u[i..]), u, n)
    ensures ArgsLoop(args, t[i..]) == Bad(BadNumber)
    decreases n - i, 0
  {
    if At(u[i..], Comma) {
      Dropped(t, i, 1);
      Dropped(u, i, 1);
      var next := ParseOperand(u[i + 1..]);
      if Passes(next, u, n) {
        OperandRaises(t, u, n, i + 1);
        ArgsFails(args, t[i..], BadNumber);
      } else if next.Read? {
        OperandWithin(u, t, n, i + 1);
        var j := |u| - |next.rest|;
        ArgsJoined(args, u, t, n, i, next, j);
        ArgsRaises(args + [next.value], t, u, n, j);
      }
    }
  }

  lemma {:induction false} ListRaises(t: seq<Token>, u: seq<Token>, n: nat, i: nat)
    requires Marked(t, u, n) && i <= n && Passes(ParseList(u[i..]), u, n)
    ensures ParseList(t[i..]) == Bad(BadNumber)
    decreases n - i, 2
  {
    if !At(u[i..], RBrack) {
      var first := ParseItem(u[i..]);
      if Passes(first, u, n) {
        ItemRaises(t, u, n, i);
        ListFails(t[i..], BadNumber);
      } else if first.Read? {
        ItemWithin(u, t, n, i);
        var j := |u| - |first.rest|;
        ListBehind(t, u, n, i, first.value, j);
      }
    }
  }

  lemma {:induction false} ListBehind(t: seq<Token>, u: seq<Token>, n: nat, i: nat, v: Operand, j: nat)
    requires Marked(t, u, n) && i < j <= n && !At(u[i..], RBrack) && !At(t[i..], RBrack)
    requires ParseItem(u[i..]) == Read(v, u[j..]) && ParseItem(t[i..]) == Read(v, t[j..])
    requires Passes(ParseList(u[i..]), u, n)
    ensures ParseList(t[i..]) == Bad(BadNumber)
    decreases n - i, 0
  {
    var all := ItemsLoop([v], u[j..]);
    if all.Read? {
      ListReads(u[i..], v, u[j..], all.value, all.rest);
      ItemsWithin([v], u, t, n, j);
      ItemsRaises([v], t, u, n, j);
      ListBreaks(t[i..], v, t[j..], BadNumber);
    }
  }

  lemma {:induction false} ItemsRaises(items: seq<Operand>, t: seq<Token>, u: seq<Token>, n: nat, i: nat)
    requires Marked(t, u, n) && i <= n && Passes(ItemsLoop(items, u[i..]), u, n)
    ensures ItemsLoop(items, t[i..]) == Bad(BadNumber)
    decreases n - i, 0
  {
    if At(u[i..], Comma) {
      Dropped(t, i, 1);
      Dropped(u, i, 1);
      var next := ParseItem(u[i + 1..]);
      if Passes(next, u, n) {
        ItemRaises(t, u, n, i + 1);
        ItemsFails(items, t[i..], BadNumber);
      } else if next.Read? {
        ItemWithin(u, t, n, i + 1);
        var j := |u| - |next.rest|;
        ItemsJoined(items, u, t, n, i, next, j);
        ItemsRaises(items + [next.value], t, u, n, j);
      }
    }
  }

  lemma {:induction false} ItemRaises(t: seq<Token>, u: seq<Token>, n: nat, i: nat)
    requires Marked(t, u, n) && i <= n && Passes(ParseItem(u[i..]), u, n)
    ensures ParseItem(t[i..]) == Bad(BadNumber)
    decreases n - i, 1, 0
  {
    OperandRaises(t, u, n, i);
    ItemFails(t[i..], BadNumber);
  }

  // ---- completing what was read before the fault --------------------------------------------

  lemma ZeroReads()
    ensures ParseOperand([ZERO]) == Read(NumLit("0"), []) && ParseItem([ZERO]) == Read(NumLit("0"), [])
  {
    assert "0"[1..] == "" && Dots("") == 0;
  }

  /** The first `n` tokens, a number, and what else it takes. */
  function Patched(t: seq<Token>, n: nat, tail: seq<Token>): (u: seq<Token>)
    requires n <= |t|
    ensures |u| == n + 1 + |tail| && u[n] == ZERO && u[n + 1..] == tail && forall i | 0 <= i < n :: u[i] == t[i]
  {
    t[..n] + [ZERO] + tail
  }

  lemma PatchedFrom(t: seq<Token>, i: nat, n: nat, tail: seq<Token>)
    requires i <= n <= |t|
    ensures Patched(t, n, tail)[i..] == Patched(t[i..n], n - i, tail)
  {
  }

  lemma Sliced(t: seq<Token>, n: nat, m: nat, k: nat)
    requires n <= m <= k <= |t|
    ensures t[n..k][..m - n] == t[n..m] && t[n..k][m - n..] == t[m..k]
  {
  }

  ghost predicate Finished<T>(x: Parsed<T>) {
    x.Read? && x.rest == []
  }

  /** These tokens begin an operand, up to a place where a number may stand. */
  ghost predicate OpensOperand(p: seq<Token>) {
    exists tail :: Finished(ParseOperand(Patched(p, |p|, tail)))
  }

  /** These tokens begin a condition, up to a place where a number may stand. */
  ghost predicate OpensCondition(p: seq<Token>) {
    exists tail :: Finished(ParseOr(Patched(p, |p|, tail)))
  }

  /** A cut of the tokens into pieces that each open an operand. */
  ghost predicate OpensOperands(p: seq<Token>)
    decreases |p|
  {
    exists n :: 0 < n <= |p| && OpensOperand(p[..n]) && (n == |p| || OpensOperands(p[n..]))
  }

  /** A faulty number at `k`, with operands opened one in another between `n` and there. */
  ghost predicate Found(t: seq<Token>, i: nat, k: nat, n: nat) {
    i <= n <= k < |t| && Fault(t[k]) && (n == k || OpensOperands(t[n..k]))
  }

  lemma OrExtends(t: seq<Token>, n: nat, tail: seq<Token>, more: seq<Token>, i: nat)
    requires i <= n <= |t| && more != [] && Closer(more[0]) && Finished(ParseOr(Patched(t, n, tail)[i..]))
    ensures ParseOr(Patched(t, n, tail + more)[i..]) == Read(ParseOr(Patched(t, n, tail)[i..]).value, more)
  {
    var u, w := Patched(t, n, tail), Patched(t, n, tail + more);
    assert w == u + more;
    OrWithin(u, w, |u|, i);
    assert w[|u|..] == more;
  }

  lemma AndSuffix(t: seq<Token>, i: nat)
    requires i <= |t| && ParseAnd(t[i..]).Read?
    ensures var rest := ParseAnd(t[i..]).rest; |rest| <= |t| && rest == t[|t| - |rest|..]
  {
    AndWithin(t, t + [RParen], |t|, i);
  }

  lemma AndKept(t: seq<Token>, u: seq<Token>, i: nat, j: nat)
    requires i <= j < |t| && j < |u| && (forall m | 0 <= m <= j :: t[m] == u[m])
    requires ParseAnd(t[i..]).Read? && ParseAnd(t[i..]).rest == t[j..]
    ensures ParseAnd(u[i..]) == Read(ParseAnd(t[i..]).value, u[j..])
  {
    AndWithin(t, u, j, i);
  }

  lemma UnarySuffix(t: seq<Token>, i: nat)
    requires i <= |t| && ParseUnary(t[i..]).Read?
    ensures var rest := ParseUnary(t[i..]).rest; |rest| <= |t| && rest == t[|t| - |rest|..]
  {
    UnaryWithin(t, t + [RParen], |t|, i);
  }

  lemma UnaryKept(t: seq<Token>, u: seq<Token>, i: nat, j: nat)
    requires i <= j < |t| && j < |u| && (forall m | 0 <= m <= j :: t[m] == u[m])
    requires ParseUnary(t[i..]).Read? && ParseUnary(t[i..]).rest == t[j..]
    ensures ParseUnary(u[i..]) == Read(ParseUnary(t[i..]).value, u[j..])
  {
    UnaryWithin(t, u, j, i);
  }

  lemma OperandExtends(t: seq<Token>, n: nat, tail: seq<Token>, more: seq<Token>, i: nat)
    requires i <= n <= |t| && more != [] && Closer(more[0]) && Finished(ParseOperand(Patched(t, n, tail)[i..]))
    ensures ParseOperand(Patched(t, n, tail + more)[i..]) == Read(ParseOperand(Patched(t, n, tail)[i..]).value, more)
  {
    var u, w := Patched(t, n, tail), Patched(t, n, tail + more);
    assert w == u + more;
    OperandWithin(u, w, |u|, i);
    assert w[|u|..] == more;
  }

  lemma OperandSuffix(t: seq<Token>, i: nat)
    requires i <= |t| && ParseOperand(t[i..]).Read?
    ensures var rest := ParseOperand(t[i..]).rest; |rest| <= |t| && rest == t[|t| - |rest|..]
  {
    OperandWithin(t, t + [RParen], |t|, i);
  }

  lemma OperandKept(t: seq<Token>, u: seq<Token>, i: nat, j: nat)
    requires i <= j < |t| && j < |u| && (forall m | 0 <= m <= j :: t[m] == u[m])
    requires ParseOperand(t[i..]).Read? && ParseOperand(t[i..]).rest == t[j..]
    ensures ParseOperand(u[i..]) == Read(ParseOperand(t[i..]).value, u[j..])
  {
    OperandWithin(t, u, j, i);
  }

  lemma ItemExtends(t: seq<Token>, n: nat, tail: seq<Token>, more: seq<Token>, i: nat)
    requires i <= n <= |t| && more != [] && Closer(more[0]) && Finished(ParseItem(Patched(t, n, tail)[i..]))
    ensures ParseItem(Patched(t, n, tail + more)[i..]) == Read(ParseItem(Patched(t, n, tail)[i..]).value, more)
  {
    var u, w := Patched(t, n, tail), Patched(t, n, tail + more);
    assert w == u + more;
    ItemWithin(u, w, |u|, i);
    assert w[|u|..] == more;
  }

  lemma ItemSuffix(t: seq<Token>, i: nat)
    requires i <= |t| && ParseItem(t[i..]).Read?
    ensures var rest := ParseItem(t[i..]).rest; |rest| <= |t| && rest == t[|t| - |rest|..]
  {
    ItemWithin(t, t + [RParen], |t|, i);
  }

  lemma ItemKept(t: seq<Token>, u: seq<Token>, i: nat, j: nat)
    requires i <= j < |t| && j < |u| && (forall m | 0 <= m <= j :: t[m] == u[m])
    requires ParseItem(t[i..]).Read? && ParseItem(t[i..]).rest == t[j..]
    ensures ParseItem(u[i..]) == Read(ParseItem(t[i..]).value, u[j..])
  {
    ItemWithin(t, u, j, i);
  }

  lemma ArgsExtends(args: seq<Operand>, t: seq<Token>, n: nat, tail: seq<Token>, more: seq<Token>, i: nat)
    requires i <= n <= |t| && more != [] && Closer(more[0]) && Finished(ArgsLoop(args, Patched(t, n, tail)[i..]))
    ensures ArgsLoop(args, Patched(t, n, tail + more)[i..]) ==
            Read(ArgsLoop(args, Patched(t, n, tail)[i..]).value, more)
  {
    var u, w := Patched(t, n, tail), Patched(t, n, tail + more);
    assert w == u + more;
    ArgsWithin(args, u, w, |u|, i);
    assert w[|u|..] == more;
  }

  lemma ItemsExtends(items: seq<Operand>, t: seq<Token>, n: nat, tail: seq<Token>, more: seq<Token>, i: nat)
    requires i <= n <= |t| && more != [] && Closer(more[0]) && Finished(ItemsLoop(items, Patched(t, n, tail)[i..]))
    ensures ItemsLoop(items, Patched(t, n, tail + more)[i..]) ==
            Read(ItemsLoop(items, Patched(t, n, tail)[i..]).value, more)
  {
    var u, w := Patched(t, n, tail), Patched(t, n, tail + more);
    assert w == u + more;
    ItemsWithin(items, u, w, |u|, i);
    assert w[|u|..] == more;
  }

  lemma {:induction false} OrCompletes(t: seq<Token>, i: nat) returns (k: nat, n: nat, tail: seq<Token>)
    requires i <= |t| && ParseOr(t[i..]) == Bad(BadNumber)
    ensures Found(t, i, k, n) && Finished(ParseOr(Patched(t, n, tail)[i..]))
    decreases |t| - i, 4
  {
    var left := ParseAnd(t[i..]);
    if left.Bad? {
      OrFails(t[i..], left.error);
      k, n, tail := AndCompletes(t, i);
      var u := Patched(t, n, tail);
      var v := ParseAnd(u[i..]).value;
      OrStarts(u[i..], v, []);
      OrLoopStops(v, []);
    } else {
      AndSuffix(t, i);
      var j := |t| - |left.rest|;
      OrStarts(t[i..], left.value, t[j..]);
      k, n, tail := OrLoopCompletes(left.value, t, j);
      var u := Patched(t, n, tail);
      AndKept(t, u, i, j);
      OrStarts(u[i..], left.value, u[j..]);
    }
  }

  lemma {:induction false} OrLoopCompletes(left: Expr, t: seq<Token>, i: nat) returns (k: nat, n: nat, tail: seq<Token>)
    requires i <= |t| && OrLoop(left, t[i..]) == Bad(BadNumber)
    ensures Found(t, i, k, n) && n > i && Finished(OrLoop(left, Patched(t, n, tail)[i..]))
    decreases |t| - i, 0, 2
  {
    if At(t[i..], Kw(KwOr)) {
      if ParseAnd(t[i + 1..]).Bad? {
        k, n, tail := OrLoopInside(left, t, i);
      } else {
        k, n, tail := OrLoopLater(left, t, i, ParseAnd(t[i + 1..]));
      }
    }
  }

  lemma {:induction false} OrLoopInside(left: Expr, t: seq<Token>, i: nat) returns (k: nat, n: nat, tail: seq<Token>)
    requires i <= |t| && OrLoop(left, t[i..]) == Bad(BadNumber) && i < |t| && t[i] == Kw(KwOr)
    requires ParseAnd(t[i + 1..]).Bad?
    ensures Found(t, i, k, n) && n > i && Finished(OrLoop(left, Patched(t, n, tail)[i..]))
    decreases |t| - i, 0, 1
  {
    Dropped(t, i, 1);
    OrLoopFails(left, t[i..], ParseAnd(t[i + 1..]).error);
    k, n, tail := AndCompletes(t, i + 1);
    var u := Patched(t, n, tail);
    Dropped(u, i, 1);
    var v := ParseAnd(u[i + 1..]).value;
    OrLoopGoes(left, u[i..], v, []);
    OrLoopStops(Or(left, v), []);
  }

  lemma {:induction false} OrLoopLater(left: Expr, t: seq<Token>, i: nat, next: Parsed<Expr>)
    returns (k: nat, n: nat, tail: seq<Token>)
    requires i < |t| && t[i] == Kw(KwOr) && next == ParseAnd(t[i + 1..]) && next.Read?
    requires OrLoop(left, t[i..]) == Bad(BadNumber)
    ensures Found(t, i, k, n) && n > i && Finished(OrLoop(left, Patched(t, n, tail)[i..]))
    decreases |t| - i, 0, 0
  {
    AndSuffix(t, i + 1);
    var j := |t| - |next.rest|;
    OrLoopOn(left, t, i, next.value, j);
    k, n, tail := OrLoopCompletes(Or(left, next.value), t, j);
    var u := Patched(t, n, tail);
    AndKept(t, u, i + 1, j);
    OrLoopOn(left, u, i, next.value, j);
  }

  lemma OrLoopOn(left: Expr, t: seq<Token>, i: nat, v: Expr, j: nat)
    requires i < j <= |t| && t[i] == Kw(KwOr) && ParseAnd(t[i + 1..]) == Read(v, t[j..])
    ensures OrLoop(left, t[i..]) == OrLoop(Or(left, v), t[j..])
  {
    Dropped(t, i, 1);
    OrLoopGoes(left, t[i..], v, t[j..]);
  }

  lemma {:induction false} AndCompletes(t: seq<Token>, i: nat) returns (k: nat, n: nat, tail: seq<Token>)
    requires i <= |t| && ParseAnd(t[i..]) == Bad(BadNumber)
    ensures Found(t, i, k, n) && Finished(ParseAnd(Patched(t, n, tail)[i..]))
    decreases |t| - i, 3
  {
    var left := ParseUnary(t[i..]);
    if left.Bad? {
      AndFails(t[i..], left.error);
      k, n, tail := UnaryCompletes(t, i);
      var u := Patched(t, n, tail);
      var v := ParseUnary(u[i..]).value;
      AndStarts(u[i..], v, []);
      AndLoopStops(v, []);
    } else {
      UnarySuffix(t, i);
      var j := |t| - |left.rest|;
      AndStarts(t[i..], left.value, t[j..]);
      k, n, tail := AndLoopCompletes(left.value, t, j);
      var u := Patched(t, n, tail);
      UnaryKept(t, u, i, j);
      AndStarts(u[i..], left.value, u[j..]);
    }
  }

  lemma {:induction false} AndLoopCompletes(left: Expr, t: seq<Token>, i: nat)
    returns (k: nat, n: nat, tail: seq<Token>)
    requires i <= |t| && AndLoop(left, t[i..]) == Bad(BadNumber)
    ensures Found(t, i, k, n) && n > i && Finished(AndLoop(left, Patched(t, n, tail)[i..]))
    decreases |t| - i, 0, 2
  {
    if At(t[i..], Kw(KwAnd)) {
      if ParseUnary(t[i + 1..]).Bad? {
        k, n, tail := AndLoopInside(left, t, i);
      } else {
        k, n, tail := AndLoopLater(left, t, i, ParseUnary(t[i + 1..]));
      }
    }
  }

  lemma {:induction false} AndLoopInside(left: Expr, t: seq<Token>, i: nat) returns (k: nat, n: nat, tail: seq<Token>)
    requires i <= |t| && AndLoop(left, t[i..]) == Bad(BadNumber) && i < |t| && t[i] == Kw(KwAnd)
    requires ParseUnary(t[i + 1..]).Bad?
    ensures Found(t, i, k, n) && n > i && Finished(AndLoop(left, Patched(t, n, tail)[i..]))
    decreases |t| - i, 0, 1
  {
    Dropped(t, i, 1);
    AndLoopFails(left, t[i..], ParseUnary(t[i + 1..]).error);
    k, n, tail := UnaryCompletes(t, i + 1);
    var u := Patched(t, n, tail);
    Dropped(u, i, 1);
    var v := ParseUnary(u[i + 1..]).value;
    AndLoopGoes(left, u[i..], v, []);
    AndLoopStops(And(left, v), []);
  }

  lemma {:induction false} AndLoopLater(left: Expr, t: seq<Token>, i: nat, next: Parsed<Expr>)
    returns (k: nat, n: nat, tail: seq<Token>)
    requires i < |t| && t[i] == Kw(KwAnd) && next == ParseUnary(t[i + 1..]) && next.Read?
    requires AndLoop(left, t[i..]) == Bad(BadNumber)
    ensures Found(t, i, k, n) && n > i && Finished(AndLoop(left, Patched(t, n, tail)[i..]))
    decreases |t| - i, 0, 0
  {
    UnarySuffix(t, i + 1);
    var j := |t| - |next.rest|;
    AndLoopOn(left, t, i, next.value, j);
    k, n, tail := AndLoopCompletes(And(left, next.value), t, j);
    var u := Patched(t, n, tail);
    UnaryKept(t, u, i + 1, j);
    AndLoopOn(left, u, i, next.value, j);
  }

  lemma AndLoopOn(left: Expr, t: seq<Token>, i: nat, v: Expr, j: nat)
    requires i < j <= |t| && t[i] == Kw(KwAnd) && ParseUnary(t[i + 1..]) == Read(v, t[j..])
    ensures AndLoop(left, t[i..]) == AndLoop(And(left, v), t[j..])
  {
    Dropped(t, i, 1);
    AndLoopGoes(left, t[i..], v, t[j..]);
  }

  lemma {:induction false} UnaryCompletes(t: seq<Token>, i: nat) returns (k: nat, n: nat, tail: seq<Token>)
    requires i <= |t| && ParseUnary(t[i..]) == Bad(BadNumber)
    ensures Found(t, i, k, n) && Finished(ParseUnary(Patched(t, n, tail)[i..]))
    decreases |t| - i, 2
  {
    if At(t[i..], Kw(KwNot)) {
      k, n, tail := NotCompletes(t, i);
    } else if At(t[i..], LParen) {
      k, n, tail := GroupCompletes(t, i);
    } else {
      PlainReads(t[i..]);
      k, n, tail := ComparisonCompletes(t, i);
      PlainReads(Patched(t, n, tail)[i..]);
    }
  }

  lemma {:induction false} NotCompletes(t: seq<Token>, i: nat) returns (k: nat, n: nat, tail: seq<Token>)
    requires i <= |t| && ParseUnary(t[i..]) == Bad(BadNumber) && i < |t| && t[i] == Kw(KwNot)
    ensures Found(t, i, k, n) && n > i && Finished(ParseUnary(Patched(t, n, tail)[i..]))
    decreases |t| - i, 1
  {
    Dropped(t, i, 1);
    var inner := ParseUnary(t[i + 1..]);
    if inner.Bad? {
      NotFails(t[i..], inner.error);
      k, n, tail := UnaryCompletes(t, i + 1);
      var u := Patched(t, n, tail);
      Dropped(u, i, 1);
      NotReads(u[i..], ParseUnary(u[i + 1..]).value, []);
    }
  }

  lemma {:induction false} GroupCompletes(t: seq<Token>, i: nat) returns (k: nat, n: nat, tail: seq<Token>)
    requires i <= |t| && ParseUnary(t[i..]) == Bad(BadNumber) && i < |t| && t[i] == LParen
    ensures Found(t, i, k, n) && n > i && Finished(ParseUnary(Patched(t, n, tail)[i..]))
    decreases |t| - i, 1
  {
    Dropped(t, i, 1);
    var inner := ParseOr(t[i + 1..]);
    if inner.Bad? {
      GroupFails(t[i..], inner.error);
      var tail1;
      k, n, tail1 := OrCompletes(t, i + 1);
      tail := tail1 + [RParen];
      OrExtends(t, n, tail1, [RParen], i + 1);
      var u := Patched(t, n, tail);
      Dropped(u, i, 1);
      GroupReads(u[i..], ParseOr(u[i + 1..]).value, [RParen]);
    }
  }

  lemma {:induction false} PathRaisesNothing(parts: seq<string>, ts: seq<Token>)
    ensures PathLoop(parts, ts) != Bad(BadNumber)
    decreases |ts|
  {
    if |ts| > 1 && ts[0] == Dot && ts[1].Ident? {
      PathGoes(parts, ts);
      PathRaisesNothing(parts + [ts[1].name], ts[2..]);
    }
  }

  lemma ExistsRaisesNothing(ts: seq<Token>)
    requires At(ts, Kw(KwExists))
    ensures ParseComparison(ts) != Bad(BadNumber)
  {
    var path := ParsePath(ts[1..]);
    if path.Bad? {
      ExistsFails(ts, path.error);
      if ts[1..] != [] && ts[1].Ident? {
        PathStarts(ts[1..]);
        PathRaisesNothing([ts[1].name], ts[1..][1..]);
      }
    } else {
      ExistsReads(ts, path.value, path.rest);
    }
  }

  lemma {:induction false} ComparisonCompletes(t: seq<Token>, i: nat) returns (k: nat, n: nat, tail: seq<Token>)
    requires i <= |t| && ParseComparison(t[i..]) == Bad(BadNumber)
    ensures Found(t, i, k, n) && Finished(ParseComparison(Patched(t, n, tail)[i..]))
    decreases |t| - i, 1, 1
  {
    if At(t[i..], Kw(KwExists)) {
      ExistsRaisesNothing(t[i..]);
    } else {
      var left := ParseOperand(t[i..]);
      if left.Bad? {
        ComparesFails(t[i..], left.error);
        k, n, tail := LeftCompletes(t, i);
      } else {
        OperandSuffix(t, i);
        var j := |t| - |left.rest|;
        ComparesStarts(t[i..], left.value, t[j..]);
        k, n, tail := RestCompletes(left.value, t, j);
        var u := Patched(t, n, tail);
        OperandKept(t, u, i, j);
        ComparesStarts(u[i..], left.value, u[j..]);
      }
    }
  }

  /** An operand completed on the left of a comparison is compared with a number. */
  lemma {:induction false} LeftCompletes(t: seq<Token>, i: nat) returns (k: nat, n: nat, tail: seq<Token>)
    requires i <= |t| && ParseOperand(t[i..]) == Bad(BadNumber) && !At(t[i..], Kw(KwExists))
    ensures Found(t, i, k, n) && Finished(ParseComparison(Patched(t, n, tail)[i..]))
    decreases |t| - i, 1, 0
  {
    var tail1;
    k, n, tail1 := OperandCompletes(t, i);
    var more := [OpTok(Eq), ZERO];
    tail := tail1 + more;
    OperandExtends(t, n, tail1, more, i);
    var u := Patched(t, n, tail);
    var v := ParseOperand(u[i..]).value;
    ComparesStarts(u[i..], v, more);
    assert more[1..] == [ZERO];
    ZeroReads();
    RelationReads(v, more, NumLit("0"), []);
  }

  lemma {:induction false} CollectionCompletes(left: Operand, negated: bool, t: seq<Token>, i: nat)
    returns (k: nat, n: nat, tail: seq<Token>)
    requires i <= |t| && ParseCollection(left, t[i..], negated) == Bad(BadNumber)
    ensures Found(t, i, k, n) && Finished(ParseCollection(left, Patched(t, n, tail)[i..], negated))
    decreases |t| - i, 1
  {
    var right := ParseOperand(t[i..]);
    if right.Bad? {
      CollectionFails(left, negated, t[i..], right.error);
      k, n, tail := OperandCompletes(t, i);
      CollectionReads(left, negated, Patched(t, n, tail)[i..], ParseOperand(Patched(t, n, tail)[i..]).value, []);
    }
  }

  lemma {:induction false} RelationCompletes(left: Operand, t: seq<Token>, i: nat)
    returns (k: nat, n: nat, tail: seq<Token>)
    requires i <= |t| && ParseRest(left, t[i..]) == Bad(BadNumber) && i < |t| && (t[i].OpTok? || t[i] == Kw(KwMatches))
    ensures Found(t, i, k, n) && n > i && Finished(ParseRest(left, Patched(t, n, tail)[i..]))
    decreases |t| - i, 0
  {
    Dropped(t, i, 1);
    var inner := ParseOperand(t[i + 1..]);
    if inner.Bad? {
      RelationFails(left, t[i..], inner.error);
      k, n, tail := OperandCompletes(t, i + 1);
      var u := Patched(t, n, tail);
      Dropped(u, i, 1);
      RelationReads(left, u[i..], ParseOperand(u[i + 1..]).value, []);
    }
  }

  lemma {:induction false} RestCompletes(left: Operand, t: seq<Token>, i: nat)
    returns (k: nat, n: nat, tail: seq<Token>)
    requires i <= |t| && ParseRest(left, t[i..]) == Bad(BadNumber)
    ensures Found(t, i, k, n) && n > i && Finished(ParseRest(left, Patched(t, n, tail)[i..]))
    decreases |t| - i, 2
  {
    if At(t[i..], Kw(KwIn)) {
      Dropped(t, i, 1);
      Among(left, t[i..]);
      k, n, tail := CollectionCompletes(left, false, t, i + 1);
      Dropped(Patched(t, n, tail), i, 1);
      Among(left, Patched(t, n, tail)[i..]);
    } else if At(t[i..], Kw(KwNot)) {
      Dropped(t, i, 2);
      NotAmong(left, t[i..]);
      k, n, tail := CollectionCompletes(left, true, t, i + 2);
      Dropped(Patched(t, n, tail), i, 2);
      NotAmong(left, Patched(t, n, tail)[i..]);
    } else {
      k, n, tail := RelationCompletes(left, t, i);
    }
  }

  lemma {:induction false} OperandCompletes(t: seq<Token>, i: nat) returns (k: nat, n: nat, tail: seq<Token>)
    requires i <= |t| && ParseOperand(t[i..]) == Bad(BadNumber)
    ensures Found(t, i, k, n) && (n == i ==> k == i) && Finished(ParseOperand(Patched(t, n, tail)[i..]))
    decreases |t| - i, 0, 1
  {
    match t[i]
    case NumTok(_) =>
      k, n, tail := i, i, [];
      ZeroReads();
      assert Patched(t, n, tail)[i..] == [ZERO];
    case LBrack =>
      Dropped(t, i, 1);
      Lists(t[i..]);
      k, n, tail := ListCompletes(t, i + 1);
      Dropped(Patched(t, n, tail), i, 1);
      Lists(Patched(t, n, tail)[i..]);
    case Ident(name) =>
      Dropped(t, i, 1);
      if At(t[i + 1..], LParen) {
        k, n, tail := CallCompletes(name, t, i);
      } else {
        NameRaisesNothing(t[i..]);
      }
  }

  lemma {:induction false} CallCompletes(name: string, t: seq<Token>, i: nat) returns (k: nat, n: nat, tail: seq<Token>)
    requires i + 1 < |t| && t[i] == Ident(name) && t[i + 1] == LParen && ParseOperand(t[i..]) == Bad(BadNumber)
    ensures Found(t, i, k, n) && n > i && Finished(ParseOperand(Patched(t, n, tail)[i..]))
    decreases |t| - i, 0, 0
  {
    Dropped(t, i, 2);
    Calls(t[i..]);
    k, n, tail := FuncCompletes(name, t, i + 2);
    Dropped(Patched(t, n, tail), i, 2);
    Calls(Patched(t, n, tail)[i..]);
  }

  lemma NameRaisesNothing(ts: seq<Token>)
    requires ts != [] && ts[0].Ident? && !At(ts[1..], LParen)
    ensures ParseOperand(ts) != Bad(BadNumber)
  {
    var path := PathLoop([ts[0].name], ts[1..]);
    PathRaisesNothing([ts[0].name], ts[1..]);
    if path.Bad? {
      NameFails(ts, path.error);
    } else {
      NameReads(ts, path.value, path.rest);
    }
  }

  lemma {:induction false} FuncCompletes(name: string, t: seq<Token>, i: nat) returns (k: nat, n: nat, tail: seq<Token>)
    requires i <= |t| && ParseFunc(name, t[i..]) == Bad(BadNumber)
    ensures Found(t, i, k, n) && Finished(ParseFunc(name, Patched(t, n, tail)[i..]))
    decreases |t| - i, 2
  {
    if !At(t[i..], RParen) {
      var first := ParseOperand(t[i..]);
      var tail1;
      if first.Bad? {
        FuncFails(name, t[i..], first.error);
        k, n, tail1 := OperandCompletes(t, i);
        tail := tail1 + [RParen];
        OperandExtends(t, n, tail1, [RParen], i);
        var u := Patched(t, n, tail);
        var v := ParseOperand(u[i..]).value;
        ArgsStops([v], [RParen]);
        FuncReads(name, u[i..], v, [RParen], [v], [RParen]);
      } else {
        OperandSuffix(t, i);
        var j := |t| - |first.rest|;
        k, n, tail := FuncResumes(name, t, i, first.value, j);
      }
    }
  }

  lemma {:induction false} FuncResumes(name: string, t: seq<Token>, i: nat, v: Operand, j: nat)
    returns (k: nat, n: nat, tail: seq<Token>)
    requires i < j <= |t| && !At(t[i..], RParen) && ParseOperand(t[i..]) == Read(v, t[j..])
    requires ParseFunc(name, t[i..]) == Bad(BadNumber)
    ensures Found(t, i, k, n) && n > i && Finished(ParseFunc(name, Patched(t, n, tail)[i..]))
    decreases |t| - i, 0
  {
    var all := ArgsLoop([v], t[j..]);
    if all.Bad? {
      FuncBreaks(name, t[i..], v, t[j..], all.error);
      var tail1;
      k, n, tail1 := ArgsCompletes([v], t, j);
      tail := tail1 + [RParen];
      ArgsExtends([v], t, n, tail1, [RParen], j);
      var u := Patched(t, n, tail);
      OperandKept(t, u, i, j);
      FuncReads(name, u[i..], v, u[j..], ArgsLoop([v], u[j..]).value, [RParen]);
    }
  }

  lemma {:induction false} ArgsCompletes(args: seq<Operand>, t: seq<Token>, i: nat)
    returns (k: nat, n: nat, tail: seq<Token>)
    requires i <= |t| && ArgsLoop(args, t[i..]) == Bad(BadNumber)
    ensures Found(t, i, k, n) && n > i && Finished(ArgsLoop(args, Patched(t, n, tail)[i..]))
    decreases |t| - i, 0, 2
  {
    if At(t[i..], Comma) {
      if ParseOperand(t[i + 1..]).Bad? {
        k, n, tail := ArgsInside(args, t, i);
      } else {
        k, n, tail := ArgsLater(args, t, i, ParseOperand(t[i + 1..]));
      }
    }
  }

  lemma {:induction false} ArgsInside(args: seq<Operand>, t: seq<Token>, i: nat)
    returns (k: nat, n: nat, tail: seq<Token>)
    requires i <= |t| && ArgsLoop(args, t[i..]) == Bad(BadNumber) && i < |t| && t[i] == Comma
    requires ParseOperand(t[i + 1..]).Bad?
    ensures Found(t, i, k, n) && n > i && Finished(ArgsLoop(args, Patched(t, n, tail)[i..]))
    decreases |t| - i, 0, 1
  {
    Dropped(t, i, 1);
    ArgsFails(args, t[i..], ParseOperand(t[i + 1..]).error);
    k, n, tail := OperandCompletes(t, i + 1);
    var u := Patched(t, n, tail);
    Dropped(u, i, 1);
    var v := ParseOperand(u[i + 1..]).value;
    ArgsGoes(args, u[i..], v, []);
    ArgsStops(args + [v], []);
  }

  lemma {:induction false} ArgsLater(args: seq<Operand>, t: seq<Token>, i: nat, next: Parsed<Operand>)
    returns (k: nat, n: nat, tail: seq<Token>)
    requires i < |t| && t[i] == Comma && next == ParseOperand(t[i + 1..]) && next.Read?
    requires ArgsLoop(args, t[i..]) == Bad(BadNumber)
    ensures Found(t, i, k, n) && n > i && Finished(ArgsLoop(args, Patched(t, n, tail)[i..]))
    decreases |t| - i, 0, 0
  {
    OperandSuffix(t, i + 1);
    var j := |t| - |next.rest|;
    ArgsOn(args, t, i, next.value, j);
    k, n, tail := ArgsCompletes(args + [next.value], t, j);
    var u := Patched(t, n, tail);
    OperandKept(t, u, i + 1, j);
    ArgsOn(args, u, i, next.value, j);
  }

  lemma ArgsOn(args: seq<Operand>, t: seq<Token>, i: nat, v: Operand, j: nat)
    requires i < j <= |t| && t[i] == Comma && ParseOperand(t[i + 1..]) == Read(v, t[j..])
    ensures ArgsLoop(args, t[i..]) == ArgsLoop(args + [v], t[j..])
  {
    Dropped(t, i, 1);
    ArgsGoes(args, t[i..], v, t[j..]);
  }

  lemma {:induction false} ListCompletes(t: seq<Token>, i: nat) returns (k: nat, n: nat, tail: seq<Token>)
    requires i <= |t| && ParseList(t[i..]) == Bad(BadNumber)
    ensures Found(t, i, k, n) && Finished(ParseList(Patched(t, n, tail)[i..]))
    decreases |t| - i, 2
  {
    if !At(t[i..], RBrack) {
      var first := ParseItem(t[i..]);
      var tail1;
      if first.Bad? {
        ListFails(t[i..], first.error);
        k, n, tail1 := ItemCompletes(t, i);
        tail := tail1 + [RBrack];
        ItemExtends(t, n, tail1, [RBrack], i);
        var u := Patched(t, n, tail);
        var v := ParseItem(u[i..]).value;
        ItemsStops([v], [RBrack]);
        ListReads(u[i..], v, [RBrack], [v], [RBrack]);
      } else {
        ItemSuffix(t, i);
        var j := |t| - |first.rest|;
        k, n, tail := ListResumes(t, i, first.value, j);
      }
    }
  }

  lemma {:induction false} ListResumes(t: seq<Token>, i: nat, v: Operand, j: nat)
    returns (k: nat, n: nat, tail: seq<Token>)
    requires i < j <= |t| && !At(t[i..], RBrack) && ParseItem(t[i..]) == Read(v, t[j..])
    requires ParseList(t[i..]) == Bad(BadNumber)
    ensures Found(t, i, k, n) && n > i && Finished(ParseList(Patched(t, n, tail)[i..]))
    decreases |t| - i, 0
  {
    var all := ItemsLoop([v], t[j..]);
    if all.Bad? {
      ListBreaks(t[i..], v, t[j..], all.error);
      var tail1;
      k, n, tail1 := ItemsCompletes([v], t, j);
      tail := tail1 + [RBrack];
      ItemsExtends([v], t, n, tail1, [RBrack], j);
      var u := Patched(t, n, tail);
      ItemKept(t, u, i, j);
      ListReads(u[i..], v, u[j..], ItemsLoop([v], u[j..]).value, [RBrack]);
    }
  }

  lemma {:induction false} ItemsCompletes(items: seq<Operand>, t: seq<Token>, i: nat)
    returns (k: nat, n: nat, tail: seq<Token>)
    requires i <= |t| && ItemsLoop(items, t[i..]) == Bad(BadNumber)
    ensures Found(t, i, k, n) && n > i && Finished(ItemsLoop(items, Patched(t, n, tail)[i..]))
    decreases |t| - i, 0, 2
  {
    if At(t[i..], Comma) {
      if ParseItem(t[i + 1..]).Bad? {
        k, n, tail := ItemsInside(items, t, i);
      } else {
        k, n, tail := ItemsLater(items, t, i, ParseItem(t[i + 1..]));
      }
    }
  }

  lemma {:induction false} ItemsInside(items: seq<Operand>, t: seq<Token>, i: nat)
    returns (k: nat, n: nat, tail: seq<Token>)
    requires i <= |t| && ItemsLoop(items, t[i..]) == Bad(BadNumber) && i < |t| && t[i] == Comma
    requires ParseItem(t[i + 1..]).Bad?
    ensures Found(t, i, k, n) && n > i && Finished(ItemsLoop(items, Patched(t, n, tail)[i..]))
    decreases |t| - i, 0, 1
  {
    Dropped(t, i, 1);
    ItemsFails(items, t[i..], ParseItem(t[i + 1..]).error);
    k, n, tail := ItemCompletes(t, i + 1);
    var u := Patched(t, n, tail);
    Dropped(u, i, 1);
    var v := ParseItem(u[i + 1..]).value;
    ItemsGoes(items, u[i..], v, []);
    ItemsStops(items + [v], []);
  }

  lemma {:induction false} ItemsLater(items: seq<Operand>, t: seq<Token>, i: nat, next: Parsed<Operand>)
    returns (k: nat, n: nat, tail: seq<Token>)
    requires i < |t| && t[i] == Comma && next == ParseItem(t[i + 1..]) && next.Read?
    requires ItemsLoop(items, t[i..]) == Bad(BadNumber)
    ensures Found(t, i, k, n) && n > i && Finished(ItemsLoop(items, Patched(t, n, tail)[i..]))
    decreases |t| - i, 0, 0
  {
    ItemSuffix(t, i + 1);
    var j := |t| - |next.rest|;
    ItemsOn(items, t, i, next.value, j);
    k, n, tail := ItemsCompletes(items + [next.value], t, j);
    var u := Patched(t, n, tail);
    ItemKept(t, u, i + 1, j);
    ItemsOn(items, u, i, next.value, j);
  }

  lemma ItemsOn(items: seq<Operand>, t: seq<Token>, i: nat, v: Operand, j: nat)
    requires i < j <= |t| && t[i] == Comma && ParseItem(t[i + 1..]) == Read(v, t[j..])
    ensures ItemsLoop(items, t[i..]) == ItemsLoop(items + [v], t[j..])
  {
    Dropped(t, i, 1);
    ItemsGoes(items, t[i..], v, t[j..]);
  }

  /** In a list nothing but a literal completes the item, so the number stands for the whole item. */
  lemma {:induction false} ItemCompletes(t: seq<Token>, i: nat) returns (k: nat, n: nat, tail: seq<Token>)
    requires i <= |t| && ParseItem(t[i..]) == Bad(BadNumber)
    ensures Found(t, i, k, n) && Finished(ParseItem(Patched(t, n, tail)[i..]))
    decreases |t| - i, 1, 0
  {
    var n1, tail1;
    k, n1, tail1 := OperandCompletes(t, i);
    n, tail := i, [];
    ZeroReads();
    assert Patched(t, n, tail)[i..] == [ZERO];
    if k > i {
      PatchedFrom(t, i, n1, tail1);
      Sliced(t, i, n1, k);
      assert OpensOperand(t[i..k][..n1 - i]);
    }
  }

  // ---- the theorem --------------------------------------------------------------------------

  lemma FaultRaises(ts: seq<Token>)
    requires ts != [] && Fault(ts[0])
    ensures ParseOperand(ts) == Bad(BadNumber)
  {
  }

  lemma RaisingStarts(ts: seq<Token>)
    requires ParseOperand(ts) == Bad(BadNumber)
    ensures ts != [] && OperandStart(ts[0])
  {
  }

  lemma OpenedOperand(t: seq<Token>, n: nat, m: nat) returns (u: seq<Token>)
    requires n <= m <= |t| && OpensOperand(t[n..m])
    ensures m < |u| && (forall i | 0 <= i < m :: u[i] == t[i]) && u[m] == ZERO && Finished(ParseOperand(u[n..]))
  {
    var p := t[n..m];
    var tail :| Finished(ParseOperand(Patched(p, |p|, tail)));
    u := Patched(t, m, tail);
    PatchedFrom(t, n, m, tail);
  }

  /** Where an operand raises, so does the operand that the tokens before it open. */
  lemma PieceRaises(t: seq<Token>, n: nat, m: nat)
    requires n <= m < |t| && OpensOperand(t[n..m]) && ParseOperand(t[m..]) == Bad(BadNumber)
    ensures ParseOperand(t[n..]) == Bad(BadNumber)
  {
    RaisingStarts(t[m..]);
    var u := OpenedOperand(t, n, m);
    OperandRaises(t, u, m, n);
  }

  /** And so does the condition. */
  lemma ConditionRaises(t: seq<Token>, n: nat)
    requires n < |t| && OpensCondition(t[..n]) && ParseOperand(t[n..]) == Bad(BadNumber)
    ensures ParseOr(t) == Bad(BadNumber)
  {
    RaisingStarts(t[n..]);
    var tail :| Finished(ParseOr(Patched(t[..n], n, tail)));
    var u := Patched(t, n, tail);
    PatchedFrom(t, 0, n, tail);
    assert t[0..] == t && t[0..n] == t[..n];
    OrRaises(t, u, n, 0);
  }

  lemma {:induction false} OperandsRaise(t: seq<Token>, n: nat, k: nat)
    requires n <= k < |t| && Fault(t[k]) && (n == k || OpensOperands(t[n..k]))
    ensures ParseOperand(t[n..]) == Bad(BadNumber)
    decreases k - n
  {
    if n == k {
      FaultRaises(t[k..]);
    } else {
      var m := FirstPiece(t, n, k);
      OperandsRaise(t, m, k);
      PieceRaises(t, n, m);
    }
  }

  lemma FirstPiece(t: seq<Token>, n: nat, k: nat) returns (m: nat)
    requires n < k <= |t| && OpensOperands(t[n..k])
    ensures n < m <= k && OpensOperand(t[n..m]) && (m == k || OpensOperands(t[m..k]))
  {
    var p := t[n..k];
    var i :| 0 < i <= |p| && OpensOperand(p[..i]) && (i == |p| || OpensOperands(p[i..]));
    m := n + i;
    Sliced(t, n, m, k);
  }

  /** The tokens can be cut into a piece that opens a condition and pieces that each open an operand. */
  ghost predicate WantsNumber(p: seq<Token>) {
    exists n :: 0 <= n <= |p| && OpensCondition(p[..n]) && (n == |p| || OpensOperands(p[n..]))
  }

  lemma RaisingIsWanted(t: seq<Token>) returns (k: nat)
    requires ParseOr(t) == Bad(BadNumber)
    ensures k < |t| && Fault(t[k]) && WantsNumber(t[..k])
  {
    assert t[0..] == t;
    var n, tail;
    k, n, tail := OrCompletes(t, 0);
    var p := t[..k];
    Sliced(t, 0, n, k);
    PatchedFrom(t, 0, n, tail);
    assert t[0..k] == p && t[0..n] == p[..n];
    assert OpensCondition(p[..n]);
  }

  lemma FirstCut(t: seq<Token>, k: nat) returns (n: nat)
    requires k <= |t| && WantsNumber(t[..k])
    ensures n <= k && OpensCondition(t[..n]) && (n == k || OpensOperands(t[n..k]))
  {
    var p := t[..k];
    n :| 0 <= n <= |p| && OpensCondition(p[..n]) && (n == |p| || OpensOperands(p[n..]));
    Sliced(t, 0, n, k);
    assert t[0..k] == p && t[0..n] == t[..n];
  }

  lemma WantedRaises(t: seq<Token>, k: nat)
    requires k < |t| && Fault(t[k]) && WantsNumber(t[..k])
    ensures ParseOr(t) == Bad(BadNumber)
  {
    var n := FirstCut(t, k);
    OperandsRaise(t, n, k);
    ConditionRaises(t, n);
  }

  /** A list of tokens raises if and only if some number that does not convert stands where one is wanted. */
  lemma TokensRaiseExactly(t: seq<Token>)
    ensures ParseTokens(t) == Err(BadNumber) <==> exists k :: 0 <= k < |t| && Fault(t[k]) && WantsNumber(t[..k])
  {
    if ParseTokens(t) == Err(BadNumber) {
      var k := RaisingIsWanted(t);
    }
    forall k | 0 <= k < |t| && Fault(t[k]) && WantsNumber(t[..k]) ensures ParseTokens(t) == Err(BadNumber) {
      WantedRaises(t, k);
    }
  }

  lemma {:induction false} LexNeverRaises(src: string)
    ensures Lex(src) != Err(BadNumber)
    decreases |src|
  {
    if src != "" {
      if IsSpace(src[0]) {
        LexNeverRaises(src[1..]);
      } else if ScanToken(src).Ok? {
        LexNeverRaises(src[ScanToken(src).value.size..]);
      }
    }
  }

  /** The text holds a number that does not convert where what precedes it wants a number. */
  ghost predicate BadNumberWanted(src: string) {
    Lex(src).Ok? && var ts := Lex(src).value;
      exists k :: 0 <= k < |ts| && Fault(ts[k]) && WantsNumber(ts[..k])
  }

  /** Exactly which texts raise `ValueError` where a caller expects the language's own error. */
  lemma RaisesExactly(src: string)
    ensures Parse(src) == Err(BadNumber) <==> BadNumberWanted(src)
  {
    LexNeverRaises(src);
    if Lex(src).Ok? {
      TokensRaiseExactly(Lex(src).value);
    }
  }

  /** A number alone raises exactly if it does not convert. */
  lemma NumberAloneRaises(text: string)
    requires IsNumber(text)
    ensures Lex(text) == Ok([NumTok(text)]) && (Parse(text) == Err(BadNumber) <==> !Converts(text))
  {
    ScanNumberText(text, "");
    assert text + "" == text;
    assert text[|text|..] == "" && Lex("") == Ok([]);
    assert [NumTok(text)] + [] == [NumTok(text)];
    var ts := [NumTok(text)];
    RaisesExactly(text);
    if Fault(ts[0]) {
      FaultRaises(ts);
      ComparesFails(ts, BadNumber);
      PlainReads(ts);
      AndFails(ts, BadNumber);
      OrFails(ts, BadNumber);
    }
  }

  lemma OneTwoThreeEscapes()
    ensures Parse("1.2.3") == Err(BadNumber)
  {
    assert "1.2.3"[1..] == ".2.3" && ".2.3"[1..] == "2.3" && "2.3"[1..] == ".3" && ".3"[1..] == "3" && "3"[1..] == "";
    assert Dots("3") == 0 && Dots(".3") == 1 && Dots("2.3") == 1 && Dots(".2.3") == 2 && Dots("1.2.3") == 2;
    NumberAloneRaises("1.2.3");
  }

  lemma {:induction false} DigitsHaveNoDots(n: nat)
    ensures Dots(seq(n, _ => '1')) == 0
  {
    if n > 0 {
      DigitsHaveNoDots(n - 1);
      assert seq(n, _ => '1')[1..] == seq(n - 1, _ => '1');
    }
  }

  /** A plain literal of digits alone raises from the first digit beyond the limit on, and its sign does not count. */
  lemma LongLiteralRaises(n: nat)
    ensures Parse(seq(n, _ => '1')) == Err(BadNumber) <==> n > MAX_INT_DIGITS
    ensures n > 0 ==> (Parse("-" + seq(n, _ => '1')) == Err(BadNumber) <==> n > MAX_INT_DIGITS)
  {
    if n == 0 {
      RaisesExactly("");
      assert seq(n, _ => '1') == "";
    } else {
      DigitsHaveNoDots(n);
      NumberAloneRaises(seq(n, _ => '1'));
      SignedLiteral(seq(n, _ => '1'));
    }
  }

  lemma SignedLiteral(digits: string)
    requires digits != "" && Dots(digits) == 0 && forall i | 0 <= i < |digits| :: digits[i] == '1'
    ensures Parse("-" + digits) == Err(BadNumber) <==> |digits| > MAX_INT_DIGITS
  {
    assert ("-" + digits)[1..] == digits;
    NumberAloneRaises("-" + digits);
  }

  const LIST_CALL := [Ident("x"), Kw(KwIn), LBrack, Ident("f"), LParen]

  /** A call as a list item raises, although with no end whatever does the condition get past it. */
  lemma CallInListRaises(bad: Token, rest: seq<Token>)
    requires Fault(bad)
    ensures ParseTokens(LIST_CALL + [bad] + rest) == Err(BadNumber)
    ensures !OpensCondition(LIST_CALL)
  {
    CallInList(LIST_CALL + [bad] + rest);
    forall tail ensures !Finished(ParseOr(Patched(LIST_CALL, 5, tail))) {
      CallInList(Patched(LIST_CALL, 5, tail));
    }
  }

  lemma CallInList(ts: seq<Token>)
    requires |ts| > 5 && (forall i | 0 <= i < 5 :: ts[i] == LIST_CALL[i]) && ts[5].NumTok?
    ensures ParseOr(ts).Bad? && (Fault(ts[5]) ==> ParseOr(ts) == Bad(BadNumber))
  {
    var e := CallAsItem(ts[3..]);
    ListFails(ts[3..], e);
    Dropped(ts, 2, 1);
    Lists(ts[2..]);
    var left := Operand.Path(["x"]);
    CollectionFails(left, false, ts[2..], e);
    Dropped(ts, 1, 1);
    Among(left, ts[1..]);
    NameReads(ts, ["x"], ts[1..]);
    ComparesStarts(ts, left, ts[1..]);
    PlainReads(ts);
    AndFails(ts, e);
    OrFails(ts, e);
  }

  lemma CallAsItem(ts: seq<Token>) returns (e: Problem)
    requires |ts| > 2 && ts[0].Ident? && ts[1] == LParen && ts[2].NumTok?
    ensures ParseItem(ts) == Bad(e) && (Fault(ts[2]) ==> e == BadNumber)
  {
    Calls(ts);
    if Fault(ts[2]) {
      FaultRaises(ts[2..]);
      FuncFails(ts[0].name, ts[2..], BadNumber);
      ItemFails(ts, BadNumber);
      e := BadNumber;
    } else {
      CallIsNoLiteral(ts[0].name, ts[2..]);
      e := ParseItem(ts).error;
    }
  }

  lemma CallIsNoLiteral(name: string, ts: seq<Token>)
    ensures var r := ParseFunc(name, ts); r.Read? ==> r.value.Func?
  {
  }
}
