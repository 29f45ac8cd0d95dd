/** The parser and the printer undo each other, on every tree and on every text. */
module RoundTrip {
  import opened Syntax
  import opened Tokenizer
  import opened Parser

  /** What may stand behind an operand: a dot or an opening parenthesis would be read into it. */
  predicate Follows(ts: seq<Token>) {
    !At(ts, Dot) && !At(ts, LParen)
  }

  // ---- operands ----------------------------------------------------------------------------

  lemma {:induction false} PathReadsBack(before: seq<string>, parts: seq<string>, ts: seq<Token>)
    requires !At(ts, Dot)
    ensures PathLoop(before, PathTail(parts) + ts) == Read(before + parts, ts)
    decreases |parts|
  {
    if parts == [] {
      assert PathTail(parts) + ts == ts && before + parts == before;
    } else {
      var more := parts[1..];
      PathReadsBack(before + [parts[0]], more, ts);
      PathStep(before, parts[0], PathTail(more), ts);
      assert before + [parts[0]] + more == before + parts;
    }
  }

  lemma PathStep(before: seq<string>, part: string, more: seq<Token>, ts: seq<Token>)
    ensures PathLoop(before, [Dot, Ident(part)] + more + ts) == PathLoop(before + [part], more + ts)
  {
    assert ([Dot, Ident(part)] + more + ts)[2..] == more + ts;
  }

  predicate GoodItems(items: seq<Operand>) {
    forall i | 0 <= i < |items| :: IsLiteral(items[i]) && GoodOperand(items[i])
  }

  lemma Regroup(a: seq<Token>, b: seq<Token>, c: seq<Token>, d: seq<Token>)
    ensures a + (b + c) + d == a + (b + (c + d))
  {
  }

  lemma Associate(a: seq<Token>, b: seq<Token>, c: seq<Token>)
    ensures a + b + c == a + (b + c)
  {
  }

  lemma HeadAndTail(os: seq<Operand>, ts: seq<Token>, left: seq<Token>)
    requires os != [] && GoodArgs(os) && left == Tail(os[1..]) + ts
    ensures Separated(os) + ts == OperandTokens(os[0]) + left
    ensures Tail(os) + ts == [Comma] + (OperandTokens(os[0]) + left)
  {
    Associate(OperandTokens(os[0]), Tail(os[1..]), ts);
    Regroup([Comma], OperandTokens(os[0]), Tail(os[1..]), ts);
  }

  lemma Regrouped(before: seq<Operand>, os: seq<Operand>)
    requires os != []
    ensures before + [os[0]] + os[1..] == before + os
  {
    assert [os[0]] + os[1..] == os;
  }

  lemma {:induction false} OperandReadsBack(o: Operand, ts: seq<Token>)
    requires GoodOperand(o) && Follows(ts)
    ensures ParseOperand(OperandTokens(o) + ts) == Read(o, ts)
    decreases o, 0
  {
    match o
    case Path(parts) => PathOperand(parts, ts);
    case ListLit(items) =>
      ItemsReadBack(items, [RBrack] + ts);
      ListOperand(Separated(items), items, ts);
    case Func(name, args) =>
      ArgsReadBack(name, args, [RParen] + ts);
      FuncOperand(Separated(args), name, args, ts);
    case _ => assert (OperandTokens(o) + ts)[1..] == ts;
  }

  lemma WholePath(parts: seq<string>, ts: seq<Token>, all: seq<Token>)
    requires GoodPath(parts) && !At(ts, Dot) && all == PathTokens(parts) + ts
    ensures all != [] && all[0] == Ident(parts[0]) && PathLoop([parts[0]], all[1..]) == Read(parts, ts)
    ensures At(all[1..], LParen) ==> At(ts, LParen)
  {
    PathReadsBack([parts[0]], parts[1..], ts);
    assert [parts[0]] + parts[1..] == parts;
    assert all[1..] == PathTail(parts[1..]) + ts;
  }

  lemma PathOperand(parts: seq<string>, ts: seq<Token>)
    requires GoodPath(parts) && Follows(ts)
    ensures ParseOperand(PathTokens(parts) + ts) == Read(Path(parts), ts)
  {
    WholePath(parts, ts, PathTokens(parts) + ts);
  }

  lemma ListOperand(inner: seq<Token>, items: seq<Operand>, ts: seq<Token>)
    requires ParseList(inner + ([RBrack] + ts)) == Read(ListLit(items), ([RBrack] + ts)[1..])
    ensures ParseOperand([LBrack] + (inner + [RBrack]) + ts) == Read(ListLit(items), ts)
  {
    Regroup([LBrack], inner, [RBrack], ts);
    assert ([LBrack] + (inner + ([RBrack] + ts)))[1..] == inner + ([RBrack] + ts);
    assert ([RBrack] + ts)[1..] == ts;
  }

  lemma FuncOperand(inner: seq<Token>, name: string, args: seq<Operand>, ts: seq<Token>)
    requires ParseFunc(name, inner + ([RParen] + ts)) == Read(Func(name, args), ([RParen] + ts)[1..])
    ensures ParseOperand([Ident(name), LParen] + (inner + [RParen]) + ts) == Read(Func(name, args), ts)
  {
    var all := [Ident(name), LParen] + (inner + ([RParen] + ts));
    Regroup([Ident(name), LParen], inner, [RParen], ts);
    assert all[1..][0] == LParen && all[2..] == inner + ([RParen] + ts);
    assert ([RParen] + ts)[1..] == ts;
  }

  /** The first token of an operand is never one that closes or separates. */
  lemma OperandOpens(o: Operand)
    requires GoodOperand(o)
    ensures OperandTokens(o) != [] && Opens(OperandTokens(o)[0])
  {
  }

  predicate Opens(t: Token) {
    t != RParen && t != RBrack && t != LParen && t != Kw(KwExists) && t != Kw(KwNot)
  }

  lemma HeadFirst(os: seq<Operand>)
    requires os != []
    ensures [os[0]] + os[1..] == os
  {
  }

  lemma {:induction false} ArgsReadBack(name: string, args: seq<Operand>, ts: seq<Token>)
    requires GoodArgs(args) && At(ts, RParen)
    ensures ParseFunc(name, Separated(args) + ts) == Read(Func(name, args), ts[1..])
    decreases args, 2
  {
    if args == [] {
      assert Separated(args) + ts == ts;
    } else {
      var left := Tail(args[1..]) + ts;
      HeadAndTail(args, ts, left);
      OperandOpens(args[0]);
      OperandReadsBack(args[0], left);
      ArgsContinue([args[0]], args[1..], ts);
      HeadFirst(args);
      FirstArgs(name, OperandTokens(args[0]) + left, args, left, ts);
    }
  }

  lemma FirstArgs(name: string, all: seq<Token>, args: seq<Operand>, left: seq<Token>, ts: seq<Token>)
    requires args != [] && !At(all, RParen) && ParseOperand(all) == Read(args[0], left)
    requires ArgsLoop([args[0]], left) == Read(args, ts) && At(ts, RParen)
    ensures ParseFunc(name, all) == Read(Func(name, args), ts[1..])
  {
  }

  lemma {:induction false} ArgsContinue(before: seq<Operand>, args: seq<Operand>, ts: seq<Token>)
    requires GoodArgs(args) && At(ts, RParen)
    ensures ArgsLoop(before, Tail(args) + ts) == Read(before + args, ts)
    decreases args, 1
  {
    var all := Tail(args) + ts;
    if args == [] {
      assert all == ts && before + args == before;
    } else {
      var left := Tail(args[1..]) + ts;
      HeadAndTail(args, ts, left);
      OperandReadsBack(args[0], left);
      ArgsContinue(before + [args[0]], args[1..], ts);
      Regrouped(before, args);
      ArgsStep(before, all, OperandTokens(args[0]) + left, args[0], left);
    }
  }

  lemma ArgsStep(before: seq<Operand>, all: seq<Token>, behind: seq<Token>, next: Operand, left: seq<Token>)
    requires all == [Comma] + behind && ParseOperand(behind) == Read(next, left)
    ensures ArgsLoop(before, all) == ArgsLoop(before + [next], left)
  {
    assert all[1..] == behind;
  }

  lemma {:induction false} ItemsReadBack(items: seq<Operand>, ts: seq<Token>)
    requires GoodItems(items) && At(ts, RBrack)
    ensures ParseList(Separated(items) + ts) == Read(ListLit(items), ts[1..])
    decreases items, 2
  {
    if items == [] {
      assert Separated(items) + ts == ts;
    } else {
      var left := Tail(items[1..]) + ts;
      HeadAndTail(items, ts, left);
      OperandOpens(items[0]);
      OperandReadsBack(items[0], left);
      ItemsContinue([items[0]], items[1..], ts);
      HeadFirst(items);
      FirstItems(OperandTokens(items[0]) + left, items, left, ts);
    }
  }

  lemma FirstItems(all: seq<Token>, items: seq<Operand>, left: seq<Token>, ts: seq<Token>)
    requires items != [] && !At(all, RBrack) && ParseOperand(all) == Read(items[0], left) && IsLiteral(items[0])
    requires ItemsLoop([items[0]], left) == Read(items, ts) && At(ts, RBrack)
    ensures ParseList(all) == Read(ListLit(items), ts[1..])
  {
  }

  lemma {:induction false} ItemsContinue(before: seq<Operand>, items: seq<Operand>, ts: seq<Token>)
    requires GoodItems(items) && At(ts, RBrack)
    ensures ItemsLoop(before, Tail(items) + ts) == Read(before + items, ts)
    decreases items, 1
  {
    var all := Tail(items) + ts;
    if items == [] {
      assert all == ts && before + items == before;
    } else {
      var left := Tail(items[1..]) + ts;
      HeadAndTail(items, ts, left);
      OperandReadsBack(items[0], left);
      ItemsContinue(before + [items[0]], items[1..], ts);
      Regrouped(before, items);
      ItemsStep(before, all, OperandTokens(items[0]) + left, items[0], left);
    }
  }

  lemma ItemsStep(before: seq<Operand>, all: seq<Token>, behind: seq<Token>, next: Operand, left: seq<Token>)
    requires all == [Comma] + behind && ParseOperand(behind) == Read(next, left) && IsLiteral(next)
    ensures ItemsLoop(before, all) == ItemsLoop(before + [next], left)
  {
    assert all[1..] == behind;
  }

  // ---- expressions ---------------------------------------------------------------------------

  lemma ComparisonReadsBack(e: Expr, ts: seq<Token>)
    requires GoodExpr(e) && (e.Compare? || e.InExpr? || e.Exists?) && Follows(ts)
    ensures ParseUnary(Bare(e) + ts) == Read(e, ts)
  {
    match e
    case Exists(path) => ExistsReadsBack(path, ts);
    case Compare(l, op, r) =>
      OperandReadsBack(r, ts);
      Regroup(OperandTokens(l), [OperatorToken(op)], OperandTokens(r), ts);
      CompareRest(Bare(e) + ts, l, op, r, OperandTokens(r) + ts, ts);
    case InExpr(item, collection, negated) =>
      OperandReadsBack(collection, ts);
      Regroup(OperandTokens(item), InTokens(negated), OperandTokens(collection), ts);
      InRest(Bare(e) + ts, item, negated, collection, OperandTokens(collection) + ts, ts);
  }

  lemma ExistsReadsBack(path: seq<string>, ts: seq<Token>)
    requires GoodPath(path) && Follows(ts)
    ensures ParseUnary([Kw(KwExists)] + PathTokens(path) + ts) == Read(Exists(path), ts)
  {
    Associate([Kw(KwExists)], PathTokens(path), ts);
    var right := PathTokens(path) + ts;
    WholePath(path, ts, right);
    assert ([Kw(KwExists)] + right)[1..] == right;
  }

  /** Behind its left operand a comparison is read by its operator. */
  lemma BehindOperand(all: seq<Token>, item: Operand, left: seq<Token>)
    requires GoodOperand(item) && Follows(left) && all == OperandTokens(item) + left
    ensures ParseUnary(all) == ParseRest(item, left)
  {
    OperandOpens(item);
    OperandReadsBack(item, left);
    assert all[0] == OperandTokens(item)[0];
  }

  lemma CompareRest(all: seq<Token>, l: Operand, op: Operator, r: Operand, right: seq<Token>, ts: seq<Token>)
    requires GoodOperand(l) && all == OperandTokens(l) + ([OperatorToken(op)] + right)
    requires ParseOperand(right) == Read(r, ts)
    ensures ParseUnary(all) == Read(Compare(l, op, r), ts)
  {
    var left := [OperatorToken(op)] + right;
    BehindOperand(all, l, left);
    assert left[1..] == right;
  }

  lemma InRest(all: seq<Token>, l: Operand, negated: bool, r: Operand, right: seq<Token>, ts: seq<Token>)
    requires GoodOperand(l)
    requires all == OperandTokens(l) + (InTokens(negated) + right)
    requires ParseOperand(right) == Read(r, ts)
    ensures ParseUnary(all) == Read(InExpr(l, r, negated), ts)
  {
    var left := InTokens(negated) + right;
    BehindOperand(all, l, left);
    if negated { assert left[1..][0] == Kw(KwIn) && left[2..] == right; } else { assert left[1..] == right; }
  }

  /** Without parentheses a tree is read at its own level and every weaker one. */
  lemma {:induction false} BareReadsBack(e: Expr, ts: seq<Token>)
    requires GoodExpr(e) && Follows(ts)
    ensures ReadsBack(Bare(e) + ts, e, Strength(e), ts)
    decreases e, 0
  {
    match e
    case Or(l, r) =>
      var right := Written(r, 1) + ts;
      WrittenReadsBack(l, 0, [Kw(KwOr)] + right);
      WrittenReadsBack(r, 1, ts);
      Regroup(Written(l, 0), [Kw(KwOr)], Written(r, 1), ts);
      OrStep(Written(l, 0) + ([Kw(KwOr)] + right), l, r, right, ts);
    case And(l, r) =>
      var right := Written(r, 2) + ts;
      WrittenReadsBack(l, 1, [Kw(KwAnd)] + right);
      WrittenReadsBack(r, 2, ts);
      Regroup(Written(l, 1), [Kw(KwAnd)], Written(r, 2), ts);
      AndStep(Written(l, 1) + ([Kw(KwAnd)] + right), l, r, right, ts);
    case Not(inner) =>
      WrittenReadsBack(inner, 2, ts);
      NotStep([Kw(KwNot)] + Written(inner, 2) + ts, inner, Written(inner, 2) + ts, ts);
    case _ => ComparisonReadsBack(e, ts);
  }

  /** `all` is read as `e` by the level `context` and then by every weaker one. */
  predicate ReadsBack(all: seq<Token>, e: Expr, context: nat, ts: seq<Token>) {
    match context
    case 0 => !At(ts, Kw(KwAnd)) ==> ParseOr(all) == OrLoop(e, ts)
    case 1 => ParseAnd(all) == AndLoop(e, ts)
    case _ => ParseUnary(all) == Read(e, ts)
  }

  lemma Climb(all: seq<Token>, e: Expr, strength: nat, context: nat, ts: seq<Token>)
    requires ReadsBack(all, e, strength, ts) && context <= strength <= 2
    ensures ReadsBack(all, e, context, ts)
  {
    if strength == 2 {
      assert ParseAnd(all) == AndLoop(e, ts);
    }
  }

  lemma OrStep(all: seq<Token>, l: Expr, r: Expr, right: seq<Token>, ts: seq<Token>)
    requires ReadsBack(all, l, 0, [Kw(KwOr)] + right) && ReadsBack(right, r, 1, ts)
    ensures ReadsBack(all, Or(l, r), 0, ts)
  {
    var left := [Kw(KwOr)] + right;
    assert left[1..] == right;
    if !At(ts, Kw(KwAnd)) {
      assert ParseAnd(right) == Read(r, ts);
    }
  }

  lemma AndStep(all: seq<Token>, l: Expr, r: Expr, right: seq<Token>, ts: seq<Token>)
    requires ReadsBack(all, l, 1, [Kw(KwAnd)] + right) && ReadsBack(right, r, 2, ts)
    ensures ReadsBack(all, And(l, r), 1, ts)
  {
    var left := [Kw(KwAnd)] + right;
    assert left[1..] == right;
  }

  lemma NotStep(all: seq<Token>, inner: Expr, right: seq<Token>, ts: seq<Token>)
    requires all == [Kw(KwNot)] + right && ReadsBack(right, inner, 2, ts)
    ensures ReadsBack(all, Not(inner), 2, ts)
  {
    assert all[1..] == right;
  }

  lemma {:induction false} WrittenReadsBack(e: Expr, context: nat, ts: seq<Token>)
    requires GoodExpr(e) && context <= 2 && Follows(ts)
    ensures ReadsBack(Written(e, context) + ts, e, context, ts)
    decreases e, 1
  {
    if Strength(e) >= context {
      BareReadsBack(e, ts);
      Climb(Bare(e) + ts, e, Strength(e), context, ts);
    } else {
      BareReadsBack(e, [RParen] + ts);
      Climb(Bare(e) + ([RParen] + ts), e, Strength(e), 0, [RParen] + ts);
      Regroup([LParen], Bare(e), [RParen], ts);
      ParenStep([LParen] + (Bare(e) + ([RParen] + ts)), e, Bare(e) + ([RParen] + ts), ts);
      Climb(Written(e, context) + ts, e, 2, context, ts);
    }
  }

  lemma ParenStep(all: seq<Token>, e: Expr, right: seq<Token>, ts: seq<Token>)
    requires all == [LParen] + right && ReadsBack(right, e, 0, [RParen] + ts)
    ensures ReadsBack(all, e, 2, ts)
  {
    assert all[1..] == right;
    var closed := [RParen] + ts;
    assert closed[1..] == ts;
  }

  // ---- the tokens of a tree are well-formed ------------------------------------------------------

  lemma {:induction false} PathTailIsGood(parts: seq<string>)
    requires forall i | 0 <= i < |parts| :: IsName(parts[i])
    ensures GoodTokens(PathTail(parts))
    decreases |parts|
  {
    if parts != [] {
      PathTailIsGood(parts[1..]);
    }
  }

  lemma {:induction false} OperandTokensAreGood(o: Operand)
    requires GoodOperand(o)
    ensures GoodTokens(OperandTokens(o))
    decreases o, 0
  {
    match o
    case Path(parts) => PathTailIsGood(parts[1..]);
    case ListLit(items) => SeparatedAreGood(items);
    case Func(_, args) => SeparatedAreGood(args);
    case _ =>
  }

  lemma {:induction false} SeparatedAreGood(os: seq<Operand>)
    requires GoodArgs(os)
    ensures GoodTokens(Separated(os)) && GoodTokens(Tail(os))
    decreases os, 1
  {
    if os != [] {
      OperandTokensAreGood(os[0]);
      SeparatedAreGood(os[1..]);
      BothGood(OperandTokens(os[0]), Tail(os[1..]));
      BothGood([Comma], OperandTokens(os[0]) + Tail(os[1..]));
    }
  }

  lemma BothGood(a: seq<Token>, b: seq<Token>)
    requires GoodTokens(a) && GoodTokens(b)
    ensures GoodTokens(a + b)
  {
  }

  lemma {:induction false} BareIsGood(e: Expr)
    requires GoodExpr(e)
    ensures GoodTokens(Bare(e))
    decreases e, 0
  {
    match e
    case Or(l, r) =>
      WrittenIsGood(l, 0);
      WrittenIsGood(r, 1);
      BothGood([Kw(KwOr)], Written(r, 1));
    case And(l, r) =>
      WrittenIsGood(l, 1);
      WrittenIsGood(r, 2);
      BothGood([Kw(KwAnd)], Written(r, 2));
    case Not(inner) => WrittenIsGood(inner, 2);
    case Compare(l, op, r) =>
      OperandTokensAreGood(l);
      OperandTokensAreGood(r);
      BothGood([OperatorToken(op)], OperandTokens(r));
    case InExpr(item, collection, negated) =>
      OperandTokensAreGood(item);
      OperandTokensAreGood(collection);
      BothGood(InTokens(negated), OperandTokens(collection));
    case Exists(path) => PathTailIsGood(path[1..]);
  }

  lemma {:induction false} WrittenIsGood(e: Expr, context: nat)
    requires GoodExpr(e)
    ensures GoodTokens(Written(e, context))
    decreases e, 1
  {
    BareIsGood(e);
    BothGood(Bare(e), [RParen]);
  }

  // ---- the round trip -------------------------------------------------------------------------------

  /** Whatever white space separates its tokens, a written tree parses to itself. */
  lemma RoundTrip(e: Expr, gaps: seq<string>)
    requires GoodExpr(e) && Layout(Written(e, 0), gaps)
    ensures Parse(Laid(Written(e, 0), gaps)) == Ok(e)
  {
    WrittenIsGood(e, 0);
    LayoutReadsBack(Written(e, 0), gaps);
    WrittenReadsBack(e, 0, []);
    assert Written(e, 0) + [] == Written(e, 0);
  }

  /** One space around every token. */
  function Render(e: Expr): string
    requires GoodExpr(e)
  {
    Laid(Written(e, 0), Spaces(|Written(e, 0)| + 1))
  }

  function Spaces(n: nat): (gaps: seq<string>)
    ensures |gaps| == n && forall i | 0 <= i < n :: gaps[i] == [' ']
  {
    seq(n, i => [' '])
  }

  lemma SpacesLayOut(ts: seq<Token>)
    ensures Layout(ts, Spaces(|ts| + 1))
  {
    var gaps := Spaces(|ts| + 1);
    forall i | 0 <= i < |gaps| ensures Blank(gaps[i]) && gaps[i] != "" {
    }
  }

  lemma RenderParses(e: Expr)
    requires GoodExpr(e)
    ensures Parse(Render(e)) == Ok(e)
  {
    SpacesLayOut(Written(e, 0));
    RoundTrip(e, Spaces(|Written(e, 0)| + 1));
  }

  // ---- what the parser can produce, and how much it must read for it ------------------------------------

  /** From `before` the parser read a well-formed path, and no fewer tokens than writing it takes. */
  lemma {:induction false} PathLoopReads(parts: seq<string>, ts: seq<Token>)
    requires GoodPath(parts) && GoodTokens(ts)
    ensures var r := PathLoop(parts, ts);
      r.Read? ==> GoodPath(r.value) && GoodTokens(r.rest) && 2 * |r.value| + |r.rest| == 2 * |parts| + |ts|
    decreases |ts|
  {
    if At(ts, Dot) && |ts| > 1 && ts[1].Ident? {
      assert GoodToken(ts[1]);
      PathLoopReads(parts + [ts[1].name], ts[2..]);
    }
  }

  lemma {:induction false} PathSize(parts: seq<string>)
    ensures |PathTail(parts)| == 2 * |parts|
    ensures parts != [] ==> |PathTokens(parts)| == 2 * |parts| - 1
    decreases |parts|
  {
    if parts != [] {
      PathSize(parts[1..]);
    }
  }

  lemma NamesAreQuotable(s: string)
    requires AllWord(s) || GoodToken(DurTok(s))
    ensures Quotable(s)
  {
    if !AllWord(s) {
      var number := s[..|s| - 1];
      var sign := if number[0] == '-' then 1 else 0;
      forall i | 0 <= i < |s| ensures s[i] != '\'' {
        if sign <= i < |number| {
          assert s[i] == number[sign..][i - sign];
        }
      }
    }
  }

  ghost predicate OperandRead(r: Parsed<Operand>, ts: seq<Token>) {
    r.Read? ==> GoodOperand(r.value) && GoodTokens(r.rest) && |OperandTokens(r.value)| + |r.rest| <= |ts|
  }

  lemma {:induction false} OperandReads(ts: seq<Token>)
    requires GoodTokens(ts)
    ensures OperandRead(ParseOperand(ts), ts)
    decreases |ts|, 0
  {
    if ts != [] {
      assert GoodToken(ts[0]);
      match ts[0]
      case DurTok(text) => NamesAreQuotable(text);
      case LBrack => ListReads(ts[1..]);
      case Ident(name) =>
        if At(ts[1..], LParen) {
          FuncReads(name, ts[2..]);
        } else {
          PathLoopReads([name], ts[1..]);
          var path := PathLoop([name], ts[1..]);
          if path.Read? { PathSize(path.value); }
        }
      case _ =>
    }
  }

  lemma {:induction false} TailGrows(os: seq<Operand>, next: Operand)
    requires GoodArgs(os) && GoodOperand(next)
    ensures GoodArgs(os + [next])
    ensures |Tail(os + [next])| == |Tail(os)| + 1 + |OperandTokens(next)|
    decreases |os|
  {
    if os == [] {
      assert os + [next] == [next];
    } else {
      TailGrows(os[1..], next);
      assert (os + [next])[1..] == os[1..] + [next];
    }
  }

  /** Behind the opening bracket of a list or call: its elements, and the closing bracket. */
  ghost predicate ElementsRead(r: Parsed<seq<Operand>>, os: seq<Operand>, ts: seq<Token>)
    requires GoodArgs(os)
  {
    r.Read? ==>
      && GoodArgs(r.value) && GoodTokens(r.rest) && r.value != []
      && |Tail(r.value)| + |r.rest| <= |Tail(os)| + |ts|
  }

  lemma {:induction false} FuncReads(name: string, ts: seq<Token>)
    requires IsName(name) && GoodTokens(ts)
    ensures var r := ParseFunc(name, ts);
      r.Read? ==> GoodOperand(r.value) && GoodTokens(r.rest) && |OperandTokens(r.value)| + |r.rest| <= |ts| + 2
    decreases |ts|, 2
  {
    if !At(ts, RParen) {
      OperandReads(ts);
      var first := ParseOperand(ts);
      if first.Read? {
        TailGrows([], first.value);
        assert [] + [first.value] == [first.value];
        ArgsRead([first.value], first.rest);
      }
    }
  }

  lemma {:induction false} ArgsRead(args: seq<Operand>, ts: seq<Token>)
    requires args != [] && GoodArgs(args) && GoodTokens(ts)
    ensures ElementsRead(ArgsLoop(args, ts), args, ts)
    decreases |ts|, 0
  {
    if At(ts, Comma) {
      OperandReads(ts[1..]);
      var next := ParseOperand(ts[1..]);
      if next.Read? {
        TailGrows(args, next.value);
        ArgsRead(args + [next.value], next.rest);
      }
    }
  }

  lemma {:induction false} ListReads(ts: seq<Token>)
    requires GoodTokens(ts)
    ensures var r := ParseList(ts);
      r.Read? ==> GoodOperand(r.value) && GoodTokens(r.rest) && |OperandTokens(r.value)| + |r.rest| <= |ts| + 1
    decreases |ts|, 2
  {
    if !At(ts, RBrack) {
      ItemReads(ts);
      var first := ParseItem(ts);
      if first.Read? {
        TailGrows([], first.value);
        assert [] + [first.value] == [first.value];
        ItemsRead([first.value], first.rest);
      }
    }
  }

  lemma {:induction false} ItemsRead(items: seq<Operand>, ts: seq<Token>)
    requires items != [] && GoodItems(items) && GoodTokens(ts)
    ensures ElementsRead(ItemsLoop(items, ts), items, ts)
    ensures ItemsLoop(items, ts).Read? ==> GoodItems(ItemsLoop(items, ts).value)
    decreases |ts|, 0
  {
    if At(ts, Comma) {
      ItemReads(ts[1..]);
      var next := ParseItem(ts[1..]);
      if next.Read? {
        TailGrows(items, next.value);
        ItemsRead(items + [next.value], next.rest);
      }
    }
  }

  lemma {:induction false} ItemReads(ts: seq<Token>)
    requires GoodTokens(ts)
    ensures OperandRead(ParseItem(ts), ts)
    ensures ParseItem(ts).Read? ==> IsLiteral(ParseItem(ts).value)
    decreases |ts|, 1
  {
    OperandReads(ts);
    var o := ParseOperand(ts);
    if o.Read? && o.value.Path? && |o.value.parts| == 1 {
      assert IsName(o.value.parts[0]);
      NamesAreQuotable(o.value.parts[0]);
    }
  }

  ghost predicate ExprRead(r: Parsed<Expr>, context: nat, ts: seq<Token>) {
    r.Read? ==> GoodExpr(r.value) && GoodTokens(r.rest) && |Written(r.value, context)| + |r.rest| <= |ts|
  }

  lemma ComparisonReads(ts: seq<Token>)
    requires GoodTokens(ts)
    ensures ExprRead(ParseComparison(ts), 2, ts)
  {
    if At(ts, Kw(KwExists)) {
      if |ts| > 1 && ts[1].Ident? {
        assert GoodToken(ts[1]);
        PathLoopReads([ts[1].name], ts[1..][1..]);
        var path := ParsePath(ts[1..]);
        if path.Read? { PathSize(path.value); }
      }
    } else {
      OperandReads(ts);
      var left := ParseOperand(ts);
      if left.Read? {
        RestReads(left.value, left.rest);
      }
    }
  }

  ghost predicate RestRead(r: Parsed<Expr>, left: Operand, size: nat)
    requires GoodOperand(left)
  {
    r.Read? ==>
      && GoodExpr(r.value) && GoodTokens(r.rest) && Strength(r.value) == 2
      && |Bare(r.value)| + |r.rest| <= |OperandTokens(left)| + size
  }

  lemma CollectionReads(left: Operand, ts: seq<Token>, negated: bool)
    requires GoodOperand(left) && GoodTokens(ts)
    ensures RestRead(ParseCollection(left, ts, negated), left, |ts| + if negated then 2 else 1)
  {
    OperandReads(ts);
  }

  lemma RelationReads(left: Operand, ts: seq<Token>)
    requires GoodOperand(left) && GoodTokens(ts) && ts != [] && (ts[0].OpTok? || ts[0] == Kw(KwMatches))
    ensures RestRead(ParseRest(left, ts), left, |ts|)
  {
    OperandReads(ts[1..]);
  }

  lemma RestReads(left: Operand, ts: seq<Token>)
    requires GoodOperand(left) && GoodTokens(ts)
    ensures RestRead(ParseRest(left, ts), left, |ts|)
  {
    if At(ts, Kw(KwIn)) {
      CollectionReads(left, ts[1..], false);
    } else if At(ts, Kw(KwNot)) {
      if At(ts[1..], Kw(KwIn)) {
        CollectionReads(left, ts[2..], true);
      }
    } else if ts != [] && (ts[0].OpTok? || ts[0] == Kw(KwMatches)) {
      RelationReads(left, ts);
    }
  }

  lemma {:induction false} UnaryReads(ts: seq<Token>)
    requires GoodTokens(ts)
    ensures ExprRead(ParseUnary(ts), 2, ts)
    decreases |ts|, 2
  {
    if At(ts, Kw(KwNot)) {
      UnaryReads(ts[1..]);
    } else if At(ts, LParen) {
      OrReads(ts[1..]);
    } else {
      ComparisonReads(ts);
    }
  }

  lemma {:induction false} AndReads(ts: seq<Token>)
    requires GoodTokens(ts)
    ensures ExprRead(ParseAnd(ts), 1, ts)
    decreases |ts|, 3
  {
    UnaryReads(ts);
    var left := ParseUnary(ts);
    if left.Read? {
      AndLoopReads(left.value, left.rest);
    }
  }

  lemma {:induction false} AndLoopReads(left: Expr, ts: seq<Token>)
    requires GoodExpr(left) && GoodTokens(ts)
    ensures var r := AndLoop(left, ts);
      r.Read? ==> GoodExpr(r.value) && GoodTokens(r.rest)
                  && |Written(r.value, 1)| + |r.rest| <= |Written(left, 1)| + |ts|
    decreases |ts|, 0
  {
    if At(ts, Kw(KwAnd)) {
      UnaryReads(ts[1..]);
      var right := ParseUnary(ts[1..]);
      if right.Read? {
        AndLoopReads(And(left, right.value), right.rest);
      }
    }
  }

  lemma {:induction false} OrReads(ts: seq<Token>)
    requires GoodTokens(ts)
    ensures ExprRead(ParseOr(ts), 0, ts)
    decreases |ts|, 4
  {
    AndReads(ts);
    var left := ParseAnd(ts);
    if left.Read? {
      OrLoopReads(left.value, left.rest);
    }
  }

  lemma {:induction false} OrLoopReads(left: Expr, ts: seq<Token>)
    requires GoodExpr(left) && GoodTokens(ts)
    ensures var r := OrLoop(left, ts);
      r.Read? ==> GoodExpr(r.value) && GoodTokens(r.rest)
                  && |Written(r.value, 0)| + |r.rest| <= |Written(left, 0)| + |ts|
    decreases |ts|, 0
  {
    if At(ts, Kw(KwOr)) {
      AndReads(ts[1..]);
      var right := ParseAnd(ts[1..]);
      if right.Read? {
        OrLoopReads(Or(left, right.value), right.rest);
      }
    }
  }

  /** The well-formed trees are exactly what parsing some text yields. */
  lemma ParsedExactlyGood(e: Expr)
    ensures GoodExpr(e) <==> exists src :: Parse(src) == Ok(e)
  {
    if GoodExpr(e) {
      RenderParses(e);
    }
    forall src | Parse(src) == Ok(e) ensures GoodExpr(e) {
      LexedTokensAreGood(src);
      OrReads(Lex(src).value);
    }
  }

  /** No text that parses to a tree has fewer tokens than the tree as it is written here. */
  lemma WrittenIsShortest(e: Expr, src: string)
    requires Parse(src) == Ok(e)
    ensures GoodExpr(e) && |Written(e, 0)| <= |Lex(src).value|
  {
    LexedTokensAreGood(src);
    OrReads(Lex(src).value);
  }

  /** Writing out a parsed condition and reading it again changes nothing, for every text that parses. */
  lemma NormalForm(src: string)
    requires Parse(src).Ok?
    ensures GoodExpr(Parse(src).value)
    ensures Parse(Render(Parse(src).value)) == Parse(src)
  {
    ParsedExactlyGood(Parse(src).value);
    RenderParses(Parse(src).value);
  }
}
