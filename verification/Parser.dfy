/** The recursive-descent parser: a reference on the remaining tokens, and the object with a position. */
module Parser {
  import opened Syntax
  import opened Tokenizer

  /** What was read, and the tokens left. */
  datatype Parsed<+T> = Read(value: T, rest: seq<Token>) | Bad(error: Problem)

  // ---- the reference: functions of the remaining tokens ------------------------------------

  predicate At(ts: seq<Token>, t: Token) {
    ts != [] && ts[0] == t
  }

  function ParseOr(ts: seq<Token>): (r: Parsed<Expr>)
    ensures r.Read? ==> |r.rest| < |ts|
    decreases |ts|, 4
  {
    var left := ParseAnd(ts);
    if left.Bad? then left else OrLoop(left.value, left.rest)
  }

  function OrLoop(left: Expr, ts: seq<Token>): (r: Parsed<Expr>)
    ensures r.Read? ==> |r.rest| <= |ts|
    decreases |ts|, 0
  {
    if !At(ts, Kw(KwOr)) then Read(left, ts)
    else
      var right := ParseAnd(ts[1..]);
      if right.Bad? then right else OrLoop(Or(left, right.value), right.rest)
  }

  function ParseAnd(ts: seq<Token>): (r: Parsed<Expr>)
    ensures r.Read? ==> |r.rest| < |ts|
    decreases |ts|, 3
  {
    var left := ParseUnary(ts);
    if left.Bad? then left else AndLoop(left.value, left.rest)
  }

  function AndLoop(left: Expr, ts: seq<Token>): (r: Parsed<Expr>)
    ensures r.Read? ==> |r.rest| <= |ts|
    decreases |ts|, 0
  {
    if !At(ts, Kw(KwAnd)) then Read(left, ts)
    else
      var right := ParseUnary(ts[1..]);
      if right.Bad? then right else AndLoop(And(left, right.value), right.rest)
  }

  function ParseUnary(ts: seq<Token>): (r: Parsed<Expr>)
    ensures r.Read? ==> |r.rest| < |ts|
    decreases |ts|, 2
  {
    if At(ts, Kw(KwNot)) then
      var inner := ParseUnary(ts[1..]);
      if inner.Bad? then inner else Read(Not(inner.value), inner.rest)
    else if At(ts, LParen) then
      var inner := ParseOr(ts[1..]);
      if inner.Bad? then inner
      else if !At(inner.rest, RParen) then Bad(ConditionError)
      else Read(inner.value, inner.rest[1..])
    else ParseComparison(ts)
  }

  function ParseComparison(ts: seq<Token>): (r: Parsed<Expr>)
    ensures r.Read? ==> |r.rest| < |ts|
  {
    if At(ts, Kw(KwExists)) then
      var path := ParsePath(ts[1..]);
      if path.Bad? then Bad(path.error) else Read(Exists(path.value), path.rest)
    else
      var left := ParseOperand(ts);
      if left.Bad? then Bad(left.error) else ParseRest(left.value, left.rest)
  }

  /** The operator and the right-hand side; `in` takes a list or any other operand. */
  function ParseRest(left: Operand, ts: seq<Token>): (r: Parsed<Expr>)
    ensures r.Read? ==> |r.rest| < |ts|
  {
    if At(ts, Kw(KwIn)) then ParseCollection(left, ts[1..], false)
    else if At(ts, Kw(KwNot)) then
      if At(ts[1..], Kw(KwIn)) then ParseCollection(left, ts[2..], true) else Bad(ConditionError)
    else if ts != [] && (ts[0].OpTok? || ts[0] == Kw(KwMatches)) then
      var right := ParseOperand(ts[1..]);
      if right.Bad? then Bad(right.error)
      else Read(Compare(left, if ts[0].OpTok? then ts[0].op else Matches, right.value), right.rest)
    else Bad(ConditionError)
  }

  function ParseCollection(left: Operand, ts: seq<Token>, negated: bool): (r: Parsed<Expr>)
    ensures r.Read? ==> |r.rest| < |ts|
  {
    var right := ParseOperand(ts);
    if right.Bad? then Bad(right.error) else Read(InExpr(left, right.value, negated), right.rest)
  }

  function ParsePath(ts: seq<Token>): (r: Parsed<seq<string>>)
    ensures r.Read? ==> |r.rest| < |ts|
  {
    if ts != [] && ts[0].Ident? then PathLoop([ts[0].name], ts[1..]) else Bad(ConditionError)
  }

  function PathLoop(parts: seq<string>, ts: seq<Token>): (r: Parsed<seq<string>>)
    ensures r.Read? ==> |r.rest| <= |ts|
    decreases |ts|
  {
    if !At(ts, Dot) then Read(parts, ts)
    else if |ts| > 1 && ts[1].Ident? then PathLoop(parts + [ts[1].name], ts[2..])
    else Bad(ConditionError)
  }

  function ParseOperand(ts: seq<Token>): (r: Parsed<Operand>)
    ensures r.Read? ==> |r.rest| < |ts|
    decreases |ts|, 0
  {
    if ts == [] then Bad(ConditionError)
    else
      match ts[0]
      case StrTok(s) => Read(StrLit(s), ts[1..])
      case NumTok(text) => if Converts(text) then Read(NumLit(text), ts[1..]) else Bad(BadNumber)
      case DurTok(text) => Read(StrLit(text), ts[1..])
      case BoolTok(b) => Read(BoolLit(b), ts[1..])
      case LBrack => ParseList(ts[1..])
      case Ident(name) =>
        if At(ts[1..], LParen) then ParseFunc(name, ts[2..])
        else
          var path := PathLoop([name], ts[1..]);
          if path.Bad? then Bad(path.error) else Read(Path(path.value), path.rest)
      case _ => Bad(ConditionError)
  }

  /** Behind the opening parenthesis. */
  function ParseFunc(name: string, ts: seq<Token>): (r: Parsed<Operand>)
    ensures r.Read? ==> |r.rest| < |ts|
    decreases |ts|, 2
  {
    if At(ts, RParen) then Read(Func(name, []), ts[1..])
    else
      var first := ParseOperand(ts);
      if first.Bad? then first
      else
        var args := ArgsLoop([first.value], first.rest);
        if args.Bad? then Bad(args.error)
        else if !At(args.rest, RParen) then Bad(ConditionError)
        else Read(Func(name, args.value), args.rest[1..])
  }

  function ArgsLoop(args: seq<Operand>, ts: seq<Token>): (r: Parsed<seq<Operand>>)
    ensures r.Read? ==> |r.rest| <= |ts|
    decreases |ts|, 0
  {
    if !At(ts, Comma) then Read(args, ts)
    else
      var next := ParseOperand(ts[1..]);
      if next.Bad? then Bad(next.error) else ArgsLoop(args + [next.value], next.rest)
  }

  /** Behind the opening bracket. */
  function ParseList(ts: seq<Token>): (r: Parsed<Operand>)
    ensures r.Read? ==> |r.rest| < |ts|
    decreases |ts|, 2
  {
    if At(ts, RBrack) then Read(ListLit([]), ts[1..])
    else
      var first := ParseItem(ts);
      if first.Bad? then first
      else
        var items := ItemsLoop([first.value], first.rest);
        if items.Bad? then Bad(items.error)
        else if !At(items.rest, RBrack) then Bad(ConditionError)
        else Read(ListLit(items.value), items.rest[1..])
  }

  function ItemsLoop(items: seq<Operand>, ts: seq<Token>): (r: Parsed<seq<Operand>>)
    ensures r.Read? ==> |r.rest| <= |ts|
    decreases |ts|, 0
  {
    if !At(ts, Comma) then Read(items, ts)
    else
      var next := ParseItem(ts[1..]);
      if next.Bad? then Bad(next.error) else ItemsLoop(items + [next.value], next.rest)
  }

  /** A literal, or a bare name standing for one. */
  function ParseItem(ts: seq<Token>): (r: Parsed<Operand>)
    ensures r.Read? ==> |r.rest| < |ts|
    decreases |ts|, 1
  {
    var o := ParseOperand(ts);
    if o.Bad? || IsLiteral(o.value) then o
    else if o.value.Path? && |o.value.parts| == 1 then Read(StrLit(o.value.parts[0]), o.rest)
    else Bad(ConditionError)
  }

  function ParseTokens(ts: seq<Token>): Result<Expr> {
    var e := ParseOr(ts);
    if e.Bad? then Err(e.error) else if e.rest == [] then Ok(e.value) else Err(ConditionError)
  }

  function Parse(src: string): Result<Expr> {
    var ts := Lex(src);
    if ts.Err? then Err(ts.error) else ParseTokens(ts.value)
  }

  // ---- the parser object ---------------------------------------------------------------------

  /** A token as the parser sees it: the list closes with one `eof`. */
  datatype Slot = Tok(token: Token) | Eof

  class RecursiveDescent {
    const slots: seq<Slot>
    ghost const tokens: seq<Token>
    var pos: nat

    /** The position never passes the closing `eof`. */
    ghost predicate Valid()
      reads this`pos
    {
      && pos <= |tokens| == |slots| - 1
      && slots[|tokens|] == Eof
      && (forall i | 0 <= i < |tokens| :: slots[i] == Tok(tokens[i]))
    }

    /** The tokens not yet read. */
    ghost function Left(): (ts: seq<Token>)
      requires Valid()
      reads this`pos
    {
      tokens[pos..]
    }

    constructor (tokens: seq<Token>)
      ensures Valid() && Left() == tokens && pos == 0
    {
      slots := seq(|tokens|, i requires 0 <= i < |tokens| => Tok(tokens[i])) + [Eof];
      this.tokens := tokens;
      pos := 0;
    }

    method Peek() returns (s: Slot)
      requires Valid()
      ensures s == if Left() == [] then Eof else Tok(Left()[0])
    {
      s := slots[pos];
    }

    predicate Sees(t: Token)
      requires pos < |slots|
      reads this`pos
    {
      slots[pos] == Tok(t)
    }

    method Advance()
      requires Valid() && Left() != []
      modifies this`pos
      ensures Valid() && Left() == old(Left())[1..]
    {
      pos := pos + 1;
    }

    /** Whether the object read what the reference reads and stands where it stands. */
    ghost predicate Agrees<T>(r: Result<T>, p: Parsed<T>)
      reads this`pos
    {
      && Valid()
      && match p
         case Read(value, rest) => r == Ok(value) && Left() == rest
         case Bad(error) => r == Err(error)
    }

    method ParseAll() returns (r: Result<Expr>)
      requires Valid()
      modifies this`pos
      ensures Valid() && r == ParseTokens(old(Left()))
    {
      r := OrExpr();
      if r.Ok? {
        var next := Peek();
        if next != Eof {
          r := Err(ConditionError);
        }
      }
    }

    method OrExpr() returns (r: Result<Expr>)
      requires Valid()
      modifies this`pos
      ensures Agrees(r, ParseOr(old(Left())))
      decreases |Left()|, 4
    {
      r := AndExpr();
      if r.Err? { return; }
      while Sees(Kw(KwOr))
        invariant Valid() && r.Ok? && |Left()| < |old(Left())|
        invariant ParseOr(old(Left())) == OrLoop(r.value, Left())
        decreases |Left()|
      {
        var left := r.value;
        Advance();
        r := AndExpr();
        if r.Err? { return; }
        r := Ok(Or(left, r.value));
      }
    }

    method AndExpr() returns (r: Result<Expr>)
      requires Valid()
      modifies this`pos
      ensures Agrees(r, ParseAnd(old(Left())))
      decreases |Left()|, 3
    {
      r := Unary();
      if r.Err? { return; }
      while Sees(Kw(KwAnd))
        invariant Valid() && r.Ok? && |Left()| < |old(Left())|
        invariant ParseAnd(old(Left())) == AndLoop(r.value, Left())
        decreases |Left()|
      {
        var left := r.value;
        Advance();
        r := Unary();
        if r.Err? { return; }
        r := Ok(And(left, r.value));
      }
    }

    method Unary() returns (r: Result<Expr>)
      requires Valid()
      modifies this`pos
      ensures Agrees(r, ParseUnary(old(Left())))
      decreases |Left()|, 2
    {
      if Sees(Kw(KwNot)) {
        Advance();
        r := Unary();
        if r.Ok? { r := Ok(Not(r.value)); }
      } else if Sees(LParen) {
        Advance();
        r := OrExpr();
        if r.Ok? {
          if Sees(RParen) { Advance(); } else { r := Err(ConditionError); }
        }
      } else {
        r := Comparison();
      }
    }

    method Comparison() returns (r: Result<Expr>)
      requires Valid()
      modifies this`pos
      ensures Agrees(r, ParseComparison(old(Left())))
      decreases |Left()|, 1
    {
      if Sees(Kw(KwExists)) {
        Advance();
        var path := DottedPath();
        r := if path.Ok? then Ok(Exists(path.value)) else Err(path.error);
        return;
      }
      var left := AnOperand();
      if left.Err? { return Err(left.error); }
      var negated := Sees(Kw(KwNot));
      if negated {
        Advance();
        if !Sees(Kw(KwIn)) { return Err(ConditionError); }
      }
      if Sees(Kw(KwIn)) {
        Advance();
        var collection := AnOperand();
        r := if collection.Ok? then Ok(InExpr(left.value, collection.value, negated)) else Err(collection.error);
        return;
      }
      var next := Peek();
      if next == Tok(Kw(KwMatches)) || (next.Tok? && next.token.OpTok?) {
        Advance();
        var right := AnOperand();
        r := if right.Ok?
             then Ok(Compare(left.value, if next.token.OpTok? then next.token.op else Matches, right.value))
             else Err(right.error);
      } else {
        r := Err(ConditionError);
      }
    }

    method AnOperand() returns (r: Result<Operand>)
      requires Valid()
      modifies this`pos
      ensures Agrees(r, ParseOperand(old(Left())))
      decreases |Left()|, 0
    {
      var next := Peek();
      if next == Eof { return Err(ConditionError); }
      match next.token {
        case StrTok(s) => Advance(); r := Ok(StrLit(s));
        case NumTok(text) => Advance(); r := if Converts(text) then Ok(NumLit(text)) else Err(BadNumber);
        case DurTok(text) => Advance(); r := Ok(StrLit(text));
        case BoolTok(b) => Advance(); r := Ok(BoolLit(b));
        case LBrack => Advance(); r := ListBody();
        case Ident(name) =>
          Advance();
          if Sees(LParen) {
            Advance();
            r := FuncBody(name);
          } else {
            var path := PathBody(name);
            r := if path.Ok? then Ok(Path(path.value)) else Err(path.error);
          }
        case _ => r := Err(ConditionError);
      }
    }

    method DottedPath() returns (r: Result<seq<string>>)
      requires Valid()
      modifies this`pos
      ensures Agrees(r, ParsePath(old(Left())))
    {
      var next := Peek();
      if next.Tok? && next.token.Ident? {
        Advance();
        r := PathBody(next.token.name);
      } else {
        r := Err(ConditionError);
      }
    }

    method PathBody(first: string) returns (r: Result<seq<string>>)
      requires Valid()
      modifies this`pos
      ensures Agrees(r, PathLoop([first], old(Left())))
    {
      var parts := [first];
      while Sees(Dot)
        invariant Valid()
        invariant PathLoop([first], old(Left())) == PathLoop(parts, Left())
        decreases |Left()|
      {
        Advance();
        var next := Peek();
        if next == Eof || !next.token.Ident? { return Err(ConditionError); }
        Advance();
        parts := parts + [next.token.name];
      }
      return Ok(parts);
    }

    method FuncBody(name: string) returns (r: Result<Operand>)
      requires Valid()
      modifies this`pos
      ensures Agrees(r, ParseFunc(name, old(Left())))
      decreases |Left()|, 2
    {
      var args: seq<Operand> := [];
      if !Sees(RParen) {
        var first := AnOperand();
        if first.Err? { return first; }
        args := [first.value];
        ghost var after := Left();
        while Sees(Comma)
          invariant Valid() && |Left()| < |old(Left())|
          invariant ArgsLoop([first.value], after) == ArgsLoop(args, Left())
          decreases |Left()|
        {
          Advance();
          var next := AnOperand();
          if next.Err? { return next; }
          args := args + [next.value];
        }
      }
      if !Sees(RParen) { return Err(ConditionError); }
      Advance();
      r := Ok(Func(name, args));
    }

    method ListBody() returns (r: Result<Operand>)
      requires Valid()
      modifies this`pos
      ensures Agrees(r, ParseList(old(Left())))
      decreases |Left()|, 2
    {
      var items: seq<Operand> := [];
      if !Sees(RBrack) {
        var first := Item();
        if first.Err? { return first; }
        items := [first.value];
        ghost var after := Left();
        while Sees(Comma)
          invariant Valid() && |Left()| < |old(Left())|
          invariant ItemsLoop([first.value], after) == ItemsLoop(items, Left())
          decreases |Left()|
        {
          Advance();
          var next := Item();
          if next.Err? { return next; }
          items := items + [next.value];
        }
      }
      if !Sees(RBrack) { return Err(ConditionError); }
      Advance();
      r := Ok(ListLit(items));
    }

    method Item() returns (r: Result<Operand>)
      requires Valid()
      modifies this`pos
      ensures Agrees(r, ParseItem(old(Left())))
      decreases |Left()|, 1
    {
      r := AnOperand();
      if r.Ok? && !IsLiteral(r.value) {
        r := if r.value.Path? && |r.value.parts| == 1 then Ok(StrLit(r.value.parts[0])) else Err(ConditionError);
      }
    }
  }

  /** Tokenize, then parse: the language's entry point. */
  method ParseText(src: string) returns (r: Result<Expr>)
    ensures r == Parse(src)
  {
    var tokens := Tokenize(src);
    if tokens.Err? { return Err(tokens.error); }
    var parser := new RecursiveDescent(tokens.value);
    r := parser.ParseAll();
  }
}
