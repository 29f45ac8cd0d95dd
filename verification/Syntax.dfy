/** The condition language's tokens and trees, and how a tree is written with as few parentheses as possible. */
module Syntax {

  datatype Result<+T> = Ok(value: T) | Err(error: Problem)

  /** A `ConditionError`, or the `ValueError` that a number with two dots raises while it is converted. */
  datatype Problem = ConditionError | BadNumber

  datatype Operator = Eq | Ne | Lt | Le | Gt | Ge | Matches

  datatype Keyword = KwAnd | KwOr | KwNot | KwIn | KwExists | KwMatches

  /** The final `eof` token is the end of the sequence. */
  datatype Token =
    | OpTok(op: Operator)
    | LParen | RParen | LBrack | RBrack | Comma | Dot
    | StrTok(s: string)
    | NumTok(text: string)
    | DurTok(text: string)
    | BoolTok(b: bool)
    | Kw(kw: Keyword)
    | Ident(name: string)

  /** A number keeps its text; a duration is a string literal. */
  datatype Operand =
    | Path(parts: seq<string>)
    | StrLit(s: string)
    | NumLit(text: string)
    | BoolLit(b: bool)
    | ListLit(items: seq<Operand>)
    | Func(name: string, args: seq<Operand>)

  datatype Expr =
    | Or(left: Expr, right: Expr)
    | And(left: Expr, right: Expr)
    | Not(expr: Expr)
    | Compare(lhs: Operand, op: Operator, rhs: Operand)
    | InExpr(item: Operand, collection: Operand, negated: bool)
    | Exists(path: seq<string>)

  // ---- characters --------------------------------------------------------------

  predicate IsSpace(c: char) {
    c == ' ' || c == '\t' || c == '\n' || c == '\r'
  }

  predicate IsDigit(c: char) {
    '0' <= c <= '9'
  }

  predicate IsLetter(c: char) {
    'a' <= c <= 'z' || 'A' <= c <= 'Z' || c == '_'
  }

  predicate IsWord(c: char) {
    IsLetter(c) || IsDigit(c)
  }

  predicate IsNumeric(c: char) {
    IsDigit(c) || c == '.'
  }

  predicate IsUnit(c: char) {
    c == 's' || c == 'm' || c == 'h' || c == 'd'
  }

  // ---- words ---------------------------------------------------------------------

  function KeywordText(kw: Keyword): string {
    match kw
    case KwAnd => "and"
    case KwOr => "or"
    case KwNot => "not"
    case KwIn => "in"
    case KwExists => "exists"
    case KwMatches => "matches"
  }

  function WordToken(word: string): Token {
    if word == "true" then BoolTok(true)
    else if word == "false" then BoolTok(false)
    else if word == "and" then Kw(KwAnd)
    else if word == "or" then Kw(KwOr)
    else if word == "not" then Kw(KwNot)
    else if word == "in" then Kw(KwIn)
    else if word == "exists" then Kw(KwExists)
    else if word == "matches" then Kw(KwMatches)
    else Ident(word)
  }

  predicate AllWord(s: string) {
    forall i | 0 <= i < |s| :: IsWord(s[i])
  }

  predicate IsName(s: string) {
    s != "" && IsLetter(s[0]) && AllWord(s) && WordToken(s) == Ident(s)
  }

  predicate AllNumeric(s: string) {
    forall i | 0 <= i < |s| :: IsNumeric(s[i])
  }

  /** An optional sign, a digit, then digits and dots. */
  predicate IsNumber(s: string) {
    if s != "" && s[0] == '-' then |s| > 1 && IsDigit(s[1]) && AllNumeric(s[1..])
    else s != "" && IsDigit(s[0]) && AllNumeric(s)
  }

  function Dots(s: string): nat {
    if s == "" then 0 else (if s[0] == '.' then 1 else 0) + Dots(s[1..])
  }

  /** The longest run of decimal digits the source's `int` reads by default. */
  const MAX_INT_DIGITS := 4300

  /** Whether the text of a number token converts: `float` reads it if it has a dot, and otherwise `int`. */
  predicate Converts(text: string) {
    || Dots(text) == 1
    || (Dots(text) == 0 && |text| <= MAX_INT_DIGITS + (if text != "" && text[0] == '-' then 1 else 0))
  }

  /** A string literal has no escapes, so it lacks one of the two quotes. */
  predicate Quotable(s: string) {
    '\'' !in s || '"' !in s
  }

  // ---- well-formed tokens and trees -------------------------------------------------

  predicate GoodToken(t: Token) {
    match t
    case OpTok(op) => op != Matches
    case StrTok(s) => Quotable(s)
    case NumTok(text) => IsNumber(text)
    case DurTok(text) => |text| > 1 && IsNumber(text[..|text| - 1]) && IsUnit(text[|text| - 1])
    case Ident(name) => IsName(name)
    case _ => true
  }

  predicate GoodTokens(ts: seq<Token>) {
    forall i | 0 <= i < |ts| :: GoodToken(ts[i])
  }

  predicate GoodPath(parts: seq<string>) {
    parts != [] && forall i | 0 <= i < |parts| :: IsName(parts[i])
  }

  predicate IsLiteral(o: Operand) {
    o.StrLit? || o.NumLit? || o.BoolLit? || o.ListLit?
  }

  predicate GoodOperand(o: Operand) {
    match o
    case Path(parts) => GoodPath(parts)
    case StrLit(s) => Quotable(s)
    case NumLit(text) => IsNumber(text) && Converts(text)
    case BoolLit(_) => true
    case ListLit(items) => forall i | 0 <= i < |items| :: IsLiteral(items[i]) && GoodOperand(items[i])
    case Func(name, args) => IsName(name) && forall i | 0 <= i < |args| :: GoodOperand(args[i])
  }

  predicate GoodExpr(e: Expr) {
    match e
    case Or(l, r) => GoodExpr(l) && GoodExpr(r)
    case And(l, r) => GoodExpr(l) && GoodExpr(r)
    case Not(inner) => GoodExpr(inner)
    case Compare(l, _, r) => GoodOperand(l) && GoodOperand(r)
    case InExpr(item, collection, _) => GoodOperand(item) && GoodOperand(collection)
    case Exists(path) => GoodPath(path)
  }

  // ---- writing a tree ------------------------------------------------------------------

  function PathTokens(parts: seq<string>): seq<Token>
    requires parts != []
  {
    [Ident(parts[0])] + PathTail(parts[1..])
  }

  function PathTail(parts: seq<string>): seq<Token> {
    if parts == [] then [] else [Dot, Ident(parts[0])] + PathTail(parts[1..])
  }

  function OperandTokens(o: Operand): seq<Token>
    requires GoodOperand(o)
    decreases o, 0
  {
    match o
    case Path(parts) => PathTokens(parts)
    case StrLit(s) => [StrTok(s)]
    case NumLit(text) => [NumTok(text)]
    case BoolLit(b) => [BoolTok(b)]
    case ListLit(items) => [LBrack] + (Separated(items) + [RBrack])
    case Func(name, args) => [Ident(name), LParen] + (Separated(args) + [RParen])
  }

  predicate GoodArgs(args: seq<Operand>) {
    forall i | 0 <= i < |args| :: GoodOperand(args[i])
  }

  function Separated(os: seq<Operand>): seq<Token>
    requires GoodArgs(os)
    decreases os, 2
  {
    if os == [] then [] else OperandTokens(os[0]) + Tail(os[1..])
  }

  function Tail(os: seq<Operand>): seq<Token>
    requires GoodArgs(os)
    decreases os, 1
  {
    if os == [] then [] else [Comma] + (OperandTokens(os[0]) + Tail(os[1..]))
  }

  function OperatorToken(op: Operator): Token {
    if op == Matches then Kw(KwMatches) else OpTok(op)
  }

  function InTokens(negated: bool): seq<Token> {
    if negated then [Kw(KwNot), Kw(KwIn)] else [Kw(KwIn)]
  }

  /** How tightly the outermost connective binds: `or` 0, `and` 1, everything else 2. */
  function Strength(e: Expr): nat {
    match e
    case Or(_, _) => 0
    case And(_, _) => 1
    case _ => 2
  }

  function Bare(e: Expr): seq<Token>
    requires GoodExpr(e)
    decreases e, 0
  {
    match e
    case Or(l, r) => Written(l, 0) + ([Kw(KwOr)] + Written(r, 1))
    case And(l, r) => Written(l, 1) + ([Kw(KwAnd)] + Written(r, 2))
    case Not(inner) => [Kw(KwNot)] + Written(inner, 2)
    case Compare(l, op, r) => OperandTokens(l) + ([OperatorToken(op)] + OperandTokens(r))
    case InExpr(item, collection, negated) =>
      OperandTokens(item) + (InTokens(negated) + OperandTokens(collection))
    case Exists(path) => [Kw(KwExists)] + PathTokens(path)
  }

  /** Parentheses only where a weaker connective stands inside a stronger one. */
  function Written(e: Expr, context: nat): seq<Token>
    requires GoodExpr(e)
    decreases e, 1
  {
    if Strength(e) < context then [LParen] + (Bare(e) + [RParen]) else Bare(e)
  }
}
