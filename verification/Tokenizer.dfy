/** The character tokenizer, and the layouts of a token list it reads back. */
module Tokenizer {
  import opened Syntax

  // ---- leading runs of characters ----------------------------------------------------

  function WordRun(s: string): (n: nat)
    ensures n <= |s| && AllWord(s[..n])
    ensures n < |s| ==> !IsWord(s[n])
  {
    if s == "" || !IsWord(s[0]) then 0
    else
      var n := WordRun(s[1..]);
      assert s[..n + 1] == [s[0]] + s[1..][..n];
      n + 1
  }

  function NumericRun(s: string): (n: nat)
    ensures n <= |s| && AllNumeric(s[..n])
    ensures n < |s| ==> !IsNumeric(s[n])
  {
    if s == "" || !IsNumeric(s[0]) then 0
    else
      var n := NumericRun(s[1..]);
      assert s[..n + 1] == [s[0]] + s[1..][..n];
      n + 1
  }

  /** How many characters precede the first `quote`. */
  function QuotedRun(s: string, quote: char): (n: nat)
    ensures n <= |s| && quote !in s[..n]
    ensures n < |s| ==> s[n] == quote
  {
    if s == "" || s[0] == quote then 0
    else
      var n := QuotedRun(s[1..], quote);
      assert s[..n + 1] == [s[0]] + s[1..][..n];
      n + 1
  }

  lemma {:induction false} WordRunOf(w: string, rest: string)
    requires AllWord(w) && (rest == "" || !IsWord(rest[0]))
    ensures WordRun(w + rest) == |w|
  {
    if w == "" {
      assert w + rest == rest;
    } else {
      WordRunOf(w[1..], rest);
      assert (w + rest)[1..] == w[1..] + rest;
    }
  }

  lemma {:induction false} NumericRunOf(w: string, rest: string)
    requires AllNumeric(w) && (rest == "" || !IsNumeric(rest[0]))
    ensures NumericRun(w + rest) == |w|
  {
    if w == "" {
      assert w + rest == rest;
    } else {
      NumericRunOf(w[1..], rest);
      assert (w + rest)[1..] == w[1..] + rest;
    }
  }

  lemma {:induction false} QuotedRunOf(w: string, quote: char, rest: string)
    requires quote !in w && rest != "" && rest[0] == quote
    ensures QuotedRun(w + rest, quote) == |w|
  {
    if w == "" {
      assert w + rest == rest;
    } else {
      QuotedRunOf(w[1..], quote, rest);
      assert (w + rest)[1..] == w[1..] + rest;
    }
  }

  // ---- one token -----------------------------------------------------------------------

  /** A token and how many characters it took. */
  datatype Scan = Scan(token: Token, size: nat)

  function Single(c: char): (t: Result<Token>) {
    if c == '(' then Ok(LParen)
    else if c == ')' then Ok(RParen)
    else if c == '[' then Ok(LBrack)
    else if c == ']' then Ok(RBrack)
    else if c == ',' then Ok(Comma)
    else if c == '.' then Ok(Dot)
    else Err(ConditionError)
  }

  predicate StartsNumber(s: string)
    requires s != ""
  {
    IsDigit(s[0]) || (s[0] == '-' && |s| > 1 && IsDigit(s[1]))
  }

  function ScanOperator(s: string): Result<Scan>
    requires s != ""
  {
    var equals := |s| > 1 && s[1] == '=';
    if s[0] == '=' then if equals then Ok(Scan(OpTok(Eq), 2)) else Err(ConditionError)
    else if s[0] == '!' then if equals then Ok(Scan(OpTok(Ne), 2)) else Err(ConditionError)
    else if s[0] == '<' then Ok(if equals then Scan(OpTok(Le), 2) else Scan(OpTok(Lt), 1))
    else Ok(if equals then Scan(OpTok(Ge), 2) else Scan(OpTok(Gt), 1))
  }

  function ScanString(s: string): Result<Scan>
    requires s != ""
  {
    var n := QuotedRun(s[1..], s[0]);
    if 1 + n >= |s| then Err(ConditionError) else Ok(Scan(StrTok(s[1..1 + n]), n + 2))
  }

  function ScanNumber(s: string): Scan
    requires s != "" && StartsNumber(s)
  {
    var sign := if s[0] == '-' then 1 else 0;
    var n := sign + NumericRun(s[sign..]);
    if n < |s| && IsUnit(s[n]) && !(n + 1 < |s| && IsWord(s[n + 1])) then Scan(DurTok(s[..n + 1]), n + 1)
    else Scan(NumTok(s[..n]), n)
  }

  function ScanToken(s: string): (r: Result<Scan>)
    requires s != "" && !IsSpace(s[0])
    ensures r.Ok? ==> 0 < r.value.size <= |s|
  {
    if Single(s[0]).Ok? then Ok(Scan(Single(s[0]).value, 1))
    else if s[0] == '=' || s[0] == '!' || s[0] == '<' || s[0] == '>' then ScanOperator(s)
    else if s[0] == '\'' || s[0] == '"' then ScanString(s)
    else if StartsNumber(s) then Ok(ScanNumber(s))
    else if IsLetter(s[0]) then Ok(Scan(WordToken(s[..WordRun(s)]), WordRun(s)))
    else Err(ConditionError)
  }

  // ---- the whole text ----------------------------------------------------------------------

  function Lex(s: string): Result<seq<Token>>
    decreases |s|
  {
    if s == "" then Ok([])
    else if IsSpace(s[0]) then Lex(s[1..])
    else
      var scan := ScanToken(s);
      if scan.Err? then Err(scan.error) else Prepend([scan.value.token], Lex(s[scan.value.size..]))
  }

  function Prepend(ts: seq<Token>, rest: Result<seq<Token>>): Result<seq<Token>> {
    if rest.Ok? then Ok(ts + rest.value) else rest
  }

  // The tokenizer as it runs: one index over the text, an inner scan per kind of token, a growing list.

  method ReadOperator(src: string, i: nat) returns (r: Result<Scan>)
    requires i < |src| && (src[i] == '=' || src[i] == '!' || src[i] == '<' || src[i] == '>')
    ensures r == ScanOperator(src[i..])
  {
    var c := src[i];
    var equals := i + 1 < |src| && src[i + 1] == '=';
    if !equals && (c == '=' || c == '!') {
      return Err(ConditionError);
    }
    var op :=
      if c == '=' then Eq
      else if c == '!' then Ne
      else if c == '<' then (if equals then Le else Lt)
      else (if equals then Ge else Gt);
    return Ok(Scan(OpTok(op), if equals then 2 else 1));
  }

  method ReadString(src: string, i: nat) returns (r: Result<Scan>)
    requires i < |src|
    ensures r == ScanString(src[i..])
  {
    var quote := src[i];
    var j := i + 1;
    assert src[i..][1..] == src[j..];
    while j < |src| && src[j] != quote
      invariant i < j <= |src|
      invariant QuotedRun(src[i + 1..], quote) == j - i - 1 + QuotedRun(src[j..], quote)
    {
      assert src[j..][1..] == src[j + 1..];
      j := j + 1;
    }
    if j >= |src| {
      return Err(ConditionError);
    }
    assert src[i..][1..j - i] == src[i + 1..j];
    return Ok(Scan(StrTok(src[i + 1..j]), j + 1 - i));
  }

  method SkipNumeric(src: string, start: nat) returns (j: nat)
    requires start <= |src|
    ensures j == start + NumericRun(src[start..])
  {
    j := start;
    while j < |src| && IsNumeric(src[j])
      invariant start <= j <= |src|
      invariant NumericRun(src[start..]) == j - start + NumericRun(src[j..])
    {
      assert src[j..][1..] == src[j + 1..];
      j := j + 1;
    }
  }

  method ReadNumber(src: string, i: nat) returns (r: Scan)
    requires i < |src| && StartsNumber(src[i..])
    ensures r == ScanNumber(src[i..])
  {
    var j := SkipNumeric(src, if src[i] == '-' then i + 1 else i);
    assert src[i..][if src[i] == '-' then 1 else 0..] == src[if src[i] == '-' then i + 1 else i..];
    var unit := j < |src| && IsUnit(src[j]) && !(j + 1 < |src| && IsWord(src[j + 1]));
    if unit {
      j := j + 1;
    }
    assert src[i..][..j - i] == src[i..j];
    return Scan(if unit then DurTok(src[i..j]) else NumTok(src[i..j]), j - i);
  }

  method ReadWord(src: string, i: nat) returns (r: Scan)
    requires i < |src|
    ensures r == Scan(WordToken(src[i..][..WordRun(src[i..])]), WordRun(src[i..]))
  {
    var j := i;
    while j < |src| && IsWord(src[j])
      invariant i <= j <= |src|
      invariant WordRun(src[i..]) == j - i + WordRun(src[j..])
    {
      assert src[j..][1..] == src[j + 1..];
      j := j + 1;
    }
    assert src[i..][..j - i] == src[i..j];
    return Scan(WordToken(src[i..j]), j - i);
  }

  method ReadToken(src: string, i: nat) returns (r: Result<Scan>)
    requires i < |src| && !IsSpace(src[i])
    ensures r == ScanToken(src[i..])
  {
    var c := src[i];
    if Single(c).Ok? {
      r := Ok(Scan(Single(c).value, 1));
    } else if c == '=' || c == '!' || c == '<' || c == '>' {
      r := ReadOperator(src, i);
    } else if c == '\'' || c == '"' {
      r := ReadString(src, i);
    } else if IsDigit(c) || (c == '-' && i + 1 < |src| && IsDigit(src[i + 1])) {
      var number := ReadNumber(src, i);
      r := Ok(number);
    } else if IsLetter(c) {
      var word := ReadWord(src, i);
      r := Ok(word);
    } else {
      r := Err(ConditionError);
    }
  }

  method Tokenize(src: string) returns (r: Result<seq<Token>>)
    ensures r == Lex(src)
  {
    var tokens: seq<Token> := [];
    var i := 0;
    ghost var rest := LexAt(src, 0);
    PrependNothing(rest);
    assert src[0..] == src;
    while i < |src|
      invariant 0 <= i <= |src|
      invariant rest == LexAt(src, i) && Lex(src) == Prepend(tokens, rest)
    {
      if IsSpace(src[i]) {
        LexSpace(src, i);
        i := i + 1;
      } else {
        var scan := ReadToken(src, i);
        LexToken(src, i, scan);
        if scan.Err? {
          return Err(scan.error);
        }
        i := i + scan.value.size;
        rest := LexAt(src, i);
        PrependTwice(tokens, scan.value.token, rest);
        tokens := tokens + [scan.value.token];
      }
    }
    assert tokens + [] == tokens;
    return Ok(tokens);
  }

  ghost function LexAt(src: string, i: nat): Result<seq<Token>>
    requires i <= |src|
  {
    Lex(src[i..])
  }

  lemma LexSpace(src: string, i: nat)
    requires i < |src| && IsSpace(src[i])
    ensures LexAt(src, i) == LexAt(src, i + 1)
  {
    assert src[i..][1..] == src[i + 1..];
  }

  lemma LexToken(src: string, i: nat, scan: Result<Scan>)
    requires i < |src| && !IsSpace(src[i]) && scan == ScanToken(src[i..])
    ensures scan.Err? ==> LexAt(src, i) == Err(scan.error)
    ensures scan.Ok? ==>
      && i + scan.value.size <= |src|
      && LexAt(src, i) == Prepend([scan.value.token], LexAt(src, i + scan.value.size))
  {
    if scan.Ok? {
      assert src[i..][scan.value.size..] == src[i + scan.value.size..];
    }
  }

  lemma PrependNothing(rest: Result<seq<Token>>)
    ensures Prepend([], rest) == rest
  {
    if rest.Ok? {
      assert [] + rest.value == rest.value;
    }
  }

  lemma PrependTwice(ts: seq<Token>, t: Token, rest: Result<seq<Token>>)
    ensures Prepend(ts, Prepend([t], rest)) == Prepend(ts + [t], rest)
  {
    if rest.Ok? {
      assert ts + ([t] + rest.value) == ts + [t] + rest.value;
    }
  }

  // ---- what the tokenizer can produce ---------------------------------------------------------

  /** Every token read from any text is well-formed. */
  lemma {:induction false} LexedTokensAreGood(s: string)
    ensures Lex(s).Ok? ==> GoodTokens(Lex(s).value)
    decreases |s|
  {
    if s == "" {
    } else if IsSpace(s[0]) {
      LexedTokensAreGood(s[1..]);
    } else {
      var scan := ScanToken(s);
      if scan.Ok? {
        ScannedIsGood(s);
        LexedTokensAreGood(s[scan.value.size..]);
      }
    }
  }

  lemma ScannedIsGood(s: string)
    requires s != "" && !IsSpace(s[0])
    ensures ScanToken(s).Ok? ==> GoodToken(ScanToken(s).value.token)
  {
    if s[0] == '\'' || s[0] == '"' {
      var n := QuotedRun(s[1..], s[0]);
      assert s[1..][..n] == s[1..1 + n];
    } else if StartsNumber(s) {
      NumberIsGood(s);
    } else if IsLetter(s[0]) {
      WordIsGood(s[..WordRun(s)]);
    }
  }

  lemma NumberIsGood(s: string)
    requires s != "" && StartsNumber(s)
    ensures GoodToken(ScanNumber(s).token)
  {
    var sign := if s[0] == '-' then 1 else 0;
    var n := sign + NumericRun(s[sign..]);
    var text := s[..n];
    assert text[sign..] == s[sign..][..n - sign];
    assert IsNumber(text);
    if ScanNumber(s).token.DurTok? {
      assert s[..n + 1][..n] == text;
    }
  }

  lemma WordIsGood(word: string)
    requires word != "" && AllWord(word) && IsLetter(word[0])
    ensures GoodToken(WordToken(word))
  {
  }

  // ---- writing tokens as characters --------------------------------------------------------------

  function OperatorText(op: Operator): string {
    match op
    case Eq => "=="
    case Ne => "!="
    case Lt => "<"
    case Le => "<="
    case Gt => ">"
    case Ge => ">="
    case Matches => "matches"
  }

  function Quoted(s: string): string {
    if '\'' !in s then "'" + s + "'" else "\"" + s + "\""
  }

  function Spelling(t: Token): string {
    match t
    case OpTok(op) => OperatorText(op)
    case LParen => "("
    case RParen => ")"
    case LBrack => "["
    case RBrack => "]"
    case Comma => ","
    case Dot => "."
    case StrTok(s) => Quoted(s)
    case NumTok(text) => text
    case DurTok(text) => text
    case BoolTok(b) => if b then "true" else "false"
    case Kw(kw) => KeywordText(kw)
    case Ident(name) => name
  }

  /** Whether `c`, right behind the token, would be read as part of it. */
  predicate RunsInto(t: Token, c: char) {
    match t
    case OpTok(op) => (op == Lt || op == Gt) && c == '='
    case NumTok(_) => IsWord(c) || c == '.'
    case DurTok(_) => IsWord(c)
    case BoolTok(_) => IsWord(c)
    case Kw(_) => IsWord(c)
    case Ident(_) => IsWord(c)
    case _ => false
  }

  /** A number or a name reads on; any other token ends by itself. */
  predicate Separable(t: Token, rest: string) {
    rest == "" || !RunsInto(t, rest[0])
  }

  lemma ScanSpelling(t: Token, rest: string)
    requires GoodToken(t) && Separable(t, rest)
    ensures var s := Spelling(t) + rest;
      s != "" && !IsSpace(s[0]) && ScanToken(s) == Ok(Scan(t, |Spelling(t)|))
  {
    var s := Spelling(t) + rest;
    match t
    case StrTok(text) => ScanQuoted(text, rest);
    case NumTok(text) => ScanNumberText(text, rest);
    case DurTok(text) => ScanDurationText(text, rest);
    case BoolTok(_) => ScanWord(Spelling(t), rest);
    case Kw(kw) => KeywordIsWord(kw); ScanWord(Spelling(t), rest);
    case Ident(name) => ScanWord(name, rest);
    case OpTok(op) =>
      assert s[0] == Spelling(t)[0];
      if |Spelling(t)| == 2 { assert s[1] == Spelling(t)[1]; } else if rest != "" { assert s[1] == rest[0]; }
    case _ => assert s[0] == Spelling(t)[0];
  }

  lemma KeywordIsWord(kw: Keyword)
    ensures var w := KeywordText(kw); w != "" && IsLetter(w[0]) && AllWord(w) && WordToken(w) == Kw(kw)
  {
  }

  lemma ScanWord(w: string, rest: string)
    requires w != "" && IsLetter(w[0]) && AllWord(w)
    requires rest == "" || !IsWord(rest[0])
    ensures ScanToken(w + rest) == Ok(Scan(WordToken(w), |w|))
  {
    WordRunOf(w, rest);
    assert (w + rest)[..|w|] == w;
    assert (w + rest)[0] == w[0];
  }

  lemma ScanQuoted(text: string, rest: string)
    requires Quotable(text)
    ensures ScanToken(Quoted(text) + rest) == Ok(Scan(StrTok(text), |Quoted(text)|))
  {
    var quote := Quoted(text)[0];
    var tail := [quote] + rest;
    assert Quoted(text) + rest == [quote] + (text + tail);
    QuotedRunOf(text, quote, tail);
    QuoteScanned([quote] + (text + tail), text, tail);
  }

  lemma QuoteScanned(s: string, text: string, tail: string)
    requires tail != [] && (tail[0] == '\'' || tail[0] == '"') && s == [tail[0]] + (text + tail)
    requires QuotedRun(text + tail, tail[0]) == |text|
    ensures ScanToken(s) == Ok(Scan(StrTok(text), |text| + 2))
  {
    assert s[1..] == text + tail && s[1..1 + |text|] == text;
  }

  lemma ScanNumberText(text: string, rest: string)
    requires IsNumber(text) && (rest == "" || !(IsWord(rest[0]) || rest[0] == '.'))
    ensures ScanToken(text + rest) == Ok(Scan(NumTok(text), |text|))
  {
    var s := text + rest;
    var sign := if text[0] == '-' then 1 else 0;
    assert s[0] == text[0] && (sign == 1 ==> s[1] == text[1]);
    assert s[sign..] == text[sign..] + rest;
    NumericRunOf(text[sign..], rest);
    assert s[..|text|] == text;
    if rest != "" { assert s[|text|] == rest[0]; }
  }

  lemma ScanDurationText(text: string, rest: string)
    requires GoodToken(DurTok(text)) && (rest == "" || !IsWord(rest[0]))
    ensures ScanToken(text + rest) == Ok(Scan(DurTok(text), |text|))
  {
    var s := text + rest;
    var n := |text| - 1;
    var number, unit := text[..n], [text[n]];
    NumericThenUnit(number, unit, rest, if number[0] == '-' then 1 else 0);
    assert s == number + (unit + rest);
    assert s[..n + 1] == text && s[n] == unit[0];
    if rest != "" { assert s[n + 1] == rest[0]; }
    UnitScanned(s, n);
  }

  lemma UnitScanned(s: string, n: nat)
    requires s != "" && StartsNumber(s) && n < |s| && IsUnit(s[n]) && (n + 1 < |s| ==> !IsWord(s[n + 1]))
    requires n == if s[0] == '-' then 1 + NumericRun(s[1..]) else NumericRun(s)
    ensures ScanToken(s) == Ok(Scan(DurTok(s[..n + 1]), n + 1))
  {
    assert s[0..] == s;
  }

  lemma NumericThenUnit(number: string, unit: string, rest: string, sign: nat)
    requires IsNumber(number) && |unit| == 1 && IsUnit(unit[0]) && sign == if number[0] == '-' then 1 else 0
    ensures var s := number + (unit + rest);
      StartsNumber(s) && s[0] == number[0] && sign + NumericRun(s[sign..]) == |number|
  {
    var s := number + (unit + rest);
    assert s[0] == number[0] && (sign == 1 ==> s[1] == number[1]);
    assert s[sign..] == number[sign..] + (unit + rest);
    NumericRunOf(number[sign..], unit + rest);
  }

  // ---- any layout reads back -------------------------------------------------------------------------

  predicate Blank(s: string) {
    forall i | 0 <= i < |s| :: IsSpace(s[i])
  }

  /** The tokens in order, each behind its own stretch of white space, then a last stretch. */
  function Laid(ts: seq<Token>, gaps: seq<string>): string
    requires |gaps| == |ts| + 1
    decreases |ts|
  {
    if ts == [] then gaps[0] else gaps[0] + (Spelling(ts[0]) + Laid(ts[1..], gaps[1..]))
  }

  /** Only white space between tokens, and some of it wherever two neighbours would run together. */
  predicate Layout(ts: seq<Token>, gaps: seq<string>) {
    && |gaps| == |ts| + 1
    && (forall i | 0 <= i < |gaps| :: Blank(gaps[i]))
    && (forall i | 0 < i < |ts| && gaps[i] == "" :: Apart(ts[i - 1], ts[i]))
  }

  predicate Apart(t: Token, next: Token) {
    Spelling(next) != "" && !RunsInto(t, Spelling(next)[0])
  }

  lemma {:induction false} SkipBlank(gap: string, rest: string)
    requires Blank(gap)
    ensures Lex(gap + rest) == Lex(rest)
  {
    if gap == "" {
      assert gap + rest == rest;
    } else {
      SkipBlank(gap[1..], rest);
      assert (gap + rest)[1..] == gap[1..] + rest;
    }
  }

  /** Every layout of a well-formed token list is read back as that list. */
  lemma {:induction false} LayoutReadsBack(ts: seq<Token>, gaps: seq<string>)
    requires GoodTokens(ts) && Layout(ts, gaps)
    ensures Lex(Laid(ts, gaps)) == Ok(ts)
    decreases |ts|
  {
    if ts == [] {
      SkipBlank(gaps[0], "");
      assert gaps[0] + "" == gaps[0];
    } else {
      var rest := Laid(ts[1..], gaps[1..]);
      var s := Spelling(ts[0]) + rest;
      SkipBlank(gaps[0], s);
      RestIsApart(ts, gaps);
      ScanSpelling(ts[0], rest);
      assert s[|Spelling(ts[0])|..] == rest;
      LayoutReadsBack(ts[1..], gaps[1..]);
      assert [ts[0]] + ts[1..] == ts;
    }
  }

  lemma RestIsApart(ts: seq<Token>, gaps: seq<string>)
    requires ts != [] && GoodTokens(ts) && Layout(ts, gaps)
    ensures Separable(ts[0], Laid(ts[1..], gaps[1..]))
    ensures Layout(ts[1..], gaps[1..])
  {
    var rest := Laid(ts[1..], gaps[1..]);
    if gaps[1] != "" {
      assert IsSpace(gaps[1][0]);
      assert rest[0] == gaps[1][0];
    } else if |ts| > 1 {
      assert Apart(ts[0], ts[1]);
      assert rest[0] == Spelling(ts[1])[0];
    }
  }
}
