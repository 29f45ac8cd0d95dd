/** Splitting a CREATE TABLE's column block: the matching parenthesis, then the top-level commas. */
module DdlSplitter {

  // ---- parenthesis depth ------------------------------------------------------------------------

  function Weight(c: char): int {
    if c == '(' then 1 else if c == ')' then -1 else 0
  }

  /** Opening parentheses less closing ones. */
  function Depth(s: string): int {
    if s == "" then 0 else Weight(s[0]) + Depth(s[1..])
  }

  /** No prefix closes more than it opened. */
  ghost predicate NeverBelow(s: string) {
    forall n | 0 <= n <= |s| :: Depth(s[..n]) >= 0
  }

  ghost predicate Balanced(s: string) {
    Depth(s) == 0 && NeverBelow(s)
  }

  lemma {:induction false} DepthAdds(a: string, b: string)
    ensures Depth(a + b) == Depth(a) + Depth(b)
  {
    if a == "" {
      assert a + b == b;
    } else {
      DepthAdds(a[1..], b);
      assert (a + b)[1..] == a[1..] + b;
    }
  }

  lemma DepthSnoc(s: string, n: nat)
    requires n < |s|
    ensures Depth(s[..n + 1]) == Depth(s[..n]) + Weight(s[n])
  {
    assert s[..n + 1] == s[..n] + [s[n]];
    DepthAdds(s[..n], [s[n]]);
    assert [s[n]][1..] == "";
  }

  // ---- the block ------------------------------------------------------------------------------------

  /** `close` is the parenthesis that matches the one at `open`. */
  ghost predicate Closes(ddl: string, open: nat, close: nat) {
    && open < close < |ddl| && ddl[open] == '(' && ddl[close] == ')'
    && Balanced(ddl[open + 1..close])
  }

  /** The text between the parenthesis at `open` and its match, or all the rest when nothing matches it. */
  method TableBlock(ddl: string, open: nat) returns (block: string, close: nat)
    requires open < |ddl| && ddl[open] == '('
    ensures close < |ddl| ==> Closes(ddl, open, close) && block == ddl[open + 1..close]
    ensures close == |ddl| ==> block == ddl[open + 1..] && NeverBelow(block) && forall c: nat :: !Closes(ddl, open, c)
    ensures open < close <= |ddl|
  {
    var depth := 0;
    ghost var rest := ddl[open + 1..];
    for i := open to |ddl|
      invariant i > open ==> depth == 1 + Depth(rest[..i - open - 1])
      invariant i == open ==> depth == 0
      invariant forall n | 0 <= n < i - open :: Depth(rest[..n]) >= 0
    {
      if i > open { DepthSnoc(rest, i - open - 1); }
      if ddl[i] == '(' {
        depth := depth + 1;
      } else if ddl[i] == ')' {
        depth := depth - 1;
        if depth == 0 {
          block, close := ddl[open + 1..i], i;
          assert block == rest[..i - open - 1];
          PrefixesOf(rest, block);
          return;
        }
      }
    }
    block, close := ddl[open + 1..], |ddl|;
    forall c: nat ensures !Closes(ddl, open, c) {
      if open < c < |ddl| && ddl[c] == ')' {
        assert ddl[open + 1..c] == rest[..c - open - 1];
        NotClosedHere(rest, c - open - 1);
      }
    }
  }

  lemma NotClosedHere(rest: string, n: nat)
    requires NeverBelow(rest) && n < |rest| && rest[n] == ')'
    ensures Depth(rest[..n]) != 0
  {
    DepthSnoc(rest, n);
  }

  /** A parenthesis has at most one match. */
  lemma MatchIsUnique(ddl: string, open: nat, a: nat, b: nat)
    requires Closes(ddl, open, a) && Closes(ddl, open, b)
    ensures a == b
  {
    if a < b {
      ClosedBefore(ddl, open, a, b);
    } else if b < a {
      ClosedBefore(ddl, open, b, a);
    }
  }

  lemma ClosedBefore(ddl: string, open: nat, a: nat, b: nat)
    requires Closes(ddl, open, a) && a < b < |ddl|
    ensures !Balanced(ddl[open + 1..b])
  {
    var block, n := ddl[open + 1..b], a - open - 1;
    assert block[..n] == ddl[open + 1..a];
    DepthSnoc(block, n);
    assert Depth(block[..n + 1]) == -1;
  }

  lemma PrefixesOf(rest: string, block: string)
    requires block <= rest && forall n | 0 <= n <= |block| :: Depth(rest[..n]) >= 0
    ensures NeverBelow(block)
  {
    forall n | 0 <= n <= |block| ensures Depth(block[..n]) >= 0 {
      assert block[..n] == rest[..n];
    }
  }

  // ---- the columns ------------------------------------------------------------------------------------

  /** Whether the character at `i` is a comma outside every parenthesis. */
  predicate TopComma(s: string, i: nat)
    requires i < |s|
  {
    s[i] == ',' && Depth(s[..i]) == 0
  }

  ghost predicate NoTopComma(s: string) {
    forall i | 0 <= i < |s| :: !TopComma(s, i)
  }

  function Joined(parts: seq<string>): string {
    if parts == [] then "" else if |parts| == 1 then parts[0] else parts[0] + "," + Joined(parts[1..])
  }

  /** The pieces so far, `current` being the last: what the loop holds after reading some text. */
  ghost predicate Pieces(read: string, parts: seq<string>, current: string) {
    && Joined(parts + [current]) == read
    && (forall p | p in parts :: NoTopComma(p) && Depth(p) == 0)
    && NoTopComma(current) && Depth(current) == Depth(read)
  }

  lemma {:induction false} JoinedSnoc(parts: seq<string>, last: string)
    requires parts != []
    ensures Joined(parts + [last]) == Joined(parts) + "," + last
  {
    if |parts| == 1 {
      assert (parts + [last])[1..] == [last];
    } else {
      JoinedSnoc(parts[1..], last);
      assert (parts + [last])[1..] == parts[1..] + [last];
      assert parts[0] + "," + (Joined(parts[1..]) + "," + last) == parts[0] + "," + Joined(parts[1..]) + "," + last;
    }
  }

  lemma {:induction false} JoinedGrows(parts: seq<string>, current: string, c: string)
    ensures Joined(parts + [current + c]) == Joined(parts + [current]) + c
  {
    if parts == [] {
      assert parts + [current + c] == [current + c] && parts + [current] == [current];
    } else {
      JoinedSnoc(parts, current + c);
      JoinedSnoc(parts, current);
      assert Joined(parts) + "," + (current + c) == Joined(parts) + "," + current + c;
    }
  }

  lemma CutAtComma(read: string, parts: seq<string>, current: string)
    requires Pieces(read, parts, current) && Depth(read) == 0
    ensures Pieces(read + ",", parts + [current], "")
  {
    JoinedSnoc(parts + [current], "");
    assert read + "," + "" == read + ",";
    DepthAdds(read, ",");
    assert Depth(",") == 0 by { assert ","[1..] == ""; }
  }

  lemma ReadOn(read: string, parts: seq<string>, current: string, c: char)
    requires Pieces(read, parts, current) && !(c == ',' && Depth(read) == 0)
    ensures Pieces(read + [c], parts, current + [c])
  {
    JoinedGrows(parts, current, [c]);
    DepthAdds(read, [c]);
    DepthAdds(current, [c]);
    var longer := current + [c];
    forall i | 0 <= i < |longer| ensures !TopComma(longer, i) {
      if i < |current| {
        assert longer[..i] == current[..i] && !TopComma(current, i);
      } else {
        assert longer[..i] == current;
      }
    }
  }

  /** Cut at the top-level commas and nowhere else; only the last part may be left open. */
  ghost predicate IsSplit(raw: seq<string>, block: string) {
    && raw != [] && Joined(raw) == block
    && (forall i | 0 <= i < |raw| :: NoTopComma(raw[i]))
    && (forall i | 0 <= i < |raw| - 1 :: Depth(raw[i]) == 0)
  }

  function DropEmptyLast(raw: seq<string>): seq<string>
    requires raw != []
  {
    if raw[|raw| - 1] == "" then raw[..|raw| - 1] else raw
  }

  /** The loop over the characters; a last part that is empty is not appended. */
  method RawParts(block: string) returns (parts: seq<string>)
    ensures exists raw :: IsSplit(raw, block) && parts == DropEmptyLast(raw)
  {
    parts := [];
    var depth := 0;
    var current := "";
    assert Joined([""]) == "" && block[..0] == "";
    for i := 0 to |block|
      invariant depth == Depth(block[..i]) && Pieces(block[..i], parts, current)
    {
      DepthSnoc(block, i);
      assert block[..i + 1] == block[..i] + [block[i]];
      var c := block[i];
      if c == '(' { depth := depth + 1; } else if c == ')' { depth := depth - 1; }
      if c == ',' && depth == 0 {
        CutAtComma(block[..i], parts, current);
        parts := parts + [current];
        current := "";
      } else {
        ReadOn(block[..i], parts, current, c);
        current := current + [c];
      }
    }
    assert block[..|block|] == block;
    ghost var raw := parts + [current];
    if current != "" {
      parts := parts + [current];
    }
    assert IsSplit(raw, block) && parts == DropEmptyLast(raw);
  }

  lemma JoinedHead(parts: seq<string>)
    requires parts != []
    ensures |parts[0]| <= |Joined(parts)| && Joined(parts)[..|parts[0]|] == parts[0]
    ensures |parts| > 1 ==> |parts[0]| < |Joined(parts)| && Joined(parts)[|parts[0]|] == ','
    ensures |parts| > 1 ==> Joined(parts)[|parts[0]| + 1..] == Joined(parts[1..])
  {
  }

  /** A first part longer than another split's would hold that split's comma. */
  lemma LongerHeadHasComma(a: seq<string>, b: seq<string>)
    requires a != [] && b != [] && Joined(a) == Joined(b) && |a| > 1 && Depth(a[0]) == 0
    ensures |b[0]| > |a[0]| ==> TopComma(b[0], |a[0]|)
  {
    JoinedHead(a);
    JoinedHead(b);
    if |b[0]| > |a[0]| {
      assert b[0][..|a[0]|] == Joined(a)[..|a[0]|];
    }
  }

  /** A text can be split in one way only, so the loop's cuts are the top-level commas. */
  lemma {:induction false} SplitIsUnique(a: seq<string>, b: seq<string>, block: string)
    requires IsSplit(a, block) && IsSplit(b, block)
    ensures a == b
    decreases |a|
  {
    if |a| > 1 { LongerHeadHasComma(a, b); }
    if |b| > 1 { LongerHeadHasComma(b, a); }
    HeadsAgree(a, b, block);
    if |a| > 1 {
      var rest := block[|a[0]| + 1..];
      JoinedHead(a);
      JoinedHead(b);
      SplitIsUnique(a[1..], b[1..], rest);
      assert a == [a[0]] + a[1..] && b == [b[0]] + b[1..];
    }
  }

  lemma HeadsAgree(a: seq<string>, b: seq<string>, block: string)
    requires a != [] && b != [] && Joined(a) == block == Joined(b)
    requires |a| > 1 ==> |b[0]| <= |a[0]|
    requires |b| > 1 ==> |a[0]| <= |b[0]|
    ensures a[0] == b[0] && (|a| > 1 <==> |b| > 1)
  {
    JoinedHead(a);
    JoinedHead(b);
  }

  // ---- strip and filter -----------------------------------------------------------------------------------

  predicate Blank(c: char) {
    c == ' ' || c == '\t' || c == '\n' || c == '\r'
  }

  function StripLeft(s: string): string {
    if s != "" && Blank(s[0]) then StripLeft(s[1..]) else s
  }

  function StripRight(s: string): string {
    if s != "" && Blank(s[|s| - 1]) then StripRight(s[..|s| - 1]) else s
  }

  function Strip(s: string): string {
    StripRight(StripLeft(s))
  }

  function Cleaned(parts: seq<string>): seq<string> {
    if parts == [] then []
    else (if Strip(parts[0]) == "" then [] else [Strip(parts[0])]) + Cleaned(parts[1..])
  }

  const WHITE := " \t\n\r"

  /** `core` between blanks: it begins and ends with none. */
  ghost predicate Framed(s: string, left: string, core: string, right: string) {
    && s == left + core + right
    && (forall i | 0 <= i < |left| :: left[i] in WHITE) && (forall i | 0 <= i < |right| :: right[i] in WHITE)
    && (core != "" ==> core[0] !in WHITE && core[|core| - 1] !in WHITE)
  }

  lemma BlankIsWhite(c: char)
    ensures Blank(c) <==> c in WHITE
  {
    assert WHITE[0] == ' ' && WHITE[1] == '\t' && WHITE[2] == '\n' && WHITE[3] == '\r';
  }

  /** Stripping takes the blanks at both ends and nothing else. */
  lemma StripTakesTheFrame(s: string, left: string, core: string, right: string)
    requires Framed(s, left, core, right)
    ensures Strip(s) == core
  {
    if core == "" {
      assert s == (left + right) + "";
      LeftIsTaken(left + right, "");
      assert s == left + right;
    } else {
      assert s == left + (core + right);
      LeftIsTaken(left, core + right);
      BlankIsWhite(core[0]);
      RightIsTaken(core, right);
    }
  }

  lemma {:induction false} LeftIsTaken(left: string, rest: string)
    requires forall i | 0 <= i < |left| :: left[i] in WHITE
    requires rest != "" ==> rest[0] !in WHITE
    ensures StripLeft(left + rest) == rest
  {
    if left == "" {
      assert left + rest == rest;
      if rest != "" { BlankIsWhite(rest[0]); }
    } else {
      BlankIsWhite(left[0]);
      assert (left + rest)[1..] == left[1..] + rest;
      LeftIsTaken(left[1..], rest);
    }
  }

  lemma {:induction false} RightIsTaken(core: string, right: string)
    requires forall i | 0 <= i < |right| :: right[i] in WHITE
    requires core != "" && core[|core| - 1] !in WHITE
    ensures StripRight(core + right) == core
    decreases |right|
  {
    if right == "" {
      assert core + right == core;
      BlankIsWhite(core[|core| - 1]);
    } else {
      var init := right[..|right| - 1];
      BlankIsWhite(right[|right| - 1]);
      assert (core + right)[..|core + right| - 1] == core + init;
      RightIsTaken(core, init);
    }
  }

  /** The columns are the stripped parts in order, less those that are nothing but blanks. */
  lemma {:induction false} PartsAreCleanedInOrder(a: seq<string>, b: seq<string>)
    ensures Cleaned(a + b) == Cleaned(a) + Cleaned(b)
  {
    if a == [] {
      assert a + b == b;
    } else {
      PartsAreCleanedInOrder(a[1..], b);
      assert (a + b)[1..] == a[1..] + b;
      ColumnsRegrouped(if Strip(a[0]) == "" then [] else [Strip(a[0])], Cleaned(a[1..]), Cleaned(b));
    }
  }

  lemma ColumnsRegrouped(a: seq<string>, b: seq<string>, c: seq<string>)
    ensures a + (b + c) == a + b + c
  {
  }

  lemma OnePartIsStripped(part: string, left: string, core: string, right: string)
    requires Framed(part, left, core, right)
    ensures Cleaned([part]) == if core == "" then [] else [core]
  {
    StripTakesTheFrame(part, left, core, right);
    assert [part][1..] == [];
  }

  lemma {:induction false} TrailingEmptyIsNothing(parts: seq<string>)
    ensures Cleaned(parts + [""]) == Cleaned(parts)
  {
    if parts == [] {
      assert [""][1..] == [];
    } else {
      TrailingEmptyIsNothing(parts[1..]);
      assert (parts + [""])[1..] == parts[1..] + [""];
    }
  }

  method CleanEach(parts: seq<string>) returns (columns: seq<string>)
    ensures columns == Cleaned(parts)
  {
    columns := [];
    assert parts[0..] == parts && [] + Cleaned(parts) == Cleaned(parts);
    for i := 0 to |parts|
      invariant Cleaned(parts) == columns + Cleaned(parts[i..])
    {
      assert parts[i..][1..] == parts[i + 1..];
      var stripped := Strip(parts[i]);
      if stripped != "" { columns := columns + [stripped]; }
    }
  }

  method SplitColumns(block: string) returns (columns: seq<string>)
    ensures exists raw :: IsSplit(raw, block) && columns == Cleaned(raw)
  {
    var parts := RawParts(block);
    columns := CleanEach(parts);
    ghost var raw :| IsSplit(raw, block) && parts == DropEmptyLast(raw);
    if raw[|raw| - 1] == "" {
      TrailingEmptyIsNothing(parts);
      assert raw == parts + [""];
    }
  }

  // ---- a table written out is read back ----------------------------------------------------------------------

  /** A column definition as a dump writes it: balanced, with its commas inside parentheses, and no outer blanks. */
  ghost predicate Column(s: string) {
    Balanced(s) && NoTopComma(s) && s != "" && Strip(s) == s
  }

  lemma {:induction false} JoinedBalanced(columns: seq<string>)
    requires forall i | 0 <= i < |columns| :: Balanced(columns[i])
    ensures Balanced(Joined(columns))
  {
    if |columns| == 0 {
      assert forall n | 0 <= n <= 0 :: ""[..n] == "";
    } else if |columns| > 1 {
      var rest := Joined(columns[1..]);
      JoinedBalanced(columns[1..]);
      assert "," + rest == [','] + rest;
      BalancedBoth(",", rest);
      BalancedBoth(columns[0], "," + rest);
      assert columns[0] + "," + rest == columns[0] + ("," + rest);
    }
  }

  lemma BalancedBoth(a: string, b: string)
    requires (Balanced(a) || a == ",") && Balanced(b)
    ensures Balanced(a + b)
  {
    if a == "," { CommaIsBalanced(); }
    DepthAdds(a, b);
    forall n | 0 <= n <= |a + b| ensures Depth((a + b)[..n]) >= 0 {
      if n <= |a| {
        assert (a + b)[..n] == a[..n];
      } else {
        assert (a + b)[..n] == a + b[..n - |a|];
        DepthAdds(a, b[..n - |a|]);
      }
    }
  }

  lemma CommaIsBalanced()
    ensures Balanced(",")
  {
    assert ","[1..] == "" && ","[..0] == "" && ","[..1] == ",";
  }

  lemma {:induction false} CleanedColumns(columns: seq<string>)
    requires forall i | 0 <= i < |columns| :: Column(columns[i])
    ensures Cleaned(columns) == columns
  {
    if columns != [] {
      CleanedColumns(columns[1..]);
      assert columns == [columns[0]] + columns[1..];
    }
  }

  /** A block that never closes more than it opened has only such parts. */
  lemma {:induction false} PartsNeverBelow(raw: seq<string>, block: string)
    requires IsSplit(raw, block) && NeverBelow(block)
    ensures forall i | 0 <= i < |raw| :: NeverBelow(raw[i])
    ensures Depth(raw[|raw| - 1]) == Depth(block)
    decreases |raw|
  {
    var head := raw[0];
    JoinedHead(raw);
    forall n | 0 <= n <= |head| ensures Depth(head[..n]) >= 0 {
      assert head[..n] == block[..n];
    }
    if |raw| > 1 {
      var rest, before := block[|head| + 1..], block[..|head| + 1];
      DepthSnoc(block, |head|);
      assert Depth(before) == 0;
      forall n | 0 <= n <= |rest| ensures Depth(rest[..n]) >= 0 {
        assert block[..|head| + 1 + n] == before + rest[..n];
        DepthAdds(before, rest[..n]);
      }
      assert block == before + rest;
      DepthAdds(before, rest);
      PartsNeverBelow(raw[1..], rest);
      assert forall i | 1 <= i < |raw| :: raw[i] == raw[1..][i - 1];
    }
  }

  /** Splitting keeps the nesting: the block is balanced if and only if each of its parts is. */
  lemma PartsBalanced(raw: seq<string>, block: string)
    requires IsSplit(raw, block)
    ensures Balanced(block) <==> forall i | 0 <= i < |raw| :: Balanced(raw[i])
  {
    if Balanced(block) {
      PartsNeverBelow(raw, block);
    }
    if forall i | 0 <= i < |raw| :: Balanced(raw[i]) {
      JoinedBalanced(raw);
    }
  }

  /** The columns of the table whose parenthesis stands at `open`; on a block that was closed every part is balanced. */
  method TableColumns(ddl: string, open: nat) returns (columns: seq<string>, close: nat)
    requires open < |ddl| && ddl[open] == '('
    ensures open < close <= |ddl|
    ensures close < |ddl| <==> exists c: nat :: Closes(ddl, open, c)
    ensures close < |ddl| ==> Closes(ddl, open, close)
    ensures exists raw ::
              && IsSplit(raw, ddl[open + 1..close]) && columns == Cleaned(raw)
              && (close < |ddl| ==> forall i | 0 <= i < |raw| :: Balanced(raw[i]))
  {
    var block;
    block, close := TableBlock(ddl, open);
    assert block == ddl[open + 1..close];
    columns := SplitColumns(block);
    ghost var raw :| IsSplit(raw, block) && columns == Cleaned(raw);
    PartsBalanced(raw, block);
  }

  /** Whatever stands before and after the table, its columns are found again, each whole and in order. */
  method ReadTable(before: string, columns: seq<string>, after: string) returns (found: seq<string>)
    requires columns != [] && forall i | 0 <= i < |columns| :: Column(columns[i])
    ensures found == columns
  {
    var ddl := before + "(" + Joined(columns) + ")" + after;
    var open, close := |before|, |before| + 1 + |Joined(columns)|;
    assert ddl[open] == '(' && ddl[close] == ')' && ddl[open + 1..close] == Joined(columns);
    JoinedBalanced(columns);
    assert Closes(ddl, open, close);
    var at;
    found, at := TableColumns(ddl, open);
    MatchIsUnique(ddl, open, at, close);
    ghost var block := ddl[open + 1..close];
    ghost var raw :| IsSplit(raw, block) && found == Cleaned(raw);
    assert IsSplit(columns, block);
    SplitIsUnique(raw, columns, block);
    CleanedColumns(columns);
  }
}
