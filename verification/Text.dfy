/** Dotted paths as text: splitting and joining on '.'. */
module Text {

  /** `path.split(".")`: always at least one part, none containing a dot. */
  function SplitDots(path: string): (parts: seq<string>)
    ensures parts != []
  {
    if path == "" then [""]
    else
      var rest := SplitDots(path[1..]);
      if path[0] == '.' then [""] + rest
      else [[path[0]] + rest[0]] + rest[1..]
  }

  /** `".".join(parts)`. */
  function JoinDots(parts: seq<string>): string {
    if parts == [] then ""
    else if |parts| == 1 then parts[0]
    else parts[0] + "." + JoinDots(parts[1..])
  }

  predicate Dotless(part: string) {
    '.' !in part
  }

  lemma {:induction false} SplitOne(part: string, rest: string)
    requires Dotless(part)
    ensures SplitDots(part) == [part]
    ensures SplitDots(part + "." + rest) == [part] + SplitDots(rest)
    decreases part
  {
    if part == "" {
      assert part + "." + rest == "." + rest;
      assert ("." + rest)[1..] == rest;
    } else {
      assert part[0] in part;
      assert Dotless(part[1..]) by {
        assert forall c | c in part[1..] :: c in part;
      }
      SplitOne(part[1..], rest);
      assert (part + "." + rest)[1..] == part[1..] + "." + rest;
      assert [part[0]] + part[1..] == part;
    }
  }

  /** Joining a parsed path's parts and splitting the text again loses nothing. */
  lemma {:induction false} SplitJoin(parts: seq<string>)
    requires parts != [] && forall part | part in parts :: Dotless(part)
    ensures SplitDots(JoinDots(parts)) == parts
    decreases parts
  {
    assert parts[0] in parts;
    if |parts| == 1 {
      SplitOne(parts[0], "");
    } else {
      SplitOne(parts[0], JoinDots(parts[1..]));
      assert forall part | part in parts[1..] :: part in parts;
      SplitJoin(parts[1..]);
    }
  }
}
