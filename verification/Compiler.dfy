/** Policy compilation: the indexed matcher against a scan of the rules, and the merged gate sets. */
module Compiler {
  import opened Vocabulary

  /** What one allow or deny entry names under a kind. */
  datatype Target = Star | Tokens(names: seq<string>) | Named(actions: map<string, seq<string>>)

  datatype Grant = Grant(kind: Kind, target: Target)

  /** How specifically a rule matched. */
  datatype Specificity = ByStar | ByResource | ByAction

  function Rank(s: Option<Specificity>): nat {
    match s
    case None => 0
    case Some(ByStar) => 1
    case Some(ByResource) => 2
    case Some(ByAction) => 3
  }

  function Max(a: Option<Specificity>, b: Option<Specificity>): Option<Specificity> {
    if Rank(a) < Rank(b) then b else a
  }

  // ---- the meaning of a rule list: a direct scan ------------------------------------------------

  predicate NamesAction(g: Grant, kind: Kind, resource: string, action: Option<string>) {
    && g.kind == kind && action.Some?
    && match g.target
       case Star => false
       case Tokens(names) => action.value in names
       case Named(actions) => resource in actions && action.value in actions[resource]
  }

  predicate NamesResource(g: Grant, kind: Kind, resource: string) {
    g.kind == kind && g.target.Tokens? && resource in g.target.names
  }

  predicate NamesAll(g: Grant, kind: Kind) {
    g.kind == kind && g.target.Star?
  }

  function MatchOf(g: Grant, kind: Kind, resource: string, action: Option<string>): Option<Specificity> {
    if NamesAction(g, kind, resource, action) then Some(ByAction)
    else if NamesResource(g, kind, resource) then Some(ByResource)
    else if NamesAll(g, kind) then Some(ByStar)
    else None
  }

  /** The best of all the rules, one by one. */
  function Scan(rules: seq<Grant>, kind: Kind, resource: string, action: Option<string>): Option<Specificity> {
    if rules == [] then None
    else Max(MatchOf(rules[0], kind, resource, action), Scan(rules[1..], kind, resource, action))
  }

  /** The scan's answer is attained by some rule and by none exceeded, so it does not depend on their order. */
  lemma {:induction false} ScanIsTheMaximum(rules: seq<Grant>, kind: Kind, resource: string, action: Option<string>)
    ensures var best := Scan(rules, kind, resource, action);
      && (forall g | g in rules :: Rank(MatchOf(g, kind, resource, action)) <= Rank(best))
      && (best.Some? ==> exists g :: g in rules && MatchOf(g, kind, resource, action) == best)
  {
    if rules != [] {
      var rest := rules[1..];
      ScanIsTheMaximum(rest, kind, resource, action);
      assert forall g :: g in rules <==> g == rules[0] || g in rest;
      assert rules[0] in rules;
    }
  }

  lemma SameRulesSameAnswer(a: seq<Grant>, b: seq<Grant>, kind: Kind, resource: string, action: Option<string>)
    requires forall g :: g in a <==> g in b
    ensures Scan(a, kind, resource, action) == Scan(b, kind, resource, action)
  {
    ScanIsTheMaximum(a, kind, resource, action);
    ScanIsTheMaximum(b, kind, resource, action);
    assert forall x, y :: Rank(x) == Rank(y) ==> x == y;
  }

  lemma {:induction false} ScanOfBoth(a: seq<Grant>, b: seq<Grant>, kind: Kind, resource: string, action: Option<string>)
    ensures Scan(a + b, kind, resource, action) == Max(Scan(a, kind, resource, action), Scan(b, kind, resource, action))
  {
    if a == [] {
      assert a + b == b;
    } else {
      ScanOfBoth(a[1..], b, kind, resource, action);
      assert (a + b)[1..] == a[1..] + b;
    }
  }

  // ---- the index, filled in place -----------------------------------------------------------------

  datatype KindIndex = KindIndex(star: bool, tokens: set<string>, named: map<string, set<string>>)

  const EMPTY := KindIndex(false, {}, map[])

  predicate NamedIn(at: KindIndex, resource: string, action: string) {
    resource in at.named && action in at.named[resource]
  }

  predicate HasToken(g: Grant, kind: Kind, token: string) {
    g.kind == kind && g.target.Tokens? && token in g.target.names
  }

  predicate HasPair(g: Grant, kind: Kind, resource: string, action: string) {
    g.kind == kind && g.target.Named? && resource in g.target.actions && action in g.target.actions[resource]
  }

  /** One kind's index holds the union of that kind's rules. */
  ghost predicate Says(at: KindIndex, rules: seq<Grant>, kind: Kind) {
    && (at.star <==> exists g :: g in rules && NamesAll(g, kind))
    && (forall token :: token in at.tokens <==> exists g :: g in rules && HasToken(g, kind, token))
    && (forall resource, action :: NamedIn(at, resource, action) <==>
          exists g :: g in rules && HasPair(g, kind, resource, action))
  }

  function Indexed(at: KindIndex, target: Target): KindIndex {
    match target
    case Star => at.(star := true)
    case Tokens(names) => at.(tokens := at.tokens + set n | n in names)
    case Named(actions) => at.(named := Joined(at.named, actions))
  }

  function Joined(named: map<string, set<string>>, actions: map<string, seq<string>>): map<string, set<string>> {
    map r | r in named.Keys + actions.Keys ::
      (if r in named then named[r] else {}) + (if r in actions then set n | n in actions[r] else {})
  }

  lemma IndexedSays(at: KindIndex, rules: seq<Grant>, g: Grant, kind: Kind)
    requires Says(at, rules, kind)
    ensures Says(if g.kind == kind then Indexed(at, g.target) else at, rules + [g], kind)
  {
    var all := rules + [g];
    var next := if g.kind == kind then Indexed(at, g.target) else at;
    assert g in all && forall x :: x in all <==> x in rules || x == g;
    forall token ensures token in next.tokens <==> exists x :: x in all && HasToken(x, kind, token) {
      assert token in next.tokens <==> token in at.tokens || HasToken(g, kind, token);
    }
    forall resource, action
      ensures NamedIn(next, resource, action) <==> exists x :: x in all && HasPair(x, kind, resource, action)
    {
      assert NamedIn(next, resource, action) <==> NamedIn(at, resource, action) || HasPair(g, kind, resource, action);
    }
  }

  class KindMatcher {
    var byKind: map<Kind, KindIndex>
    /** Every grant added so far, in order. */
    ghost var rules: seq<Grant>

    /** The index says of each kind what the rules added so far say. */
    ghost predicate Valid()
      reads this
    {
      forall kind :: Says(Index(kind), rules, kind)
    }

    function Index(kind: Kind): KindIndex
      reads this`byKind
    {
      if kind in byKind then byKind[kind] else EMPTY
    }

    constructor ()
      ensures Valid() && rules == []
    {
      byKind, rules := map[], [];
    }

    method Add(g: Grant)
      requires Valid()
      modifies this
      ensures Valid() && rules == old(rules) + [g]
    {
      byKind := byKind[g.kind := Indexed(Index(g.kind), g.target)];
      rules := rules + [g];
      forall kind ensures Says(Index(kind), rules, kind) {
        IndexedSays(old(Index(kind)), old(rules), g, kind);
      }
    }

    method Match(kind: Kind, resource: string, action: Option<string>) returns (best: Option<Specificity>)
      requires Valid()
      ensures best == Scan(rules, kind, resource, action)
    {
      best := None;
      if kind in byKind {
        var at := byKind[kind];
        if at.star { best := Some(ByStar); }
        if action.Some? && action.value in at.tokens { best := Max(best, Some(ByAction)); }
        if resource in at.tokens { best := Max(best, Some(ByResource)); }
        if action.Some? && resource in at.named && action.value in at.named[resource] {
          best := Max(best, Some(ByAction));
        }
      }
      IndexIsTheScan(kind, resource, action, best);
    }

    lemma IndexIsTheScan(kind: Kind, resource: string, action: Option<string>, best: Option<Specificity>)
      requires Valid()
      requires var at := Index(kind);
        best == if action.Some? && (action.value in at.tokens || NamedIn(at, resource, action.value)) then Some(ByAction)
                else if resource in at.tokens then Some(ByResource)
                else if at.star then Some(ByStar) else None
      ensures best == Scan(rules, kind, resource, action)
    {
      assert Says(Index(kind), rules, kind);
      ScanIsTheMaximum(rules, kind, resource, action);
      var scanned := Scan(rules, kind, resource, action);
      if best == Some(ByAction) {
        assert exists g :: g in rules && NamesAction(g, kind, resource, action);
      } else if best == Some(ByResource) {
        assert exists g :: g in rules && NamesResource(g, kind, resource);
      } else if best == Some(ByStar) {
        assert exists g :: g in rules && NamesAll(g, kind);
      }
      assert Rank(best) <= Rank(scanned);
      if scanned.Some? {
        var g :| g in rules && MatchOf(g, kind, resource, action) == scanned;
        assert Rank(scanned) <= Rank(best);
      }
    }
  }

  // ---- authorization --------------------------------------------------------------------------------

  type GateSet = seq<(string, string)>

  /** A parsed policy: `gates` maps a key to its gate configurations in declared order. */
  datatype Policy = Policy(
    allow: seq<seq<Grant>>,
    deny: seq<seq<Grant>>,
    gates: map<string, GateSet>,
    failureMode: FailureMode)

  function Flat(maps: seq<seq<Grant>>): seq<Grant> {
    if maps == [] then [] else maps[0] + Flat(maps[1..])
  }

  datatype Authz = Authz(allowed: bool, rule: Rule, specificity: Option<Specificity>)

  /** Default deny, deny wins, most specific allow. */
  function Authorize(p: Policy, kind: Kind, resource: string, action: Option<string>): Authz {
    if Scan(Flat(p.deny), kind, resource, action).Some? then Authz(false, DenyRule, None)
    else
      var best := Scan(Flat(p.allow), kind, resource, action);
      if best.Some? then Authz(true, AllowRule, best) else Authz(false, DefaultDeny, None)
  }

  class CompiledPolicy {
    const allow: KindMatcher
    const deny: KindMatcher
    const policy: Policy

    ghost predicate Valid()
      reads this, allow, deny
    {
      allow.Valid() && deny.Valid() && allow.rules == Flat(policy.allow) && deny.rules == Flat(policy.deny)
    }

    constructor (policy: Policy)
      ensures Valid() && this.policy == policy
    {
      var a := new KindMatcher();
      var d := new KindMatcher();
      AddAll(a, policy.allow);
      AddAll(d, policy.deny);
      allow, deny, this.policy := a, d, policy;
    }

    static method AddAll(m: KindMatcher, maps: seq<seq<Grant>>)
      requires m.Valid() && m.rules == []
      modifies m
      ensures m.Valid() && m.rules == Flat(maps)
    {
      assert maps[0..] == maps;
      for i := 0 to |maps|
        invariant m.Valid() && Flat(maps) == m.rules + Flat(maps[i..])
      {
        assert maps[i..][1..] == maps[i + 1..];
        ghost var before := m.rules;
        for k := 0 to |maps[i]|
          invariant m.Valid() && m.rules == before + maps[i][..k]
        {
          assert maps[i][..k + 1] == maps[i][..k] + [maps[i][k]];
          m.Add(maps[i][k]);
        }
        assert maps[i][..|maps[i]|] == maps[i];
      }
    }

    method Verdict(kind: Kind, resource: string, action: Option<string>) returns (r: Authz)
      requires Valid()
      ensures r == Authorize(policy, kind, resource, action)
    {
      var denied := deny.Match(kind, resource, action);
      if denied.Some? { return Authz(false, DenyRule, None); }
      var best := allow.Match(kind, resource, action);
      return if best.Some? then Authz(true, AllowRule, best) else Authz(false, DefaultDeny, None);
    }
  }

  // ---- the gates of one action -----------------------------------------------------------------------

  predicate Has(merged: GateSet, name: string) {
    exists i :: 0 <= i < |merged| && merged[i].0 == name
  }

  /** Keep what is there; add what is not. */
  function Absorb(merged: GateSet, more: GateSet): GateSet
    decreases |more|
  {
    if more == [] then merged
    else Absorb(if Has(merged, more[0].0) then merged else merged + [more[0]], more[1..])
  }

  function AbsorbKeys(merged: GateSet, keys: seq<string>, gates: map<string, GateSet>): GateSet
    decreases |keys|
  {
    if keys == [] then merged
    else AbsorbKeys(Absorb(merged, if keys[0] in gates then gates[keys[0]] else []), keys[1..], gates)
  }

  /** The keys a policy may use for an action, most specific first. */
  function Candidates(kindKey: string, resource: string, action: Option<string>): seq<string> {
    (if action.Some? then [resource + "." + action.value, action.value] else []) + [kindKey, "*"]
  }

  /** Present keys only, each once. */
  function Distinct(keys: seq<string>, gates: map<string, GateSet>, seen: set<string>): seq<string> {
    if keys == [] then []
    else if keys[0] in gates && keys[0] !in seen then [keys[0]] + Distinct(keys[1..], gates, seen + {keys[0]})
    else Distinct(keys[1..], gates, seen)
  }

  /** What the runtime evaluates. */
  function GatesFor(p: Policy, kindKey: string, resource: string, action: Option<string>): GateSet {
    AbsorbKeys([], Distinct(Candidates(kindKey, resource, action), p.gates, {}), p.gates)
  }

  /** What the linter reasons about: the candidate keys as they stand. */
  function MergedGates(p: Policy, kindKey: string, resource: string, action: Option<string>): GateSet {
    AbsorbKeys([], Candidates(kindKey, resource, action), p.gates)
  }

  ghost predicate Covers(merged: GateSet, more: GateSet) {
    forall i | 0 <= i < |more| :: Has(merged, more[i].0)
  }

  lemma {:induction false} AbsorbGrows(merged: GateSet, more: GateSet)
    ensures merged <= Absorb(merged, more) && Covers(Absorb(merged, more), more)
    ensures Covers(merged, more) ==> Absorb(merged, more) == merged
    decreases |more|
  {
    if more != [] {
      var next := if Has(merged, more[0].0) then merged else merged + [more[0]];
      AbsorbGrows(next, more[1..]);
      var last := Absorb(next, more[1..]);
      assert Has(next, more[0].0) by {
        if next != merged { assert next[|merged|] == more[0]; }
      }
      var i :| 0 <= i < |next| && next[i].0 == more[0].0;
      assert last[i] == next[i];
      assert forall k | 0 < k < |more| :: more[k] == more[1..][k - 1];
    }
  }

  lemma {:induction false} DroppingKeysIsHarmless(merged: GateSet, keys: seq<string>, gates: map<string, GateSet>,
                                                  seen: set<string>)
    requires forall key | key in seen && key in gates :: Covers(merged, gates[key])
    ensures AbsorbKeys(merged, Distinct(keys, gates, seen), gates) == AbsorbKeys(merged, keys, gates)
    decreases |keys|
  {
    if keys != [] {
      var more := if keys[0] in gates then gates[keys[0]] else [];
      AbsorbGrows(merged, more);
      var next := Absorb(merged, more);
      if keys[0] in gates && keys[0] !in seen {
        var wider := seen + {keys[0]};
        forall key | key in wider && key in gates ensures Covers(next, gates[key]) {
          if key in seen { CoversStill(merged, next, gates[key]); }
        }
        DroppingKeysIsHarmless(next, keys[1..], gates, wider);
        var d := Distinct(keys[1..], gates, wider);
        assert ([keys[0]] + d)[1..] == d;
      } else {
        assert next == merged;
        DroppingKeysIsHarmless(merged, keys[1..], gates, seen);
      }
    }
  }

  lemma CoversStill(merged: GateSet, next: GateSet, more: GateSet)
    requires merged <= next && Covers(merged, more)
    ensures Covers(next, more)
  {
    forall i | 0 <= i < |more| ensures Has(next, more[i].0) {
      var k :| 0 <= k < |merged| && merged[k].0 == more[i].0;
      assert next[k] == merged[k];
    }
  }

  /** The gates the linter reasons about are the ones the runtime evaluates, in the same order. */
  lemma LintedGatesAreRun(p: Policy, kindKey: string, resource: string, action: Option<string>)
    ensures MergedGates(p, kindKey, resource, action) == GatesFor(p, kindKey, resource, action)
  {
    DroppingKeysIsHarmless([], Candidates(kindKey, resource, action), p.gates, {});
  }

  function ConfigOf(merged: GateSet, name: string): Option<string> {
    if merged == [] then None else if merged[0].0 == name then Some(merged[0].1) else ConfigOf(merged[1..], name)
  }

  /** The configuration of the first key that declares the gate. */
  function MostSpecific(keys: seq<string>, gates: map<string, GateSet>, name: string): Option<string> {
    if keys == [] then None
    else
      var here := if keys[0] in gates then ConfigOf(gates[keys[0]], name) else None;
      if here.Some? then here else MostSpecific(keys[1..], gates, name)
  }

  lemma {:induction false} ConfigOfBoth(a: GateSet, b: GateSet, name: string)
    ensures ConfigOf(a + b, name) == if ConfigOf(a, name).Some? then ConfigOf(a, name) else ConfigOf(b, name)
    ensures ConfigOf(a, name).Some? <==> Has(a, name)
  {
    if a == [] {
      assert a + b == b;
    } else {
      ConfigOfBoth(a[1..], b, name);
      assert (a + b)[1..] == a[1..] + b;
      assert forall i | 0 < i < |a| :: a[i] == a[1..][i - 1];
    }
  }

  lemma {:induction false} AbsorbKeepsFirst(merged: GateSet, more: GateSet, name: string)
    ensures ConfigOf(Absorb(merged, more), name)
         == if ConfigOf(merged, name).Some? then ConfigOf(merged, name) else ConfigOf(more, name)
    decreases |more|
  {
    if more != [] {
      ConfigOfBoth(merged, [more[0]], name);
      ConfigOfBoth(merged, [more[0]], more[0].0);
      AbsorbKeepsFirst(if Has(merged, more[0].0) then merged else merged + [more[0]], more[1..], name);
    }
  }

  lemma {:induction false} KeysKeepFirst(merged: GateSet, keys: seq<string>, gates: map<string, GateSet>, name: string)
    ensures ConfigOf(AbsorbKeys(merged, keys, gates), name)
         == if ConfigOf(merged, name).Some? then ConfigOf(merged, name) else MostSpecific(keys, gates, name)
    decreases |keys|
  {
    if keys != [] {
      var more := if keys[0] in gates then gates[keys[0]] else [];
      AbsorbKeepsFirst(merged, more, name);
      KeysKeepFirst(Absorb(merged, more), keys[1..], gates, name);
    }
  }

  /** Every gate declared under any key of the action applies, configured by the most specific key that has it. */
  lemma MostSpecificGoverns(p: Policy, kindKey: string, resource: string, action: Option<string>, name: string)
    ensures ConfigOf(GatesFor(p, kindKey, resource, action), name)
         == MostSpecific(Candidates(kindKey, resource, action), p.gates, name)
  {
    LintedGatesAreRun(p, kindKey, resource, action);
    KeysKeepFirst([], Candidates(kindKey, resource, action), p.gates, name);
  }

  /** The configuration a key's first declaration of the gate gives. */
  ghost predicate Declares(p: Policy, key: string, name: string, config: string) {
    key in p.gates && exists i :: 0 <= i < |p.gates[key]| && DeclaredAt(p.gates[key], i, name, config)
  }

  ghost predicate DeclaredAt(gates: GateSet, i: nat, name: string, config: string)
    requires i < |gates|
  {
    gates[i] == (name, config) && forall k | 0 <= k < i :: gates[k].0 != name
  }

  ghost predicate Silent(p: Policy, key: string, name: string) {
    key in p.gates ==> forall i | 0 <= i < |p.gates[key]| :: p.gates[key][i].0 != name
  }

  lemma {:induction false} ConfigIsTheFirst(gates: GateSet, name: string)
    ensures ConfigOf(gates, name).None? <==> forall i | 0 <= i < |gates| :: gates[i].0 != name
    ensures ConfigOf(gates, name).Some? ==>
      exists i :: 0 <= i < |gates| && DeclaredAt(gates, i, name, ConfigOf(gates, name).value)
  {
    if gates != [] {
      ConfigIsTheFirst(gates[1..], name);
      assert forall i | 1 <= i < |gates| :: gates[i] == gates[1..][i - 1];
      if gates[0].0 == name {
        assert DeclaredAt(gates, 0, name, gates[0].1);
      } else if ConfigOf(gates[1..], name).Some? {
        var i :| 0 <= i < |gates| - 1 && DeclaredAt(gates[1..], i, name, ConfigOf(gates[1..], name).value);
        assert DeclaredAt(gates, i + 1, name, ConfigOf(gates[1..], name).value);
      }
    }
  }

  lemma KeyDeclares(p: Policy, key: string, name: string)
    ensures var here := if key in p.gates then ConfigOf(p.gates[key], name) else None;
      (here.None? <==> Silent(p, key, name)) && (here.Some? ==> Declares(p, key, name, here.value))
  {
    if key in p.gates {
      ConfigIsTheFirst(p.gates[key], name);
    }
  }

  /** The keys of an action, the named action of its resource before the action, its kind, and the wildcard last. */
  lemma NarrowerKeyGoverns(p: Policy, kindKey: string, resource: string, action: string, name: string)
    ensures var config := ConfigOf(GatesFor(p, kindKey, resource, Some(action)), name);
      var named := resource + "." + action;
      && (config.None? <==> Silent(p, named, name) && Silent(p, action, name) && Silent(p, kindKey, name) && Silent(p, "*", name))
      && (config.Some? ==>
            || Declares(p, named, name, config.value)
            || (Silent(p, named, name) && Declares(p, action, name, config.value))
            || (Silent(p, named, name) && Silent(p, action, name) && Declares(p, kindKey, name, config.value))
            || (Silent(p, named, name) && Silent(p, action, name) && Silent(p, kindKey, name)
                && Declares(p, "*", name, config.value)))
  {
    MostSpecificGoverns(p, kindKey, resource, Some(action), name);
    var named := resource + "." + action;
    assert Candidates(kindKey, resource, Some(action)) == [named] + ([action] + ([kindKey] + (["*"] + [])));
    NextKey(p, "*", [], name);
    NextKey(p, kindKey, ["*"] + [], name);
    NextKey(p, action, [kindKey] + (["*"] + []), name);
    NextKey(p, named, [action] + ([kindKey] + (["*"] + [])), name);
  }

  lemma NextKey(p: Policy, key: string, rest: seq<string>, name: string)
    ensures var config := MostSpecific([key] + rest, p.gates, name);
      && (Silent(p, key, name) ==> config == MostSpecific(rest, p.gates, name))
      && (!Silent(p, key, name) ==> config.Some? && Declares(p, key, name, config.value))
  {
    assert ([key] + rest)[1..] == rest;
    KeyDeclares(p, key, name);
  }

  /** An unnamed action has its kind and the wildcard only. */
  lemma KindGovernsUnnamed(p: Policy, kindKey: string, resource: string, name: string)
    ensures var config := ConfigOf(GatesFor(p, kindKey, resource, None), name);
      && (config.None? <==> Silent(p, kindKey, name) && Silent(p, "*", name))
      && (config.Some? ==>
            Declares(p, kindKey, name, config.value) || (Silent(p, kindKey, name) && Declares(p, "*", name, config.value)))
  {
    MostSpecificGoverns(p, kindKey, resource, None, name);
    assert Candidates(kindKey, resource, None) == [kindKey] + (["*"] + []);
    NextKey(p, "*", [], name);
    NextKey(p, kindKey, ["*"] + [], name);
  }

  /** The two nested loops of the merge. */
  method Merge(p: Policy, kindKey: string, resource: string, action: Option<string>) returns (merged: GateSet)
    ensures merged == GatesFor(p, kindKey, resource, action)
  {
    var candidates := Candidates(kindKey, resource, action);
    var seen: set<string> := {};
    merged := [];
    assert candidates[0..] == candidates;
    for i := 0 to |candidates|
      invariant GatesFor(p, kindKey, resource, action)
             == AbsorbKeys(merged, Distinct(candidates[i..], p.gates, seen), p.gates)
    {
      assert candidates[i..][1..] == candidates[i + 1..];
      var key := candidates[i];
      if key in p.gates && key !in seen {
        ghost var rest := Distinct(candidates[i + 1..], p.gates, seen + {key});
        assert ([key] + rest)[1..] == rest;
        seen := seen + {key};
        merged := AbsorbOne(merged, p.gates[key]);
      }
    }
  }

  method AbsorbOne(merged: GateSet, more: GateSet) returns (r: GateSet)
    ensures r == Absorb(merged, more)
  {
    r := merged;
    assert more[0..] == more;
    for i := 0 to |more|
      invariant Absorb(merged, more) == Absorb(r, more[i..])
    {
      assert more[i..][1..] == more[i + 1..];
      if !Has(r, more[i].0) { r := r + [more[i]]; }
    }
  }
}
