/** What the load-time checks establish about everything the compiled policy can authorize. */
module Linter {
  import opened Vocabulary
  import opened Compiler

  datatype ActionDef = ActionDef(kind: Kind, reversibility: Reversibility)

  type Registry = map<string, map<string, ActionDef>>

  predicate Declared(reg: Registry, resource: string, action: string) {
    resource in reg && action in reg[resource]
  }

  function DefOf(reg: Registry, resource: string, action: string): ActionDef
    requires Declared(reg, resource, action)
  {
    reg[resource][action]
  }

  // ---- the linter's enumeration of what is allowed -----------------------------------------------

  /** A list token is read as a resource whenever a resource has that name. */
  predicate ListedByToken(token: string, kind: Kind, reg: Registry, resource: string, action: string)
    requires Declared(reg, resource, action)
  {
    DefOf(reg, resource, action).kind == kind && if token in reg then resource == token else action == token
  }

  predicate ListedBy(g: Grant, reg: Registry, resource: string, action: string)
    requires Declared(reg, resource, action)
  {
    match g.target
    case Star => DefOf(reg, resource, action).kind == g.kind
    case Tokens(names) => exists token :: token in names && ListedByToken(token, g.kind, reg, resource, action)
    case Named(actions) => resource in actions && action in actions[resource]
  }

  ghost predicate Listed(p: Policy, reg: Registry, resource: string, action: string) {
    Declared(reg, resource, action) && exists g :: g in Flat(p.allow) && ListedBy(g, reg, resource, action)
  }

  /** The enumeration as it runs: a loop per rule, over the tokens and the registry. */
  method AllowedActions(p: Policy, reg: Registry) returns (out: set<(string, string)>)
    ensures forall r, a :: (r, a) in out <==> Listed(p, reg, r, a)
  {
    out := {};
    var rules := Gather(p.allow);
    for i := 0 to |rules|
      invariant forall r, a :: (r, a) in out <==>
        Declared(reg, r, a) && exists k :: 0 <= k < i && ListedBy(rules[k], reg, r, a)
    {
      var more := AllowedByRule(rules[i], reg);
      out := out + more;
    }
  }

  method Gather(maps: seq<seq<Grant>>) returns (rules: seq<Grant>)
    ensures rules == Flat(maps)
  {
    rules := [];
    assert maps[0..] == maps;
    for i := 0 to |maps|
      invariant Flat(maps) == rules + Flat(maps[i..])
    {
      assert maps[i..][1..] == maps[i + 1..];
      rules := rules + maps[i];
    }
  }

  function Pairs(reg: Registry): (pairs: set<(string, string)>)
    ensures forall r, a :: (r, a) in pairs <==> Declared(reg, r, a)
  {
    set r, a | r in reg.Keys && a in reg[r].Keys :: (r, a)
  }

  method AllowedByRule(g: Grant, reg: Registry) returns (out: set<(string, string)>)
    ensures forall r, a :: (r, a) in out <==> Declared(reg, r, a) && ListedBy(g, reg, r, a)
  {
    match g.target {
      case Star => out := set x | x in Pairs(reg) && DefOf(reg, x.0, x.1).kind == g.kind;
      case Named(actions) => out := set x | x in Pairs(reg) && x.0 in actions && x.1 in actions[x.0];
      case Tokens(names) =>
        out := {};
        for i := 0 to |names|
          invariant forall r, a :: (r, a) in out <==>
            Declared(reg, r, a) && exists k :: 0 <= k < i && ListedByToken(names[k], g.kind, reg, r, a)
        {
          var token := names[i];
          var more :=
            if token in reg then set x | x in Pairs(reg) && x.0 == token && DefOf(reg, x.0, x.1).kind == g.kind
            else set x | x in Pairs(reg) && x.1 == token && DefOf(reg, x.0, x.1).kind == g.kind;
          out := out + more;
        }
    }
  }

  // ---- what the compiled policy can allow -----------------------------------------------------------

  /** A declared action some allow rule matches, as the compiled matcher matches it. */
  predicate Allowable(p: Policy, reg: Registry, resource: string, action: string) {
    && Declared(reg, resource, action)
    && Scan(Flat(p.allow), DefOf(reg, resource, action).kind, resource, Some(action)).Some?
  }

  /** A list token that is a resource's name but also names this action of another resource. */
  predicate ShadowedBy(g: Grant, reg: Registry, resource: string, action: string) {
    && Declared(reg, resource, action)
    && g.target.Tokens? && action in g.target.names && g.kind == DefOf(reg, resource, action).kind
    && action in reg && resource != action
  }

  /** Every action reached only through such a token is listed by some other rule. */
  ghost predicate NoBlindSpot(p: Policy, reg: Registry) {
    forall g, r, a | g in Flat(p.allow) && ShadowedBy(g, reg, r, a) :: Listed(p, reg, r, a)
  }

  lemma AllowableHasRule(p: Policy, reg: Registry, resource: string, action: string)
    requires Declared(reg, resource, action)
    ensures Allowable(p, reg, resource, action) <==>
      exists g :: g in Flat(p.allow) && MatchOf(g, DefOf(reg, resource, action).kind, resource, Some(action)).Some?
  {
    ScanIsTheMaximum(Flat(p.allow), DefOf(reg, resource, action).kind, resource, Some(action));
  }

  lemma RuleListsOrShadows(g: Grant, reg: Registry, resource: string, action: string)
    requires Declared(reg, resource, action)
    requires MatchOf(g, DefOf(reg, resource, action).kind, resource, Some(action)).Some?
    ensures ListedBy(g, reg, resource, action) || ShadowedBy(g, reg, resource, action)
  {
    if g.target.Tokens? {
      if NamesResource(g, g.kind, resource) {
        assert ListedByToken(resource, g.kind, reg, resource, action);
      } else if action !in reg {
        assert ListedByToken(action, g.kind, reg, resource, action);
      } else if resource == action {
        assert ListedByToken(action, g.kind, reg, resource, action);
      }
    }
  }

  /** The enumeration covers what the policy can allow exactly when no token hides an action behind a resource's name. */
  lemma ListingCoversExactly(p: Policy, reg: Registry)
    ensures NoBlindSpot(p, reg) <==> forall r, a | Allowable(p, reg, r, a) :: Listed(p, reg, r, a)
  {
    if NoBlindSpot(p, reg) {
      forall r, a | Allowable(p, reg, r, a) ensures Listed(p, reg, r, a) {
        AllowableHasRule(p, reg, r, a);
        var g :| g in Flat(p.allow) && MatchOf(g, DefOf(reg, r, a).kind, r, Some(a)).Some?;
        RuleListsOrShadows(g, reg, r, a);
      }
    }
    if forall r, a | Allowable(p, reg, r, a) :: Listed(p, reg, r, a) {
      forall g, r, a | g in Flat(p.allow) && ShadowedBy(g, reg, r, a) ensures Listed(p, reg, r, a) {
        assert NamesAction(g, DefOf(reg, r, a).kind, r, Some(a));
        AllowableHasRule(p, reg, r, a);
        assert Allowable(p, reg, r, a);
      }
    }
  }

  // ---- open mode and irreversible actions -------------------------------------------------------------

  /** The check reports nothing: a policy that fails open lists no irreversible action. */
  ghost predicate OpenCheckPasses(p: Policy, reg: Registry) {
    p.failureMode == Open ==>
      forall r, a | Listed(p, reg, r, a) :: DefOf(reg, r, a).reversibility != Irreversible
  }

  /** A deny rule matches every irreversible action that an allow token names behind a resource of the same name. */
  ghost predicate HiddenAreDenied(p: Policy, reg: Registry) {
    forall g, r, a | g in Flat(p.allow) && ShadowedBy(g, reg, r, a) && DefOf(reg, r, a).reversibility == Irreversible ::
      Scan(Flat(p.deny), DefOf(reg, r, a).kind, r, Some(a)).Some?
  }

  ghost predicate AuthorizesIrreversible(p: Policy, reg: Registry, resource: string, action: string) {
    && Declared(reg, resource, action) && DefOf(reg, resource, action).reversibility == Irreversible
    && Authorize(p, DefOf(reg, resource, action).kind, resource, Some(action)).allowed
  }

  /**
   * A policy in open mode that passed the check never authorizes an irreversible action if and only if its deny
   * rules cover the irreversible actions its own allow tokens hide.
   */
  lemma OpenNeverAuthorizesIrreversible(p: Policy, reg: Registry)
    requires OpenCheckPasses(p, reg) && p.failureMode == Open
    ensures (forall r, a :: !AuthorizesIrreversible(p, reg, r, a)) <==> HiddenAreDenied(p, reg)
  {
    forall r, a | AuthorizesIrreversible(p, reg, r, a) ensures !HiddenAreDenied(p, reg) {
      AllowableHasRule(p, reg, r, a);
      assert Allowable(p, reg, r, a);
      var g :| g in Flat(p.allow) && MatchOf(g, DefOf(reg, r, a).kind, r, Some(a)).Some?;
      RuleListsOrShadows(g, reg, r, a);
      assert !Listed(p, reg, r, a);
    }
    forall g, r, a | g in Flat(p.allow) && ShadowedBy(g, reg, r, a) && DefOf(reg, r, a).reversibility == Irreversible
      ensures Scan(Flat(p.deny), DefOf(reg, r, a).kind, r, Some(a)).Some? || AuthorizesIrreversible(p, reg, r, a)
    {
      assert NamesAction(g, DefOf(reg, r, a).kind, r, Some(a));
      AllowableHasRule(p, reg, r, a);
    }
  }

  predicate NamesApart(reg: Registry) {
    forall r, a | r in reg && a in reg[r] :: a !in reg
  }

  lemma DisjointNamesHaveNoBlindSpot(p: Policy, reg: Registry)
    requires NamesApart(reg)
    ensures NoBlindSpot(p, reg) && HiddenAreDenied(p, reg)
  {
  }

  /** With a resource and an action of one name the check is silent about an irreversible action the policy allows. */
  lemma ShadowedActionSlipsThrough()
    ensures var reg := map["Refund" := map[], "Payment" := map["Refund" := ActionDef(Effect, Irreversible)]];
      var p := Policy([[Grant(Effect, Tokens(["Refund"]))]], [], map[], Open);
      && OpenCheckPasses(p, reg)
      && Authorize(p, Effect, "Payment", Some("Refund")).allowed
      && DefOf(reg, "Payment", "Refund").reversibility == Irreversible
  {
    var g := Grant(Effect, Tokens(["Refund"]));
    var p := Policy([[g]], [], map[], Open);
    assert p.allow[1..] == [] && Flat([]) == [];
    assert Flat(p.allow) == [g] + [] == [g];
    assert NamesAction(g, Effect, "Payment", Some("Refund"));
    assert [g][1..] == [] && Scan([], Effect, "Payment", Some("Refund")) == None;
    assert Scan([g], Effect, "Payment", Some("Refund")).Some?;
    assert Flat(p.deny) == [];
  }
}
