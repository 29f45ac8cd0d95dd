/** What a `requireMatch` PASS means, and why the selector and the re-check cannot disagree. */
module MatchSoundness {
  import opened Vocabulary
  import opened Syntax
  import opened Text
  import opened Evaluation
  import opened RequireMatch
  import Parser
  import Pipeline
  import RoundTrip

  // ---- soundness and completeness of a PASS --------------------------------------------------

  ghost function Magnitude(x: real): (m: real)
    ensures m >= 0.0 && (m == x || m == -x)
  {
    if x >= 0.0 then x else -x
  }

  /** A percentage is of the record's own amount, an absolute bound is itself, and with neither they must be equal. */
  ghost predicate Tolerated(pct: Option<real>, bound: Option<real>, theirs: real, ours: real) {
    if pct.Some? then 100.0 * Magnitude(theirs - ours) <= pct.value * Magnitude(theirs)
    else if bound.Some? then Magnitude(theirs - ours) <= bound.value
    else theirs == ours
  }

  /** The record's number and the intent's exist and differ by at most the bound. */
  ghost predicate NumbersTolerated(field: string, matches: string, pct: Option<real>, bound: Option<real>, ob: Obligation,
                                   g: GateContext)
  {
    exists theirs: real, ours: real ::
      && Number(LookupField(ob.fields, field), g.ctx.host, theirs)
      && Number(Lookup(g.ctx.namespaces, SplitDots(matches)), g.ctx.host, ours)
      && Tolerated(pct, bound, theirs, ours)
  }

  ghost predicate WithinTolerance(c: Clause, ob: Obligation, g: GateContext)
    requires c.Near?
  {
    NumbersTolerated(c.field, c.matches, c.pct, c.bound, ob, g)
  }

  ghost predicate Number(found: Option<Value>, host: Host, n: real) {
    found.Some? && AsNumber(Json(found.value), host) == Some(n)
  }

  ghost predicate ClauseHolds(c: Clause, ob: Obligation, g: GateContext) {
    match c
    case Near(_, _, _, _, _) => WithinTolerance(c, ob, g)
    case Condition(e, _, _, _) => Evaluate(e, Extended(g.ctx, OBLIGATION, ob.fields)) == Ans(true)
  }

  ghost predicate AllHold(clauses: seq<Clause>, ob: Obligation, g: GateContext) {
    forall c | c in clauses :: ClauseHolds(c, ob, g)
  }

  lemma LimitIsTheBound(c: Clause, theirs: real, ours: real)
    requires c.Near?
    ensures Abs(theirs - ours) <= Limit(c, theirs) <==> Tolerated(c.pct, c.bound, theirs, ours)
  {
    assert Abs(theirs - ours) == Magnitude(theirs - ours) && Abs(theirs) == Magnitude(theirs);
    if c.pct.Some? {
      Hundredths(c.pct.value, Magnitude(theirs));
    }
  }

  lemma Hundredths(p: real, m: real)
    ensures 100.0 * (p / 100.0 * m) == p * m
  {
    var q := p / 100.0;
    assert 100.0 * q == p;
    assert 100.0 * (q * m) == 100.0 * q * m;
  }

  lemma ToleranceExact(c: Clause, ob: Obligation, g: GateContext, evidence: Evidence)
    requires c.Near?
    ensures CheckTolerance(c, ob, g, evidence).None? <==> WithinTolerance(c, ob, g)
  {
    var sides := Sides(c, ob, g);
    if sides.Some? {
      var (theirs, ours) := sides.value;
      assert Number(LookupField(ob.fields, c.field), g.ctx.host, theirs);
      assert Number(Lookup(g.ctx.namespaces, SplitDots(c.matches)), g.ctx.host, ours);
      LimitIsTheBound(c, theirs, ours);
    }
  }

  lemma ClauseExact(c: Clause, ob: Obligation, g: GateContext, evidence: Evidence)
    ensures CheckClause(c, ob, g, evidence) == Holds <==> ClauseHolds(c, ob, g)
    ensures CheckClause(c, ob, g, evidence).Fails? ==> CheckClause(c, ob, g, evidence).result.outcome == Outcome.Fail
  {
    if c.Near? {
      ToleranceExact(c, ob, g, evidence);
    }
  }

  lemma {:induction false} ChecksExact(clauses: seq<Clause>, ob: Obligation, g: GateContext, evidence: Evidence)
    ensures CheckAll(clauses, ob, g, evidence) == Ans(Passing(Some(evidence))) <==> AllHold(clauses, ob, g)
    ensures var r := CheckAll(clauses, ob, g, evidence);
      r.Ans? && r.value.outcome == Outcome.Pass ==> r.value == Passing(Some(evidence))
  {
    if clauses != [] {
      ChecksExact(clauses[1..], ob, g, evidence);
      assert forall c :: c in clauses <==> c == clauses[0] || c in clauses[1..];
      ClauseExact(clauses[0], ob, g, evidence);
    }
  }

  // ---- clauses as the policy declares them --------------------------------------------------

  const RECORD_SIDE := "obligation."

  /** The declared clause is true of the record, its text and its bounds read as written. */
  ghost predicate DeclaredHolds(raw: RawClause, ob: Obligation, g: GateContext) {
    match raw
    case Text(src) => Parser.Parse(src).Ok? && Evaluate(Parser.Parse(src).value, Extended(g.ctx, OBLIGATION, ob.fields)) == Ans(true)
    case Tolerance(Some(field), Some(matches), Percent(text)) =>
      && RECORD_SIDE <= field && matches != "" && g.ctx.host.number(text).Some?
      && NumbersTolerated(field[|RECORD_SIDE|..], matches, g.ctx.host.number(text), None, ob, g)
    case Tolerance(Some(field), Some(matches), Absolute(bound)) =>
      && RECORD_SIDE <= field && matches != "" && bound >= 0.0
      && NumbersTolerated(field[|RECORD_SIDE|..], matches, None, Some(bound), ob, g)
    case _ => false
  }

  lemma ClauseIsDeclared(raw: RawClause, provenance: bool, ob: Obligation, g: GateContext)
    ensures var c := ParseClause(raw, provenance, g.ctx.host);
      if c.Some? then ClauseHolds(c.value, ob, g) <==> DeclaredHolds(raw, ob, g) else !DeclaredHolds(raw, ob, g)
    ensures var c := ParseClause(raw, provenance, g.ctx.host); c.Some? ==> c.value.provenance == provenance
  {
  }

  ghost predicate AllDeclared(raws: seq<RawClause>, ob: Obligation, g: GateContext) {
    forall i | 0 <= i < |raws| :: DeclaredHolds(raws[i], ob, g)
  }

  lemma {:induction false} ClausesAreDeclared(raws: seq<RawClause>, provenance: bool, ob: Obligation, g: GateContext)
    ensures var cs := ParseClauses(raws, provenance, g.ctx.host);
      if cs.Some? then AllHold(cs.value, ob, g) <==> AllDeclared(raws, ob, g) else !AllDeclared(raws, ob, g)
  {
    if raws != [] {
      var rest := raws[1..];
      ClauseIsDeclared(raws[0], provenance, ob, g);
      ClausesAreDeclared(rest, provenance, ob, g);
      assert AllDeclared(raws, ob, g) <==> DeclaredHolds(raws[0], ob, g) && AllDeclared(rest, ob, g) by {
        assert forall i | 1 <= i < |raws| :: raws[i] == rest[i - 1];
        assert forall i | 0 <= i < |rest| :: rest[i] == raws[i + 1];
      }
      var c, cs := ParseClause(raws[0], provenance, g.ctx.host), ParseClauses(rest, provenance, g.ctx.host);
      if c.Some? && cs.Some? {
        assert forall x :: x in [c.value] + cs.value <==> x == c.value || x in cs.value;
      }
    }
  }

  /** The intent corresponds to `ob` alone: the registry's whole answer, with every clause true of it. */
  ghost predicate UniqueMatch(cfg: Config, g: GateContext, ob: Obligation) {
    && WellFormed(cfg, g)
    && var clauses := AllClauses(cfg, g.ctx.host).value;
    && var selection := SelectorOf(clauses, g.ctx);
    && selection.Selector?
    && Candidates(cfg, g, selection.constraints) == Some([ob])
    && AllHold(clauses, ob, g)
  }

  /** The gate passes with evidence exactly when there is a unique match, and the evidence names it. */
  lemma PassWithEvidence(cfg: Config, g: GateContext)
    ensures var r := Run(Some(cfg), g);
      r.Ans? && r.value.outcome == Outcome.Pass && r.value.evidence.Some? <==> exists ob :: UniqueMatch(cfg, g, ob)
    ensures forall ob | UniqueMatch(cfg, g, ob) ::
      Run(Some(cfg), g).Ans? && Run(Some(cfg), g).value.evidence
        == Some(Match(cfg.registry, [ob.ref], 1, PlanOf(cfg, g.registries.capability(cfg.registry).value)))
  {
    if WellFormed(cfg, g) {
      var clauses := AllClauses(cfg, g.ctx.host).value;
      var selection := SelectorOf(clauses, g.ctx);
      if selection.Selector? && Candidates(cfg, g, selection.constraints).Some? {
        var found := Candidates(cfg, g, selection.constraints).value;
        if |found| == 1 {
          var capability := g.registries.capability(cfg.registry).value;
          assert found == [found[0]];
          ChecksExact(clauses, found[0], g, Match(cfg.registry, [found[0].ref], 1, PlanOf(cfg, capability)));
          assert UniqueMatch(cfg, g, found[0]) <==> AllHold(clauses, found[0], g);
        }
      }
    }
  }

  /** A clause the gate can read. */
  ghost predicate Readable(raw: RawClause, host: Host) {
    match raw
    case Text(src) => Parser.Parse(src).Ok?
    case Tolerance(Some(field), Some(matches), Percent(text)) => RECORD_SIDE <= field && matches != "" && host.number(text).Some?
    case Tolerance(Some(field), Some(matches), Absolute(bound)) => RECORD_SIDE <= field && matches != "" && bound >= 0.0
    case _ => false
  }

  lemma {:induction false} ReadableExactly(raws: seq<RawClause>, provenance: bool, host: Host)
    ensures ParseClauses(raws, provenance, host).Some? <==> forall i | 0 <= i < |raws| :: Readable(raws[i], host)
  {
    if raws != [] {
      ReadableExactly(raws[1..], provenance, host);
      assert ParseClause(raws[0], provenance, host).Some? <==> Readable(raws[0], host);
      assert forall i | 1 <= i < |raws| :: raws[i] == raws[1..][i - 1];
      assert forall i | 0 <= i < |raws| - 1 :: raws[1..][i] == raws[i + 1];
    }
  }

  /** A configuration the gate acts on: a way to spend or none, never an automatic choice, a declared registry, clauses. */
  ghost predicate InOrder(cfg: Config, g: GateContext) {
    && (cfg.consume.Spends? || cfg.consume.SpendsNothing?) && !cfg.onAmbiguous.AmbiguousAllows?
    && g.registries.capability(cfg.registry).Some?
    && cfg.match_.Some? && |cfg.match_.value| > 0
    && (forall i | 0 <= i < |cfg.match_.value| :: Readable(cfg.match_.value[i], g.ctx.host))
    && (forall i | 0 <= i < |cfg.provenance| :: Readable(cfg.provenance[i], g.ctx.host))
  }

  lemma WellFormedExactly(cfg: Config, g: GateContext)
    ensures WellFormed(cfg, g) <==> InOrder(cfg, g)
    ensures !InOrder(cfg, g) ==> Run(Some(cfg), g) == Ans(Failing("", None, None, []))
    ensures Run(None, g) == Ans(Failing("", None, None, []))
  {
    if cfg.match_.Some? {
      ReadableExactly(cfg.match_.value, false, g.ctx.host);
      ReadableExactly(cfg.provenance, true, g.ctx.host);
    }
  }

  /** The registry's whole answer is this record, and every declared clause is true of it. */
  ghost predicate DeclaredMatch(cfg: Config, g: GateContext, selector: seq<EqConstraint>, ob: Obligation)
    requires cfg.match_.Some?
  {
    && Candidates(cfg, g, selector) == Some([ob])
    && AllDeclared(cfg.match_.value, ob, g) && AllDeclared(cfg.provenance, ob, g)
  }

  /**
   * In terms of the declaration alone: the gate passes with evidence exactly when the configuration is in order, every
   * selecting clause resolves, and the registry's whole answer is one record of which every declared clause is true.
   */
  lemma PassIsDeclared(cfg: Config, g: GateContext)
    requires InOrder(cfg, g)
    ensures WellFormed(cfg, g)
    ensures var r, selection := Run(Some(cfg), g), SelectorOf(AllClauses(cfg, g.ctx.host).value, g.ctx);
      r.Ans? && r.value.outcome == Outcome.Pass && r.value.evidence.Some? <==>
        selection.Selector? && exists ob :: DeclaredMatch(cfg, g, selection.constraints, ob)
  {
    WellFormedExactly(cfg, g);
    PassWithEvidence(cfg, g);
    var selection := SelectorOf(AllClauses(cfg, g.ctx.host).value, g.ctx);
    forall ob ensures UniqueMatch(cfg, g, ob) <==> selection.Selector? && DeclaredMatch(cfg, g, selection.constraints, ob) {
      HoldsAsDeclared(cfg, g, ob);
    }
  }

  lemma HoldsAsDeclared(cfg: Config, g: GateContext, ob: Obligation)
    requires WellFormed(cfg, g)
    ensures AllHold(AllClauses(cfg, g.ctx.host).value, ob, g) <==>
            AllDeclared(cfg.match_.value, ob, g) && AllDeclared(cfg.provenance, ob, g)
  {
    ClausesAreDeclared(cfg.match_.value, false, ob, g);
    ClausesAreDeclared(cfg.provenance, true, ob, g);
    var own, prov := ParseClauses(cfg.match_.value, false, g.ctx.host).value, ParseClauses(cfg.provenance, true, g.ctx.host).value;
    assert forall c :: c in own + prov <==> c in own || c in prov;
  }

  /** It passes without evidence exactly when the registry could not be asked, in open mode, for nothing irreversible. */
  lemma PassWithoutEvidence(cfg: Config, g: GateContext)
    ensures var r := Run(Some(cfg), g);
      r.Ans? && r.value.outcome == Outcome.Pass && r.value.evidence.None? <==>
        && WellFormed(cfg, g)
        && SelectorOf(AllClauses(cfg, g.ctx.host).value, g.ctx).Selector?
        && Candidates(cfg, g, SelectorOf(AllClauses(cfg, g.ctx.host).value, g.ctx).constraints).None?
        && g.failureMode == Open
        && !(g.resolved.kind == Effect && g.resolved.reversibility == Irreversible)
  {
    if WellFormed(cfg, g) {
      var clauses := AllClauses(cfg, g.ctx.host).value;
      var selection := SelectorOf(clauses, g.ctx);
      if selection.Selector? && Candidates(cfg, g, selection.constraints).Some? {
        var found := Candidates(cfg, g, selection.constraints).value;
        if |found| == 1 {
          var capability := g.registries.capability(cfg.registry).value;
          ChecksExact(clauses, found[0], g, Match(cfg.registry, [found[0].ref], 1, PlanOf(cfg, capability)));
        }
      }
    }
  }

  /** What the commit then reserves is the matched ref, and nothing when the policy only verifies. */
  lemma PassReservesTheMatch(cfg: Config, g: GateContext, ob: Obligation)
    requires UniqueMatch(cfg, g, ob)
    ensures Run(Some(cfg), g).Ans?
    ensures var plan := Pipeline.ClaimPlan([Run(Some(cfg), g).value]);
      if cfg.consume.Spends? then plan.Some? && plan.value.0 == cfg.registry && plan.value.1 == ob.ref else plan.None?
  {
    PassWithEvidence(cfg, g);
    var r := Run(Some(cfg), g).value;
    assert r.outcome == Outcome.Pass && r.gate == Gate.RequireMatch by {
      var clauses := AllClauses(cfg, g.ctx.host).value;
      ChecksExact(clauses, ob, g, r.evidence.value);
    }
    assert [r][1..] == [];
    assert Pipeline.ClaimPlan([]) == None;
  }

  /** The registry answered exactly one record, whatever the clauses then say of it. */
  ghost predicate OneCandidate(cfg: Config, g: GateContext, ob: Obligation) {
    && WellFormed(cfg, g)
    && var selection := SelectorOf(AllClauses(cfg, g.ctx.host).value, g.ctx);
    && selection.Selector? && Candidates(cfg, g, selection.constraints) == Some([ob])
  }

  ghost predicate CarriesPlan(r: GateResult) {
    r.evidence.Some? && r.evidence.value.Match? && r.evidence.value.plan.Some?
  }

  lemma {:induction false} ChecksKeepEvidence(clauses: seq<Clause>, ob: Obligation, g: GateContext, evidence: Evidence)
    ensures var r := CheckAll(clauses, ob, g, evidence); r.Ans? ==> r.value.evidence == Some(evidence)
  {
    if clauses != [] {
      ChecksKeepEvidence(clauses[1..], ob, g, evidence);
    }
  }

  /**
   * The evidence carries the consumption plan exactly when one candidate was answered, a failed clause included; a
   * result that is no PASS still reserves nothing.
   */
  lemma PlanMeansOneCandidate(cfg: Config, g: GateContext, r: GateResult)
    requires Run(Some(cfg), g) == Ans(r)
    ensures CarriesPlan(r) <==> exists ob :: OneCandidate(cfg, g, ob)
    ensures r.outcome != Outcome.Pass ==> Pipeline.ClaimPlan([r]).None?
  {
    assert [r][1..] == [] && Pipeline.ClaimPlan([]) == None;
    if WellFormed(cfg, g) {
      var clauses := AllClauses(cfg, g.ctx.host).value;
      var selection := SelectorOf(clauses, g.ctx);
      if selection.Selector? && Candidates(cfg, g, selection.constraints).Some? {
        var found := Candidates(cfg, g, selection.constraints).value;
        if |found| == 1 {
          var capability := g.registries.capability(cfg.registry).value;
          ChecksKeepEvidence(clauses, found[0], g, Match(cfg.registry, [found[0].ref], 1, PlanOf(cfg, capability)));
          assert found == [found[0]] && OneCandidate(cfg, g, found[0]);
        }
      }
    }
  }

  /** A clause that fails on the one record leaves a failing result with the plan in its evidence. */
  lemma FailureCarriesPlan(cfg: Config, g: GateContext, ob: Obligation, r: GateResult)
    requires Run(Some(cfg), g) == Ans(r) && OneCandidate(cfg, g, ob)
    requires !AllHold(AllClauses(cfg, g.ctx.host).value, ob, g)
    ensures r.outcome != Outcome.Pass && CarriesPlan(r)
  {
    PlanMeansOneCandidate(cfg, g, r);
    PassWithEvidence(cfg, g);
    if x :| UniqueMatch(cfg, g, x) {
      assert false;
    }
  }

  // ---- the selector and the re-check -----------------------------------------------------------

  /** Re-evaluated on a record, a selecting clause says exactly whether the adapter's own filter keeps it. */
  lemma RecheckIsTheFilter(e: Expr, ctx: Context, fields: Payload, value: Datum)
    requires GoodExpr(e) && SelectorPart(e).Some? && Resolve(SelectorPart(e).value.1, ctx) == Ans(value)
    ensures var field := LookupField(fields, SelectorPart(e).value.0);
      Evaluate(e, Extended(ctx, OBLIGATION, fields)) ==
        if field.None? then FailClosed else Ans(ValuesEqual(Json(field.value), value, ctx.host))
  {
    var (path, other) := SelectorPart(e).value;
    var side := if IsObligationPath(e.lhs) then e.lhs else e.rhs;
    var ext := Extended(ctx, OBLIGATION, fields);
    ResolveFrame(other, ctx, OBLIGATION, fields);
    NamesHaveNoDots(side.parts[1..]);
    SplitJoin(side.parts[1..]);
    assert Lookup(ext.namespaces, side.parts) == LookupField(fields, path);
    if LookupField(fields, path).Some? {
      var theirs := Json(LookupField(fields, path).value);
      EqualityAgrees(theirs, value, ctx.host);
      EqualSymmetric(theirs, value, ctx.host);
    }
  }

  lemma NamesHaveNoDots(parts: seq<string>)
    requires forall i | 0 <= i < |parts| :: IsName(parts[i])
    ensures forall part | part in parts :: Dotless(part)
  {
    forall part | part in parts ensures Dotless(part) {
      assert AllWord(part);
    }
  }

  /** No path of it, however deep in a call, begins with this name. */
  ghost predicate SilentOn(o: Operand, name: string) {
    match o
    case Path(parts) => parts != [] ==> parts[0] != name
    case Func(_, args) => forall i | 0 <= i < |args| :: SilentOn(args[i], name)
    case _ => true
  }

  lemma {:induction false} MentionsTells(o: Operand, name: string)
    ensures Mentions(o, name) <==> !SilentOn(o, name)
  {
    if o.Func? {
      forall i | 0 <= i < |o.args| ensures Mentions(o.args[i], name) <==> !SilentOn(o.args[i], name) {
        MentionsTells(o.args[i], name);
      }
    }
  }

  /** One side is a field of the record, by this path; the other is the intent's alone. */
  ghost predicate SelectsField(e: Expr, parts: seq<string>, other: Operand) {
    && parts != [] && SilentOn(other, OBLIGATION)
    && (e == Compare(Operand.Path([OBLIGATION] + parts), Eq, other) || e == Compare(other, Eq, Operand.Path([OBLIGATION] + parts)))
  }

  /** The registry is asked for exactly the equalities between a field of the record and the intent's own side. */
  lemma SelectorPartTells(e: Expr, parts: seq<string>, other: Operand)
    ensures SelectsField(e, parts, other) ==> SelectorPart(e) == Some((JoinDots(parts), other))
    ensures SelectorPart(e).Some? ==> exists fields, o :: SelectsField(e, fields, o)
  {
    MentionsTells(other, OBLIGATION);
    if SelectsField(e, parts, other) {
      assert ([OBLIGATION] + parts)[1..] == parts;
      assert !IsObligationPath(other);
    }
    if SelectorPart(e).Some? {
      var (side, o) := if IsObligationPath(e.lhs) then (e.lhs, e.rhs) else (e.rhs, e.lhs);
      assert side.parts == [OBLIGATION] + side.parts[1..];
      MentionsTells(o, OBLIGATION);
      assert SelectsField(e, side.parts[1..], o);
    }
  }

  /** The adapter's contract: it returns only records whose selected fields are there and equal. */
  ghost predicate Honours(selector: seq<EqConstraint>, ob: Obligation, host: Host) {
    forall q | q in selector ::
      var field := LookupField(ob.fields, q.field);
      field.Some? && field.value != Null && ValuesEqual(Json(field.value), q.value, host)
  }

  ghost predicate Parsed(c: Clause) {
    c.Condition? ==> GoodExpr(c.expr) && c.eq == SelectorPart(c.expr)
  }

  lemma {:induction false} ClausesAreParsed(raws: seq<RawClause>, provenance: bool, host: Host)
    ensures var cs := ParseClauses(raws, provenance, host); cs.Some? ==> forall c | c in cs.value :: Parsed(c)
  {
    if raws != [] {
      ClausesAreParsed(raws[1..], provenance, host);
      var c := ParseClause(raws[0], provenance, host);
      if c.Some? && c.value.Condition? {
        RoundTrip.ParsedExactlyGood(c.value.expr);
      }
    }
  }

  /** The clauses the registry was not asked about. */
  function Unasked(clauses: seq<Clause>): seq<Clause> {
    if clauses == [] then []
    else (if Selects(clauses[0]) then [] else [clauses[0]]) + Unasked(clauses[1..])
  }

  lemma {:induction false} OnlyTheUnaskedDecide(clauses: seq<Clause>, ob: Obligation, g: GateContext, evidence: Evidence)
    requires forall c | c in clauses :: Parsed(c)
    requires SelectorOf(clauses, g.ctx).Selector? && Honours(SelectorOf(clauses, g.ctx).constraints, ob, g.ctx.host)
    ensures CheckAll(clauses, ob, g, evidence) == CheckAll(Unasked(clauses), ob, g, evidence)
    ensures forall c | c in clauses && Selects(c) :: CheckClause(c, ob, g, evidence) == Holds
  {
    if clauses != [] {
      var c, rest := clauses[0], clauses[1..];
      assert forall x :: x in clauses <==> x == c || x in rest;
      assert Parsed(c);
      if Selects(c) {
        var (field, operand) := c.eq.value;
        var q := EqConstraint(field, Resolve(operand, g.ctx).value);
        assert q in SelectorOf(clauses, g.ctx).constraints;
        RecheckIsTheFilter(c.expr, g.ctx, ob.fields, q.value);
        assert forall x | x in SelectorOf(rest, g.ctx).constraints :: x in SelectorOf(clauses, g.ctx).constraints;
        OnlyTheUnaskedDecide(rest, ob, g, evidence);
        assert [] + Unasked(rest) == Unasked(rest);
      } else {
        OnlyTheUnaskedDecide(rest, ob, g, evidence);
        assert ([c] + Unasked(rest))[1..] == Unasked(rest);
      }
    }
  }

  /**
   * With an adapter that keeps its contract, no clause the registry was asked about can fail or raise on the
   * candidate: the gate's answer is that of the remaining clauses.
   */
  lemma SelectorNeverFails(cfg: Config, g: GateContext, ob: Obligation)
    requires WellFormed(cfg, g)
    requires var selection := SelectorOf(AllClauses(cfg, g.ctx.host).value, g.ctx);
      && selection.Selector? && Candidates(cfg, g, selection.constraints) == Some([ob])
      && Honours(selection.constraints, ob, g.ctx.host)
    ensures var clauses := AllClauses(cfg, g.ctx.host).value;
      var evidence := Match(cfg.registry, [ob.ref], 1, PlanOf(cfg, g.registries.capability(cfg.registry).value));
      && (forall c | c in clauses && Selects(c) :: ClauseHolds(c, ob, g))
      && Run(Some(cfg), g) == CheckAll(Unasked(clauses), ob, g, evidence)
  {
    var clauses := AllClauses(cfg, g.ctx.host).value;
    ClausesAreParsed(cfg.match_.value, false, g.ctx.host);
    ClausesAreParsed(cfg.provenance, true, g.ctx.host);
    var evidence := Match(cfg.registry, [ob.ref], 1, PlanOf(cfg, g.registries.capability(cfg.registry).value));
    OnlyTheUnaskedDecide(clauses, ob, g, evidence);
    forall c | c in clauses && Selects(c) ensures ClauseHolds(c, ob, g) {
      assert CheckClause(c, ob, g, evidence) == Holds;
    }
  }
}
