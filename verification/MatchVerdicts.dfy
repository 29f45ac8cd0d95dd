/** What the match gate asks its registry, and what it answers to every answer of the registry. */
module MatchVerdicts {
  import opened Vocabulary
  import opened Syntax
  import opened Text
  import opened Evaluation
  import opened RequireMatch
  import opened MatchSoundness

  // ---- the paths a refusal may name -------------------------------------------------------------

  /** The namespaces an intent's side is written in. */
  const NAMESPACES := {"action", "data", "resource", "actor", "context"}

  /** A path into the intent's data by its parts, any other by its text. */
  lemma FieldTells(parts: seq<string>)
    requires |parts| > 1
    ensures FieldOf(parts) == if parts[0] == "data" then DataField(parts[1..]) else WorldField(JoinDots(parts))
  {
  }

  /** A path shows when it goes somewhere inside a namespace, and no other does. */
  lemma PathShows(path: seq<string>)
    ensures IntentFields([path]) == if |path| > 1 && path[0] in NAMESPACES then [FieldOf(path)] else []
  {
    assert [path][1..] == [];
  }

  lemma {:induction false} PathsShowInOrder(a: seq<seq<string>>, b: seq<seq<string>>)
    ensures IntentFields(a + b) == IntentFields(a) + IntentFields(b)
  {
    if a == [] {
      assert a + b == b;
    } else {
      PathsShowInOrder(a[1..], b);
      assert (a + b)[1..] == a[1..] + b;
      Regrouped(if |a[0]| > 1 && Frozen(a[0][0]) then [FieldOf(a[0])] else [], IntentFields(a[1..]), IntentFields(b));
    }
  }

  lemma Regrouped(a: seq<FieldRef>, b: seq<FieldRef>, c: seq<FieldRef>)
    ensures a + (b + c) == a + b + c
  {
  }

  /** Each of them once. */
  ghost predicate Once(fields: seq<FieldRef>) {
    forall i, j | 0 <= i < j < |fields| :: fields[i] != fields[j]
  }

  lemma {:induction false} AddedOnce(fields: seq<FieldRef>, seen: seq<FieldRef>)
    requires Once(seen)
    ensures var all := AddFields(fields, seen);
      && Once(all) && seen <= all && forall f :: f in all <==> f in seen || f in fields
    decreases |fields|
  {
    if fields != [] {
      var next := if fields[0] in seen then seen else seen + [fields[0]];
      AddedOnce(fields[1..], next);
      assert forall f :: f in fields <==> f == fields[0] || f in fields[1..];
    }
  }

  /** A refusal for want of one record names every compared path, once, those seen before ahead of those seen after. */
  lemma {:induction false} AllFieldsTell(clauses: seq<Clause>, seen: seq<FieldRef>)
    requires Once(seen)
    ensures var all := AllFields(clauses, seen);
      && Once(all) && seen <= all && forall f :: f in all <==> f in seen || exists c :: c in clauses && f in FieldsOf(c)
    decreases |clauses|
  {
    if clauses != [] {
      AddedOnce(FieldsOf(clauses[0]), seen);
      AllFieldsTell(clauses[1..], AddFields(FieldsOf(clauses[0]), seen));
      assert forall c :: c in clauses <==> c == clauses[0] || c in clauses[1..];
    }
  }

  // ---- the question to the registry -----------------------------------------------------------------

  /** A clause of the match itself that fixes a field of the record; provenance is only checked afterwards. */
  ghost predicate AsksRegistry(c: Clause) {
    c.Condition? && !c.provenance && c.eq.Some?
  }

  /** One constraint for each such clause in order: its field, and what the intent's side comes to. */
  ghost predicate AsksFor(selector: seq<EqConstraint>, clauses: seq<Clause>, ctx: Context)
    decreases |clauses|
  {
    if clauses == [] then selector == []
    else if !AsksRegistry(clauses[0]) then AsksFor(selector, clauses[1..], ctx)
    else
      && selector != [] && selector[0].field == clauses[0].eq.value.0
      && Resolve(clauses[0].eq.value.1, ctx) == Ans(selector[0].value) && AsksFor(selector[1..], clauses[1..], ctx)
  }

  /** The first such clause whose own side comes to nothing. */
  ghost predicate FirstUnresolved(clauses: seq<Clause>, ctx: Context, k: nat) {
    && k < |clauses| && AsksRegistry(clauses[k]) && !Resolve(clauses[k].eq.value.1, ctx).Ans?
    && forall i | 0 <= i < k && AsksRegistry(clauses[i]) :: Resolve(clauses[i].eq.value.1, ctx).Ans?
  }

  lemma {:induction false} SelectorTells(clauses: seq<Clause>, ctx: Context, k: nat)
    ensures var s := SelectorOf(clauses, ctx);
      && (s.Selector? ==> AsksFor(s.constraints, clauses, ctx))
      && (FirstUnresolved(clauses, ctx, k) ==>
            s == if Resolve(clauses[k].eq.value.1, ctx) == Raises then Escapes else Unresolved(clauses[k]))
    decreases |clauses|
  {
    if clauses != [] {
      SelectorTells(clauses[1..], ctx, if k > 0 then k - 1 else 0);
      if k > 0 && FirstUnresolved(clauses, ctx, k) {
        assert clauses[1..][k - 1] == clauses[k];
        assert forall i | 0 <= i < k - 1 :: clauses[1..][i] == clauses[i + 1];
        assert FirstUnresolved(clauses[1..], ctx, k - 1);
      }
      var s := SelectorOf(clauses, ctx);
      if s.Selector? && AsksRegistry(clauses[0]) {
        assert s.constraints[1..] == SelectorOf(clauses[1..], ctx).constraints;
      }
    }
  }

  // ---- the answer to its answer ---------------------------------------------------------------------------

  ghost predicate Says(r: GateResult, outcome: Outcome, code: string, retry: Option<RetryClass>, fields: seq<FieldRef>) {
    r.gate == Gate.RequireMatch && r.outcome == outcome && r.code == code && r.retryClass == retry && r.fields == fields
  }

  /** The references it answered with, in its order, their number, and no plan. */
  ghost predicate NamesAll(r: GateResult, cfg: Config, found: seq<Obligation>) {
    && r.evidence.Some? && r.evidence.value.Match? && var seen := r.evidence.value;
    && seen.registry == cfg.registry && seen.candidates == |found| && seen.plan.None? && |seen.refs| == |found|
    && forall i | 0 <= i < |found| :: seen.refs[i] == found[i].ref
  }

  /** Its one record with the plan to spend it, or to spend nothing. */
  ghost predicate NamesOne(r: GateResult, cfg: Config, g: GateContext, ob: Obligation) {
    && r.evidence.Some? && r.evidence.value.Match? && var seen := r.evidence.value;
    && seen.registry == cfg.registry && seen.refs == [ob.ref] && seen.candidates == 1 && seen.plan.Some?
    && g.registries.capability(cfg.registry) == Some(seen.plan.value.capability)
    && match cfg.consume
       case Spends(path) => seen.plan.value.consume == Consume.Path(path)
       case _ => seen.plan.value.consume == Nothing
  }

  /** With no record, or with several, nothing is chosen: refused or put to a human as configured. */
  lemma UnmatchedTells(cfg: Config, g: GateContext, clauses: seq<Clause>, found: seq<Obligation>)
    requires g.registries.capability(cfg.registry).Some? && |found| != 1
    ensures var r, fields := Decide(cfg, g, clauses, found), AllFields(clauses, []);
      && r.Ans? && NamesAll(r.value, cfg, found)
      && (found == [] && cfg.holdsOnNoMatch ==> Says(r.value, Outcome.Hold, "no-match", None, fields))
      && (found == [] && !cfg.holdsOnNoMatch ==> Says(r.value, Outcome.Fail, "no-match", Some(Terminal), fields))
      && (found != [] && cfg.onAmbiguous.AmbiguousDenies? ==>
            Says(r.value, Outcome.Fail, "ambiguous-match", Some(Escalate), fields))
      && (found != [] && !cfg.onAmbiguous.AmbiguousDenies? ==> Says(r.value, Outcome.Hold, "ambiguous-match", None, fields))
  {
  }

  ghost predicate FirstFalse(clauses: seq<Clause>, ob: Obligation, g: GateContext, k: nat) {
    k < |clauses| && !ClauseHolds(clauses[k], ob, g) && forall i | 0 <= i < k :: ClauseHolds(clauses[i], ob, g)
  }

  /** Both numbers are there to compare. */
  ghost predicate Comparable(c: Clause, ob: Obligation, g: GateContext)
    requires c.Near?
  {
    exists theirs: real, ours: real ::
      && Number(LookupField(ob.fields, c.field), g.ctx.host, theirs)
      && Number(Lookup(g.ctx.namespaces, SplitDots(c.matches)), g.ctx.host, ours)
  }

  /** A clause that is false of the record says why; one that cannot be evaluated refuses without a code. */
  ghost predicate TellsFalse(r: Eval<GateResult>, c: Clause, ob: Obligation, g: GateContext) {
    match c
    case Near(_, _, _, _, provenance) =>
      && r.Ans?
      && (Comparable(c, ob, g) && provenance ==>
            Says(r.value, Outcome.Fail, "provenance-mismatch", Some(Terminal), FieldsOf(c)))
      && (Comparable(c, ob, g) && !provenance ==>
            Says(r.value, Outcome.Fail, "outside-tolerance", Some(Retryable), FieldsOf(c)))
      && (!Comparable(c, ob, g) ==> Says(r.value, Outcome.Fail, "", None, FieldsOf(c)))
    case Condition(e, _, fields, provenance) =>
      match Evaluate(e, Extended(g.ctx, OBLIGATION, ob.fields))
      case Raises => r == Raises
      case FailClosed => r.Ans? && Says(r.value, Outcome.Fail, "", None, fields)
      case Ans(_) =>
        r.Ans? && Says(r.value, Outcome.Fail, if provenance then "provenance-mismatch" else "match-failed", Some(Terminal), fields)
  }

  lemma FalseTells(c: Clause, ob: Obligation, g: GateContext, evidence: Evidence)
    requires !ClauseHolds(c, ob, g)
    ensures var v := CheckClause(c, ob, g, evidence);
      && !v.Holds?
      && TellsFalse(if v.Fails? then Ans(v.result) else Raises, c, ob, g)
      && (v.Fails? ==> v.result.evidence == Some(evidence))
  {
    ClauseExact(c, ob, g, evidence);
    if c.Near? {
      var sides := Sides(c, ob, g);
      if sides.Some? {
        assert Number(LookupField(ob.fields, c.field), g.ctx.host, sides.value.0);
        assert Number(Lookup(g.ctx.namespaces, SplitDots(c.matches)), g.ctx.host, sides.value.1);
      }
    }
  }

  lemma {:induction false} FirstFalseDecides(clauses: seq<Clause>, ob: Obligation, g: GateContext, evidence: Evidence, k: nat)
    requires FirstFalse(clauses, ob, g, k)
    ensures var r := CheckAll(clauses, ob, g, evidence);
      TellsFalse(r, clauses[k], ob, g) && (r.Ans? ==> r.value.evidence == Some(evidence))
    decreases |clauses|
  {
    if k == 0 {
      FalseTells(clauses[0], ob, g, evidence);
    } else {
      assert clauses[1..][k - 1] == clauses[k] && forall i | 0 <= i < k - 1 :: clauses[1..][i] == clauses[i + 1];
      ClauseExact(clauses[0], ob, g, evidence);
      FirstFalseDecides(clauses[1..], ob, g, evidence, k - 1);
    }
  }

  /** Of its one record the first clause that is false decides, and without one the gate passes with the record. */
  lemma MatchedTells(cfg: Config, g: GateContext, clauses: seq<Clause>, ob: Obligation, k: nat)
    requires g.registries.capability(cfg.registry).Some?
    ensures var r := Decide(cfg, g, clauses, [ob]);
      && (r.Ans? ==> NamesOne(r.value, cfg, g, ob))
      && (FirstFalse(clauses, ob, g, k) ==> TellsFalse(r, clauses[k], ob, g))
      && (AllHold(clauses, ob, g) ==> r.Ans? && Says(r.value, Outcome.Pass, "", None, []))
  {
    var evidence := Match(cfg.registry, [ob.ref], 1, PlanOf(cfg, g.registries.capability(cfg.registry).value));
    ChecksKeepEvidence(clauses, ob, g, evidence);
    ChecksExact(clauses, ob, g, evidence);
    if FirstFalse(clauses, ob, g, k) {
      FirstFalseDecides(clauses, ob, g, evidence, k);
    }
  }

  /**
   * The gate acts only on a configuration in order: it refuses where the intent's own side does not resolve, and while
   * the registry cannot be asked passes only as the failure mode admits; otherwise it answers what was found.
   */
  lemma GateTells(cfg: Config, g: GateContext, k: nat)
    requires InOrder(cfg, g)
    ensures WellFormed(cfg, g)
    ensures var r, clauses := Run(Some(cfg), g), AllClauses(cfg, g.ctx.host).value;
      var selection := SelectorOf(clauses, g.ctx);
      && (FirstUnresolved(clauses, g.ctx, k) && Resolve(clauses[k].eq.value.1, g.ctx) == FailClosed ==>
            r.Ans? && Says(r.value, Outcome.Fail, "", None, FieldsOf(clauses[k])) && r.value.evidence.None?)
      && (selection.Selector? && Candidates(cfg, g, selection.constraints).None? ==>
            r.Ans? && r.value.evidence.None?
            && Says(r.value, if g.failureMode == Open && !(g.resolved.kind == Effect && g.resolved.reversibility == Irreversible)
                             then Outcome.Pass else Outcome.Fail, "", None, []))
      && (selection.Selector? && Candidates(cfg, g, selection.constraints).Some? ==>
            r == Decide(cfg, g, clauses, Candidates(cfg, g, selection.constraints).value))
  {
    WellFormedExactly(cfg, g);
    SelectorTells(AllClauses(cfg, g.ctx.host).value, g.ctx, k);
  }
}
