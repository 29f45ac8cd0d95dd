/** What makes two holds the same question, and which open row a repeat collapses into. */
module Questions {
  import opened Vocabulary
  import opened Stores
  import opened Holds

  // ---- what one holding gate asked --------------------------------------------------------------

  /** The value at the end of the path; a part that is missing, or not in a mapping, leaves null. */
  ghost predicate ValueAt(value: Value, parts: seq<string>, leaf: Value) {
    if exists trail :: Trail(value, parts, trail)
    then forall trail | Trail(value, parts, trail) :: leaf == trail[|parts|]
    else leaf == Null
  }

  ghost predicate Trail(value: Value, parts: seq<string>, trail: seq<Value>) {
    && |trail| == |parts| + 1 && trail[0] == value
    && forall i | 0 <= i < |parts| :: trail[i].Rec? && parts[i] in trail[i].fields && trail[i].fields[parts[i]] == trail[i + 1]
  }

  lemma {:induction false} NullStaysNull(parts: seq<string>)
    ensures Dig(Null, parts) == Null
    decreases |parts|
  {
    if parts != [] { NullStaysNull(parts[1..]); }
  }

  lemma {:induction false} TrailLeads(value: Value, parts: seq<string>, trail: seq<Value>)
    requires Trail(value, parts, trail)
    ensures Dig(value, parts) == trail[|parts|]
    decreases |parts|
  {
    if parts != [] {
      assert forall i | 0 <= i < |parts| - 1 :: parts[1..][i] == parts[i + 1] && trail[1..][i] == trail[i + 1];
      TrailLeads(trail[1], parts[1..], trail[1..]);
    }
  }

  lemma {:induction false} DigsAlong(value: Value, parts: seq<string>)
    ensures Dig(value, parts) == Null || exists trail :: Trail(value, parts, trail)
    decreases |parts|
  {
    if parts == [] {
      assert Trail(value, parts, [value]);
    } else if value.Rec? && parts[0] in value.fields {
      var next := value.fields[parts[0]];
      DigsAlong(next, parts[1..]);
      if trail :| Trail(next, parts[1..], trail) {
        var longer := [value] + trail;
        assert forall i | 1 <= i < |parts| :: parts[i] == parts[1..][i - 1] && longer[i] == trail[i - 1];
        assert Trail(value, parts, longer);
      }
    } else {
      NullStaysNull(parts[1..]);
    }
  }

  lemma DigsTheValue(value: Value, parts: seq<string>)
    ensures ValueAt(value, parts, Dig(value, parts))
  {
    DigsAlong(value, parts);
    forall trail | Trail(value, parts, trail) ensures Dig(value, parts) == trail[|parts|] {
      TrailLeads(value, parts, trail);
    }
  }

  /** The gate, its code, its evidence, and the text of the intent's own values at the paths it compared. */
  ghost predicate AsksAbout(f: HoldFacet, action: ResolvedAction, g: GateResult, r: Rendering) {
    && f.gate == g.gate && f.code == g.code && |f.compared| == |g.fields|
    && (g.evidence.Some? && g.evidence != Some(Details(map[])) ==> f.evidence == r.dump(g.evidence.value))
    && (g.evidence.None? || g.evidence == Some(Details(map[])) ==> f.evidence == "")
    && forall i | 0 <= i < |g.fields| :: ComparesField(f.compared[i], action, g.fields[i], r)
  }

  /** A path outside the intent's data is compared by its name alone. */
  ghost predicate ComparesField(c: (FieldRef, string), action: ResolvedAction, field: FieldRef, r: Rendering) {
    && c.0 == field
    && match field
       case WorldField(_) => c.1 == ""
       case DataField(parts) => exists leaf :: ValueAt(Rec(action.data), parts, leaf) && c.1 == r.show(leaf)
  }

  lemma FacetAsks(action: ResolvedAction, g: GateResult, r: Rendering)
    ensures AsksAbout(Facet(action, g, r), action, g, r)
  {
    forall i | 0 <= i < |g.fields| ensures ComparesField(Compared(action, g.fields[i], r), action, g.fields[i], r) {
      if g.fields[i].DataField? { DigsTheValue(Rec(action.data), g.fields[i].parts); }
    }
  }

  // ---- the whole question -------------------------------------------------------------------------

  /** One facet for each holding gate, in the order of the trace, and none for any other. */
  ghost predicate AsksAll(facets: seq<HoldFacet>, action: ResolvedAction, gates: seq<GateResult>, r: Rendering)
    decreases |gates|
  {
    if gates == [] then facets == []
    else if gates[0].outcome != Outcome.Hold then AsksAll(facets, action, gates[1..], r)
    else facets != [] && AsksAbout(facets[0], action, gates[0], r) && AsksAll(facets[1..], action, gates[1..], r)
  }

  lemma {:induction false} FacetsAskAll(action: ResolvedAction, gates: seq<GateResult>, r: Rendering)
    ensures AsksAll(Facets(action, gates, r), action, gates, r)
    decreases |gates|
  {
    if gates != [] {
      var later := Facets(action, gates[1..], r);
      FacetsAskAll(action, gates[1..], r);
      if gates[0].outcome == Outcome.Hold {
        FacetAsks(action, gates[0], r);
        assert ([Facet(action, gates[0], r)] + later)[1..] == later;
      } else {
        assert [] + later == later;
      }
    }
  }

  /** A question is asked when some holding gate gives a code; it is the action and what every holding gate asked. */
  lemma QuestionTells(action: ResolvedAction, gates: seq<GateResult>, r: Rendering)
    ensures var question := HoldIdentity(action, gates, r);
      && (question.Some? <==> exists i :: 0 <= i < |gates| && gates[i].outcome == Outcome.Hold && gates[i].code != "")
      && (question.Some? ==>
            question.value.resource == action.resource && question.value.action == action.action
            && AsksAll(question.value.facets, action, gates, r))
  {
    IdentityNeedsCode(action, gates, r);
    FacetsAskAll(action, gates, r);
  }

  // ---- the open row a repeat collapses into -----------------------------------------------------------

  /** Put down no longer ago than the window allows, by the same agent, asking the same. */
  ghost predicate Repeats(row: Row, agent: string, question: HoldQuestion, now: int, window: int, r: Rendering) {
    row.createdAt >= now - window && row.agent == agent && HoldIdentity(row.resolved, row.gates, r) == Some(question)
  }

  ghost predicate FirstRepeat(held: seq<Row>, agent: string, question: HoldQuestion, now: int, window: int, r: Rendering, k: nat) {
    && k < |held| && Repeats(held[k], agent, question, now, window, r)
    && forall i | 0 <= i < k :: !Repeats(held[i], agent, question, now, window, r)
  }

  /** The earliest such row in the queue, if there is any. */
  lemma {:induction false} SearchTells(held: seq<Row>, agent: string, question: HoldQuestion, now: int, window: int, r: Rendering,
                                       k: nat)
    ensures var found := FirstDuplicate(held, DedupeKey(agent, question), now, window, r);
      && (FirstRepeat(held, agent, question, now, window, r, k) ==> found == Some(held[k]))
      && ((forall i | 0 <= i < |held| :: !Repeats(held[i], agent, question, now, window, r)) ==> found.None?)
  {
    if held != [] {
      assert forall i | 0 <= i < |held| - 1 :: held[1..][i] == held[i + 1];
      if k > 0 { SearchTells(held[1..], agent, question, now, window, r, k - 1); }
    }
  }
}
