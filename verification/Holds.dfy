/** The identity of a held question, and the search for an open duplicate of it. */
module Holds {
  import opened Vocabulary
  import opened Stores

  /** Python's `str` on payload values and `json.dumps` on evidence, left abstract. */
  datatype Rendering = Rendering(show: Value -> string, dump: Evidence -> string)

  /** Follow the parts into nested mappings; anything missing reads as null. */
  function Dig(value: Value, parts: seq<string>): Value
    decreases |parts|
  {
    if parts == [] then value
    else if value.Rec? && parts[0] in value.fields then Dig(value.fields[parts[0]], parts[1..])
    else Dig(Null, parts[1..])
  }

  /** What the intent claimed at one compared path; only `data` paths are the intent's own. */
  function Compared(resolved: ResolvedAction, field: FieldRef, r: Rendering): (FieldRef, string) {
    if field.DataField? then (field, r.show(Dig(Rec(resolved.data), field.parts))) else (field, "")
  }

  function Facet(resolved: ResolvedAction, g: GateResult, r: Rendering): HoldFacet {
    var evidence :=
      if g.evidence.None? || g.evidence == Some(Details(map[])) then "" else r.dump(g.evidence.value);
    HoldFacet(g.gate, g.code, evidence,
              seq(|g.fields|, i requires 0 <= i < |g.fields| => Compared(resolved, g.fields[i], r)))
  }

  function Facets(resolved: ResolvedAction, gates: seq<GateResult>, r: Rendering): seq<HoldFacet> {
    if gates == [] then []
    else
      (if gates[0].outcome == Outcome.Hold then [Facet(resolved, gates[0], r)] else [])
      + Facets(resolved, gates[1..], r)
  }

  /** None unless some holding gate carries a reason code: an approval-shaped hold is always its own question. */
  function HoldIdentity(resolved: ResolvedAction, gates: seq<GateResult>, r: Rendering): Option<HoldQuestion> {
    var facets := Facets(resolved, gates, r);
    if exists f :: f in facets && f.code != ""
    then Some(HoldQuestion(resolved.resource, resolved.action, facets))
    else None
  }

  datatype DedupeKey = DedupeKey(agent: string, question: HoldQuestion)

  function HoldKey(agent: string, resolved: ResolvedAction, gates: seq<GateResult>, r: Rendering): Option<DedupeKey> {
    match HoldIdentity(resolved, gates, r)
    case None => None
    case Some(question) => Some(DedupeKey(agent, question))
  }

  function RowKey(row: Row, r: Rendering): Option<DedupeKey> {
    HoldKey(row.agent, row.resolved, row.gates, r)
  }

  predicate Duplicates(row: Row, key: DedupeKey, now: int, window: int, r: Rendering) {
    now - row.createdAt <= window && RowKey(row, r) == Some(key)
  }

  /** The first held row inside the window with this key. */
  function FirstDuplicate(held: seq<Row>, key: DedupeKey, now: int, window: int, r: Rendering): (found: Option<Row>)
    ensures found.Some? ==> found.value in held && Duplicates(found.value, key, now, window, r)
    ensures found.None? ==> forall row | row in held :: !Duplicates(row, key, now, window, r)
  {
    if held == [] then None
    else if Duplicates(held[0], key, now, window, r) then Some(held[0])
    else FirstDuplicate(held[1..], key, now, window, r)
  }

  /** A key exists exactly when some holding gate gave a code. */
  lemma {:induction false} IdentityNeedsCode(resolved: ResolvedAction, gates: seq<GateResult>, r: Rendering)
    ensures HoldIdentity(resolved, gates, r).Some? <==>
      exists g :: g in gates && g.outcome == Outcome.Hold && g.code != ""
  {
    FacetCodes(resolved, gates, r);
  }

  lemma {:induction false} FacetCodes(resolved: ResolvedAction, gates: seq<GateResult>, r: Rendering)
    ensures (exists f :: f in Facets(resolved, gates, r) && f.code != "") <==>
      (exists g :: g in gates && g.outcome == Outcome.Hold && g.code != "")
  {
    if gates != [] {
      var rest := gates[1..];
      FacetCodes(resolved, rest, r);
      var head := if gates[0].outcome == Outcome.Hold then [Facet(resolved, gates[0], r)] else [];
      assert Facets(resolved, gates, r) == head + Facets(resolved, rest, r);
      assert forall g :: g in gates <==> g == gates[0] || g in rest;
      if gates[0].outcome == Outcome.Hold {
        assert head[0] in Facets(resolved, gates, r);
      }
    }
  }

  lemma {:induction false} HeldRowsAre(rows: seq<Row>)
    ensures forall row :: row in HeldRows(rows) <==> row in rows && row.state == PendingApproval
  {
    if rows != [] {
      HeldRowsAre(rows[1..]);
      assert forall row :: row in rows <==> row == rows[0] || row in rows[1..];
    }
  }
}
