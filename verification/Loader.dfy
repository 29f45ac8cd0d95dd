/** Flattening a chain of policy fragments, and what it preserves. */
module Loader {
  import opened Vocabulary
  import opened Compiler

  /** One document; an absent key is empty. `rest` is every other top-level key but `extends`. */
  datatype Doc = Doc(
    allow: seq<seq<Grant>>,
    deny: seq<seq<Grant>>,
    gates: map<string, GateSet>,
    standing: seq<Value>,
    scope: map<string, Value>,
    rest: map<string, Value>)

  /** A dictionary update: an existing name keeps its place and takes the new configuration. */
  function Updated(base: GateSet, more: GateSet): GateSet
    decreases |more|
  {
    if more == [] then base else Updated(Put(base, more[0]), more[1..])
  }

  function Put(base: GateSet, entry: (string, string)): GateSet {
    if base == [] then [entry]
    else if base[0].0 == entry.0 then [entry] + base[1..]
    else [base[0]] + Put(base[1..], entry)
  }

  function GatesAt(gates: map<string, GateSet>, key: string): GateSet {
    if key in gates then gates[key] else []
  }

  /** `gates` with the sets `more` has under `keys` laid over its own. */
  function OverlaidOn(gates: map<string, GateSet>, more: map<string, GateSet>, keys: set<string>): map<string, GateSet>
    requires keys <= more.Keys
  {
    map key | key in gates.Keys + keys ::
      if key in keys then Updated(GatesAt(gates, key), more[key]) else gates[key]
  }

  function Overlaid(gates: map<string, GateSet>, more: map<string, GateSet>): map<string, GateSet> {
    OverlaidOn(gates, more, more.Keys)
  }

  lemma OneMoreKey(gates: map<string, GateSet>, more: map<string, GateSet>, keys: set<string>, key: string)
    requires keys <= more.Keys && key in more && key !in keys
    ensures OverlaidOn(gates, more, keys + {key})
         == OverlaidOn(gates, more, keys)[key := Updated(GatesAt(OverlaidOn(gates, more, keys), key), more[key])]
  {
  }

  /** Permissions and standing grants are appended; scope, gates and the rest are overridden key by key. */
  function Over(base: Doc, d: Doc): Doc {
    Doc(base.allow + d.allow, base.deny + d.deny, Overlaid(base.gates, d.gates), base.standing + d.standing,
        base.scope + d.scope, base.rest + d.rest)
  }

  function Chained(base: Doc, docs: seq<Doc>): Doc
    decreases |docs|
  {
    if docs == [] then base else Chained(Over(base, docs[0]), docs[1..])
  }

  const NOTHING := Doc([], [], map[], [], map[], map[])

  function PolicyOf(d: Doc, mode: FailureMode): Policy {
    Policy(d.allow, d.deny, d.gates, mode)
  }

  /** The nested loops that extend the lists and update the dictionaries. */
  method MergeChain(docs: seq<Doc>) returns (merged: Doc)
    ensures merged == Chained(NOTHING, docs)
  {
    var allow: seq<seq<Grant>> := [];
    var deny: seq<seq<Grant>> := [];
    var gates: map<string, GateSet> := map[];
    var standing: seq<Value> := [];
    var scope: map<string, Value>, rest: map<string, Value> := map[], map[];
    assert docs[0..] == docs;
    for i := 0 to |docs|
      invariant Chained(NOTHING, docs) == Chained(Doc(allow, deny, gates, standing, scope, rest), docs[i..])
    {
      assert docs[i..][1..] == docs[i + 1..];
      allow, deny := allow + docs[i].allow, deny + docs[i].deny;
      gates := Overlay(gates, docs[i].gates);
      standing, scope, rest := standing + docs[i].standing, scope + docs[i].scope, rest + docs[i].rest;
    }
    merged := Doc(allow, deny, gates, standing, scope, rest);
  }

  method Overlay(gates: map<string, GateSet>, more: map<string, GateSet>) returns (r: map<string, GateSet>)
    ensures r == Overlaid(gates, more)
  {
    r := gates;
    var left := more.Keys;
    assert OverlaidOn(gates, more, more.Keys - left) == gates;
    while left != {}
      invariant left <= more.Keys && r == OverlaidOn(gates, more, more.Keys - left)
    {
      var key :| key in left;
      OneMoreKey(gates, more, more.Keys - left, key);
      assert more.Keys - (left - {key}) == more.Keys - left + {key};
      r := r[key := Updated(GatesAt(r, key), more[key])];
      left := left - {key};
    }
    assert more.Keys - left == more.Keys;
  }

  // ---- a merged chain decides as its documents together ------------------------------------------

  predicate Grants(rules: seq<seq<Grant>>, kind: Kind, resource: string, action: Option<string>) {
    Scan(Flat(rules), kind, resource, action).Some?
  }

  lemma {:induction false} FlatOfBoth(a: seq<seq<Grant>>, b: seq<seq<Grant>>)
    ensures Flat(a + b) == Flat(a) + Flat(b)
  {
    if a == [] {
      assert a + b == b;
    } else {
      FlatOfBoth(a[1..], b);
      assert (a + b)[1..] == a[1..] + b;
      Regroup(a[0], Flat(a[1..]), Flat(b));
    }
  }

  lemma Regroup(a: seq<Grant>, b: seq<Grant>, c: seq<Grant>)
    ensures a + (b + c) == a + b + c
  {
  }

  lemma EitherGrants(a: seq<seq<Grant>>, b: seq<seq<Grant>>, kind: Kind, resource: string, action: Option<string>)
    ensures Grants(a + b, kind, resource, action) <==> Grants(a, kind, resource, action) || Grants(b, kind, resource, action)
  {
    FlatOfBoth(a, b);
    ScanOfBoth(Flat(a), Flat(b), kind, resource, action);
  }

  lemma {:induction false} ChainGrants(base: Doc, docs: seq<Doc>, kind: Kind, resource: string, action: Option<string>)
    ensures Grants(Chained(base, docs).deny, kind, resource, action) <==>
      Grants(base.deny, kind, resource, action) || exists d :: d in docs && Grants(d.deny, kind, resource, action)
    ensures Grants(Chained(base, docs).allow, kind, resource, action) <==>
      Grants(base.allow, kind, resource, action) || exists d :: d in docs && Grants(d.allow, kind, resource, action)
    decreases |docs|
  {
    if docs != [] {
      EitherGrants(base.deny, docs[0].deny, kind, resource, action);
      EitherGrants(base.allow, docs[0].allow, kind, resource, action);
      ChainGrants(Over(base, docs[0]), docs[1..], kind, resource, action);
      assert forall d :: d in docs <==> d == docs[0] || d in docs[1..];
    }
  }

  /** Denied when any document denies, whatever the others say; otherwise allowed exactly when some document allows. */
  lemma ChainDecides(docs: seq<Doc>, mode: FailureMode, kind: Kind, resource: string, action: Option<string>)
    ensures var verdict := Authorize(PolicyOf(Chained(NOTHING, docs), mode), kind, resource, action);
      if exists d :: d in docs && Grants(d.deny, kind, resource, action) then verdict.rule == DenyRule && !verdict.allowed
      else verdict.allowed <==> exists d :: d in docs && Grants(d.allow, kind, resource, action)
  {
    ChainGrants(NOTHING, docs, kind, resource, action);
  }

  /** No document added later undoes a fragment's deny. */
  lemma DenySurvives(docs: seq<Doc>, later: seq<Doc>, mode: FailureMode, kind: Kind, resource: string, action: Option<string>)
    requires exists d :: d in docs && Grants(d.deny, kind, resource, action)
    ensures !Authorize(PolicyOf(Chained(NOTHING, docs + later), mode), kind, resource, action).allowed
  {
    var d :| d in docs && Grants(d.deny, kind, resource, action);
    assert d in docs + later;
    ChainDecides(docs + later, mode, kind, resource, action);
  }

  // ---- gate configurations: the last document that has one -----------------------------------------

  ghost predicate OneEach(g: GateSet) {
    forall i, j | 0 <= i < j < |g| :: g[i].0 != g[j].0
  }

  lemma {:induction false} PutReads(base: GateSet, entry: (string, string), name: string)
    ensures ConfigOf(Put(base, entry), name) == if entry.0 == name then Some(entry.1) else ConfigOf(base, name)
  {
    if base != [] && base[0].0 != entry.0 {
      PutReads(base[1..], entry, name);
      assert ([base[0]] + Put(base[1..], entry))[1..] == Put(base[1..], entry);
    } else if base != [] {
      assert ([entry] + base[1..])[1..] == base[1..];
    }
  }

  lemma FirstIsOnly(more: GateSet)
    requires OneEach(more) && more != []
    ensures ConfigOf(more[1..], more[0].0) == None
  {
    ConfigOfBoth(more[1..], [], more[0].0);
    assert forall i | 0 <= i < |more| - 1 :: more[1..][i] == more[i + 1];
  }

  lemma {:induction false} UpdatedReads(base: GateSet, more: GateSet, name: string)
    requires OneEach(more)
    ensures ConfigOf(Updated(base, more), name)
         == if ConfigOf(more, name).Some? then ConfigOf(more, name) else ConfigOf(base, name)
    decreases |more|
  {
    if more != [] {
      PutReads(base, more[0], name);
      UpdatedReads(Put(base, more[0]), more[1..], name);
      FirstIsOnly(more);
    }
  }

  /** What the last document that configures the gate under this key says. */
  function LastSaid(docs: seq<Doc>, key: string, name: string): Option<string> {
    if docs == [] then None
    else
      var later := LastSaid(docs[1..], key, name);
      if later.Some? then later else ConfigOf(GatesAt(docs[0].gates, key), name)
  }

  ghost predicate Dictionaries(docs: seq<Doc>) {
    forall d | d in docs :: forall key | key in d.gates :: OneEach(d.gates[key])
  }

  lemma {:induction false} LastDocumentConfigures(base: Doc, docs: seq<Doc>, key: string, name: string)
    requires Dictionaries(docs)
    ensures ConfigOf(GatesAt(Chained(base, docs).gates, key), name)
         == if LastSaid(docs, key, name).Some? then LastSaid(docs, key, name)
            else ConfigOf(GatesAt(base.gates, key), name)
    decreases |docs|
  {
    if docs != [] {
      var next := Over(base, docs[0]);
      assert docs[0] in docs && forall d | d in docs[1..] :: d in docs;
      LastDocumentConfigures(next, docs[1..], key, name);
      if key in docs[0].gates {
        UpdatedReads(GatesAt(base.gates, key), docs[0].gates[key], name);
      }
    }
  }

  /** The gate's entry in the last document that has one under this key is the entry the policy ends up with. */
  lemma LastEntryStands(base: Doc, docs: seq<Doc>, key: string, k: nat, i: nat)
    requires Dictionaries(docs) && k < |docs| && key in docs[k].gates && i < |docs[k].gates[key]|
    requires forall j | k < j < |docs| && key in docs[j].gates ::
      forall e | e in docs[j].gates[key] :: e.0 != docs[k].gates[key][i].0
    ensures var entry, gates := docs[k].gates[key][i], Chained(base, docs).gates;
      && key in gates && entry in gates[key] && ConfigOf(gates[key], entry.0) == Some(entry.1)
  {
    var entry := docs[k].gates[key][i];
    LastDocumentConfigures(base, docs, key, entry.0);
    LastSaidAt(docs, key, k, i);
    ConfigIsTheFirst(GatesAt(Chained(base, docs).gates, key), entry.0);
  }

  lemma {:induction false} LastSaidAt(docs: seq<Doc>, key: string, k: nat, i: nat)
    requires Dictionaries(docs) && k < |docs| && key in docs[k].gates && i < |docs[k].gates[key]|
    requires forall j | k < j < |docs| && key in docs[j].gates ::
      forall e | e in docs[j].gates[key] :: e.0 != docs[k].gates[key][i].0
    ensures LastSaid(docs, key, docs[k].gates[key][i].0) == Some(docs[k].gates[key][i].1)
  {
    var entry := docs[k].gates[key][i];
    assert docs[0] in docs && docs[k] in docs;
    if k == 0 {
      NeverSaid(docs[1..], key, entry.0);
      ConfigIsTheFirst(docs[0].gates[key], entry.0);
    } else {
      assert docs[1..][k - 1] == docs[k] && forall d | d in docs[1..] :: d in docs;
      assert forall j | 0 <= j < |docs| - 1 :: docs[1..][j] == docs[j + 1];
      LastSaidAt(docs[1..], key, k - 1, i);
    }
  }

  lemma {:induction false} NeverSaid(docs: seq<Doc>, key: string, name: string)
    requires forall j | 0 <= j < |docs| && key in docs[j].gates :: forall e | e in docs[j].gates[key] :: e.0 != name
    ensures LastSaid(docs, key, name) == None
  {
    if docs != [] {
      assert forall j | 0 <= j < |docs| - 1 :: docs[1..][j] == docs[j + 1];
      NeverSaid(docs[1..], key, name);
      ConfigIsTheFirst(GatesAt(docs[0].gates, key), name);
    }
  }

  // ---- scope and the rest: the last document that sets the key; standing grants: all, in order ------------

  /** The last of these that has the key. */
  function LastSet(maps: seq<map<string, Value>>, key: string): Option<Value> {
    if maps == [] then None
    else
      var last := maps[|maps| - 1];
      if key in last then Some(last[key]) else LastSet(maps[..|maps| - 1], key)
  }

  function Scopes(docs: seq<Doc>): (r: seq<map<string, Value>>)
    ensures |r| == |docs| && forall i | 0 <= i < |docs| :: r[i] == docs[i].scope
  {
    seq(|docs|, i requires 0 <= i < |docs| => docs[i].scope)
  }

  function Rests(docs: seq<Doc>): (r: seq<map<string, Value>>)
    ensures |r| == |docs| && forall i | 0 <= i < |docs| :: r[i] == docs[i].rest
  {
    seq(|docs|, i requires 0 <= i < |docs| => docs[i].rest)
  }

  function Standings(docs: seq<Doc>): seq<Value> {
    if docs == [] then [] else docs[0].standing + Standings(docs[1..])
  }

  function At(m: map<string, Value>, key: string): Option<Value> {
    if key in m then Some(m[key]) else None
  }

  lemma {:induction false} ChainedLast(base: Doc, docs: seq<Doc>)
    requires docs != []
    ensures Chained(base, docs) == Over(Chained(base, docs[..|docs| - 1]), docs[|docs| - 1])
    decreases |docs|
  {
    if |docs| > 1 {
      var rest := docs[1..];
      ChainedLast(Over(base, docs[0]), rest);
      assert rest[..|rest| - 1] == docs[..|docs| - 1][1..];
    } else {
      assert docs[..0] == [] && docs[1..] == [];
    }
  }

  /** Each key of the scope and of the rest comes from the last document that sets it. */
  lemma {:induction false} LastDocumentSets(docs: seq<Doc>, key: string)
    ensures At(Chained(NOTHING, docs).scope, key) == LastSet(Scopes(docs), key)
    ensures At(Chained(NOTHING, docs).rest, key) == LastSet(Rests(docs), key)
    decreases |docs|
  {
    if docs != [] {
      var before := docs[..|docs| - 1];
      ChainedLast(NOTHING, docs);
      LastDocumentSets(before, key);
      assert Scopes(docs)[..|docs| - 1] == Scopes(before) && Rests(docs)[..|docs| - 1] == Rests(before);
    }
  }

  /** No standing grant is lost, and they keep their order. */
  lemma {:induction false} StandingIsAll(base: Doc, docs: seq<Doc>)
    ensures Chained(base, docs).standing == base.standing + Standings(docs)
    decreases |docs|
  {
    if docs != [] {
      StandingIsAll(Over(base, docs[0]), docs[1..]);
    }
  }
}
