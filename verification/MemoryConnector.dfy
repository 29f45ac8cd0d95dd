/** The in-memory connector: tables, recorded effects, and dispatch that is idempotent on its key. */
module MemoryConnector {
  import opened Vocabulary

  datatype Receipt =
    | Rows(rows: seq<Payload>)
    | Created(resource: string)
    | NotTransitioned
    | Transitioned(state: Value)
    | Sent(handle: Option<string>)

  /** `key` is None for an effect that was executed rather than dispatched. */
  datatype EffectEntry = EffectEntry(resource: string, action: Option<string>, data: Payload, key: Option<string>)

  /** A scope predicate over a row, and Python's `str`. */
  datatype Host = Host(matches: (string, Payload, Actor) -> bool, show: Value -> string)

  /** The connector's three fields as one value. */
  datatype Memory = Memory(
    tables: map<string, seq<Payload>>,
    effects: seq<EffectEntry>,
    dispatched: map<string, Receipt>)

  const ID := "id"

  function CamelId(resource: string): string {
    (if resource == "" then "" else [Lower(resource[0])] + resource[1..]) + "Id"
  }

  function Lower(c: char): char {
    if 'A' <= c <= 'Z' then ((c as int) - ('A' as int) + ('a' as int)) as char else c
  }

  /** What row the action names; None when it names none. */
  function TargetId(a: ResolvedAction): Option<Value> {
    var found :=
      if ID in a.data then a.data[ID]
      else if "targetId" in a.data then a.data["targetId"]
      else if "target" in a.data then a.data["target"]
      else if CamelId(a.resource) in a.data then a.data[CamelId(a.resource)]
      else Null;
    if found == Null then None else Some(found)
  }

  function Table(tables: map<string, seq<Payload>>, resource: string): seq<Payload> {
    if resource in tables then tables[resource] else []
  }

  predicate Named(row: Payload, id: Value, h: Host) {
    h.show(if ID in row then row[ID] else Null) == h.show(id)
  }

  predicate Visible(row: Payload, scope: Option<string>, actor: Actor, h: Host) {
    scope.Some? ==> h.matches(scope.value, row, actor)
  }

  /** The first row with this id decides: its index when it is in scope, else the length. */
  function FindRow(rows: seq<Payload>, id: Value, scope: Option<string>, actor: Actor, h: Host): (at: nat)
    ensures at <= |rows|
  {
    if rows == [] then 0
    else if Named(rows[0], id, h) then if Visible(rows[0], scope, actor, h) then 0 else |rows|
    else 1 + FindRow(rows[1..], id, scope, actor, h)
  }

  /** The row the action names is there, first of its id, and in the actor's scope. */
  ghost predicate TargetInScope(m: Memory, a: ResolvedAction, scope: Option<string>, actor: Actor, h: Host) {
    && TargetId(a).Some?
    && exists i :: (
         && 0 <= i < |Table(m.tables, a.resource)|
         && Named(Table(m.tables, a.resource)[i], TargetId(a).value, h)
         && Visible(Table(m.tables, a.resource)[i], scope, actor, h)
         && forall k | 0 <= k < i :: !Named(Table(m.tables, a.resource)[k], TargetId(a).value, h))
  }

  predicate Found(m: Memory, a: ResolvedAction, scope: Option<string>, actor: Actor, h: Host) {
    && TargetId(a).Some?
    && FindRow(Table(m.tables, a.resource), TargetId(a).value, scope, actor, h) < |Table(m.tables, a.resource)|
  }

  lemma {:induction false} FindRowIsExact(rows: seq<Payload>, id: Value, scope: Option<string>, actor: Actor, h: Host)
    ensures var at := FindRow(rows, id, scope, actor, h);
      && (at < |rows| ==> Named(rows[at], id, h) && Visible(rows[at], scope, actor, h)
                          && forall k | 0 <= k < at :: !Named(rows[k], id, h))
      && (at == |rows| ==> forall i | 0 <= i < |rows| && Named(rows[i], id, h) ::
            (exists k :: 0 <= k < i && Named(rows[k], id, h)) || !Visible(rows[i], scope, actor, h))
  {
    if rows != [] && !Named(rows[0], id, h) {
      var rest := rows[1..];
      FindRowIsExact(rest, id, scope, actor, h);
      forall i | 0 <= i < |rows| && Named(rows[i], id, h) && FindRow(rows, id, scope, actor, h) == |rows|
        ensures (exists k :: 0 <= k < i && Named(rows[k], id, h)) || !Visible(rows[i], scope, actor, h)
      {
        assert rest[i - 1] == rows[i];
        if k :| 0 <= k < i - 1 && Named(rest[k], id, h) {
          assert Named(rows[k + 1], id, h);
        }
      }
    }
  }

  /** The search succeeds exactly when the named row is there, first of its id, and in scope. */
  lemma FoundIsExact(m: Memory, a: ResolvedAction, scope: Option<string>, actor: Actor, h: Host)
    ensures Found(m, a, scope, actor, h) <==> TargetInScope(m, a, scope, actor, h)
  {
    if TargetId(a).Some? {
      FindRowIsExact(Table(m.tables, a.resource), TargetId(a).value, scope, actor, h);
    }
  }

  // ---- one call ---------------------------------------------------------------------------------

  predicate Truthy(v: Value) {
    match v
    case Null => false
    case Bool(b) => b
    case Num(n) => n != 0.0
    case Str(s) => s != ""
    case List(items) => items != []
    case Rec(fields) => fields != map[]
  }

  function NewState(a: ResolvedAction): Value {
    if "to" in a.data && Truthy(a.data["to"]) then a.data["to"]
    else if a.action.Some? then Str(a.action.value) else Null
  }

  function Filter(rows: seq<Payload>, scope: Option<string>, actor: Actor, h: Host): seq<Payload> {
    if rows == [] then []
    else (if Visible(rows[0], scope, actor, h) then [rows[0]] else []) + Filter(rows[1..], scope, actor, h)
  }

  function EntryOf(a: ResolvedAction, key: Option<string>): EffectEntry {
    EffectEntry(a.resource, a.action, a.data, key)
  }

  /** Reads and writes; an effect executed here is only recorded, without a key. */
  function Execute(m: Memory, a: ResolvedAction, scope: Option<string>, actor: Actor, h: Host): (Memory, Receipt) {
    var rows := Table(m.tables, a.resource);
    match a.kind
    case Observe => (m, Rows(Filter(rows, scope, actor, h)))
    case Record => (m.(tables := m.tables[a.resource := rows + [a.data]]), Created(a.resource))
    case Transition =>
      if !Found(m, a, scope, actor, h) then (m, NotTransitioned)
      else
        var at := FindRow(rows, TargetId(a).value, scope, actor, h);
        var moved := rows[at := rows[at]["state" := NewState(a)]];
        (m.(tables := m.tables[a.resource := moved]), Transitioned(NewState(a)))
    case _ => (m.(effects := m.effects + [EntryOf(a, None)]), Sent(None))
  }

  /** Idempotent on the key; None when the target left the actor's scope. */
  function Dispatch(m: Memory, a: ResolvedAction, actor: Actor, key: string, scope: Option<string>, h: Host)
    : (Memory, Option<Receipt>)
  {
    if key in m.dispatched then (m, Some(m.dispatched[key]))
    else if scope.Some? && TargetId(a).Some? && !Found(m, a, scope, actor, h) then (m, None)
    else
      var receipt := Sent(Some(key));
      (m.(effects := m.effects + [EntryOf(a, Some(key))], dispatched := m.dispatched[key := receipt]), Some(receipt))
  }

  // ---- what each kind does --------------------------------------------------------------------------

  /** The keys an action may name its row under, in the order they are tried, before its resource's own. */
  const TARGET_KEYS := [ID, "targetId", "target"]

  const UPPER := "ABCDEFGHIJKLMNOPQRSTUVWXYZ"
  const LOWER := "abcdefghijklmnopqrstuvwxyz"

  /** `key` is `<resource>Id` with the resource's first letter in lower case. */
  ghost predicate OwnKey(resource: string, key: string) {
    if resource == "" then key == "Id"
    else
      && |key| == |resource| + 2 && key[1..] == resource[1..] + "Id"
      && (resource[0] !in UPPER ==> key[0] == resource[0])
      && forall k | 0 <= k < 26 && UPPER[k] == resource[0] :: key[0] == LOWER[k]
  }

  /** The first of the keys that the action carries names the row, unless it carries null. */
  lemma TargetIsTheFirstKey(a: ResolvedAction, k: nat, own: string)
    requires OwnKey(a.resource, own)
    ensures k < 3 && TARGET_KEYS[k] in a.data && (forall i | 0 <= i < k :: TARGET_KEYS[i] !in a.data) ==>
      TargetId(a) == if a.data[TARGET_KEYS[k]] == Null then None else Some(a.data[TARGET_KEYS[k]])
    ensures (forall i | 0 <= i < 3 :: TARGET_KEYS[i] !in a.data) ==>
      TargetId(a) == if own !in a.data || a.data[own] == Null then None else Some(a.data[own])
  {
    assert own == CamelId(a.resource) by {
      if a.resource != "" {
        LowerIsPositional(a.resource[0]);
        assert own == [own[0]] + own[1..];
      }
    }
    assert TARGET_KEYS[0] == ID && TARGET_KEYS[1] == "targetId" && TARGET_KEYS[2] == "target";
  }

  lemma LowerIsPositional(c: char)
    ensures forall k | 0 <= k < 26 :: UPPER[k] as int == 'A' as int + k && LOWER[k] as int == 'a' as int + k
    ensures c !in UPPER ==> Lower(c) == c
    ensures forall k | 0 <= k < 26 && UPPER[k] == c :: Lower(c) == LOWER[k]
  {
    if 'A' <= c <= 'Z' {
      assert UPPER[c as int - 'A' as int] == c;
    }
  }

  /** The empty values of each kind, and no others, are false. */
  lemma FalseWhenEmpty(v: Value)
    ensures !Truthy(v) <==> v in {Null, Bool(false), Num(0.0), Str(""), List([]), Rec(map[])}
  {
  }

  /** A read shows the rows in scope, each in its place among the others. */
  lemma {:induction false} ReadShows(a: seq<Payload>, b: seq<Payload>, scope: Option<string>, actor: Actor, h: Host)
    ensures Filter(a + b, scope, actor, h) == Filter(a, scope, actor, h) + Filter(b, scope, actor, h)
  {
    if a == [] {
      assert a + b == b;
    } else {
      ReadShows(a[1..], b, scope, actor, h);
      assert (a + b)[1..] == a[1..] + b;
      RowsRegrouped(if Visible(a[0], scope, actor, h) then [a[0]] else [], Filter(a[1..], scope, actor, h), Filter(b, scope, actor, h));
    }
  }

  lemma RowsRegrouped(a: seq<Payload>, b: seq<Payload>, c: seq<Payload>)
    ensures a + (b + c) == a + b + c
  {
  }

  lemma RowShows(row: Payload, scope: Option<string>, actor: Actor, h: Host)
    ensures Filter([row], scope, actor, h) == if scope.None? || h.matches(scope.value, row, actor) then [row] else []
  {
    assert [row][1..] == [];
  }

  /** The row at `at` is the first of the id the action names, and the actor may see it. */
  ghost predicate Reached(m: Memory, a: ResolvedAction, scope: Option<string>, actor: Actor, h: Host, at: nat) {
    && a.resource in m.tables && at < |m.tables[a.resource]| && TargetId(a).Some?
    && SameId(m.tables[a.resource][at], TargetId(a).value, h)
    && (forall k | 0 <= k < at :: !SameId(m.tables[a.resource][k], TargetId(a).value, h))
    && (scope.Some? ==> h.matches(scope.value, m.tables[a.resource][at], actor))
  }

  /** Identities are compared as text; a row without one has the text of null. */
  ghost predicate SameId(row: Payload, id: Value, h: Host) {
    && (ID in row ==> h.show(row[ID]) == h.show(id))
    && (ID !in row ==> h.show(Null) == h.show(id))
  }

  lemma ReachedIsFound(m: Memory, a: ResolvedAction, scope: Option<string>, actor: Actor, h: Host, at: nat)
    requires TargetId(a).Some? && a.resource in m.tables
    ensures Reached(m, a, scope, actor, h, at) <==>
      at < |m.tables[a.resource]| && at == FindRow(m.tables[a.resource], TargetId(a).value, scope, actor, h)
  {
    var rows, id := m.tables[a.resource], TargetId(a).value;
    assert forall row :: SameId(row, id, h) <==> Named(row, id, h);
    FindRowIsExact(rows, id, scope, actor, h);
  }

  /** One field of one row of one table. */
  ghost predicate OnlyState(m: Memory, m': Memory, resource: string, at: nat, state: Value)
    requires resource in m.tables && at < |m.tables[resource]|
  {
    && m'.effects == m.effects && m'.dispatched == m.dispatched
    && m'.tables.Keys == m.tables.Keys
    && (forall r | r in m.tables && r != resource :: m'.tables[r] == m.tables[r])
    && |m'.tables[resource]| == |m.tables[resource]|
    && (forall k | 0 <= k < |m.tables[resource]| && k != at :: m'.tables[resource][k] == m.tables[resource][k])
    && m'.tables[resource][at] == m.tables[resource][at] + map["state" := state]
  }

  lemma ReadChangesNothing(m: Memory, a: ResolvedAction, scope: Option<string>, actor: Actor, h: Host)
    requires a.kind == Observe
    ensures var (m', r) := Execute(m, a, scope, actor, h);
      m' == m && r == Rows(if a.resource in m.tables then Filter(m.tables[a.resource], scope, actor, h) else [])
  {
  }

  /** A record is the last row of its table, and nothing else changes. */
  lemma RecordIsAppended(m: Memory, a: ResolvedAction, scope: Option<string>, actor: Actor, h: Host)
    requires a.kind == Record
    ensures var (m', r) := Execute(m, a, scope, actor, h);
      && r == Created(a.resource) && m'.effects == m.effects && m'.dispatched == m.dispatched
      && m'.tables.Keys == m.tables.Keys + {a.resource}
      && (forall other | other in m.tables && other != a.resource :: m'.tables[other] == m.tables[other])
      && m'.tables[a.resource] == (if a.resource in m.tables then m.tables[a.resource] else []) + [a.data]
  {
  }

  /** The state asked for, unless it is empty; by default the action's own name. */
  ghost predicate AsksForState(a: ResolvedAction, state: Value) {
    if "to" in a.data && a.data["to"] !in {Null, Bool(false), Num(0.0), Str(""), List([]), Rec(map[])} then state == a.data["to"]
    else if a.action.Some? then state == Str(a.action.value) else state == Null
  }

  lemma NewStateIsAskedFor(a: ResolvedAction)
    ensures AsksForState(a, NewState(a))
  {
    if "to" in a.data { FalseWhenEmpty(a.data["to"]); }
  }

  /** A transition changes the state of the row it reaches to the one asked for, and without such a row nothing. */
  lemma TransitionIsExact(m: Memory, a: ResolvedAction, scope: Option<string>, actor: Actor, h: Host, at: nat, state: Value)
    requires a.kind == Transition && AsksForState(a, state)
    ensures var (m', r) := Execute(m, a, scope, actor, h);
      && (Reached(m, a, scope, actor, h, at) ==> r == Transitioned(state) && OnlyState(m, m', a.resource, at, state))
      && ((forall k: nat :: !Reached(m, a, scope, actor, h, k)) ==> m' == m && r == NotTransitioned)
  {
    NewStateIsAskedFor(a);
    if Reached(m, a, scope, actor, h, at) {
      ReachedIsFound(m, a, scope, actor, h, at);
    } else if TargetId(a).Some? && a.resource in m.tables && Found(m, a, scope, actor, h) {
      ReachedIsFound(m, a, scope, actor, h, FindRow(m.tables[a.resource], TargetId(a).value, scope, actor, h));
    }
  }

  // ---- the connector object ------------------------------------------------------------------------

  class InMemoryConnector {
    const host: Host
    var tables: map<string, seq<Payload>>
    var effects: seq<EffectEntry>
    var dispatched: map<string, Receipt>

    constructor (host: Host, tables: map<string, seq<Payload>>)
      ensures Contents() == Memory(tables, [], map[]) && this.host == host
    {
      this.host, this.tables := host, tables;
      effects, dispatched := [], map[];
    }

    function Contents(): Memory
      reads this
    {
      Memory(tables, effects, dispatched)
    }

    /** The search loop. */
    method Find(a: ResolvedAction, scope: Option<string>, actor: Actor) returns (at: Option<nat>)
      ensures at.Some? <==> Found(Contents(), a, scope, actor, host)
      ensures at.Some? ==> at.value == FindRow(Table(tables, a.resource), TargetId(a).value, scope, actor, host)
    {
      var id := TargetId(a);
      if id.None? { return None; }
      var rows := Table(tables, a.resource);
      assert rows[0..] == rows;
      for i := 0 to |rows|
        invariant FindRow(rows, id.value, scope, actor, host) == i + FindRow(rows[i..], id.value, scope, actor, host)
      {
        assert rows[i..][1..] == rows[i + 1..];
        if Named(rows[i], id.value, host) {
          return if Visible(rows[i], scope, actor, host) then Some(i) else None;
        }
      }
      return None;
    }

    method Run(a: ResolvedAction, scope: Option<string>, actor: Actor) returns (r: Receipt)
      modifies this
      ensures (Contents(), r) == Execute(old(Contents()), a, scope, actor, host)
    {
      var rows := Table(tables, a.resource);
      if a.kind == Observe {
        var visible := Narrow(rows, scope, actor);
        return Rows(visible);
      }
      if a.kind == Record {
        tables := tables[a.resource := rows + [a.data]];
        return Created(a.resource);
      }
      if a.kind == Transition {
        var at := Find(a, scope, actor);
        if at.None? { return NotTransitioned; }
        tables := tables[a.resource := rows[at.value := rows[at.value]["state" := NewState(a)]]];
        return Transitioned(NewState(a));
      }
      effects := effects + [EntryOf(a, None)];
      return Sent(None);
    }

    method Narrow(rows: seq<Payload>, scope: Option<string>, actor: Actor) returns (visible: seq<Payload>)
      ensures visible == Filter(rows, scope, actor, host)
    {
      visible := [];
      assert rows[0..] == rows && [] + Filter(rows, scope, actor, host) == Filter(rows, scope, actor, host);
      for i := 0 to |rows|
        invariant Filter(rows, scope, actor, host) == visible + Filter(rows[i..], scope, actor, host)
      {
        FilterFrom(rows, i, visible, scope, actor);
        if Visible(rows[i], scope, actor, host) { visible := visible + [rows[i]]; }
      }
      assert rows[|rows|..] == [] && visible + [] == visible;
    }

    lemma FilterFrom(rows: seq<Payload>, i: nat, sofar: seq<Payload>, scope: Option<string>, actor: Actor)
      requires i < |rows|
      ensures sofar + Filter(rows[i..], scope, actor, host)
           == (if Visible(rows[i], scope, actor, host) then sofar + [rows[i]] else sofar)
              + Filter(rows[i + 1..], scope, actor, host)
    {
      assert rows[i..][1..] == rows[i + 1..];
    }

    method Send(a: ResolvedAction, actor: Actor, key: string, scope: Option<string>) returns (r: Option<Receipt>)
      modifies this
      ensures (Contents(), r) == Dispatch(old(Contents()), a, actor, key, scope, host)
    {
      if key in dispatched { return Some(dispatched[key]); }
      if scope.Some? && TargetId(a).Some? {
        var at := Find(a, scope, actor);
        if at.None? { return None; }
      }
      effects := effects + [EntryOf(a, Some(key))];
      dispatched := dispatched[key := Sent(Some(key))];
      return Some(Sent(Some(key)));
    }
  }

  // ---- at most once, over any run ------------------------------------------------------------------------

  datatype Call =
    | Executed(action: ResolvedAction, scope: Option<string>, actor: Actor)
    | Dispatched(action: ResolvedAction, scope: Option<string>, actor: Actor, key: string)

  function Step(m: Memory, c: Call, h: Host): Memory {
    match c
    case Executed(a, scope, actor) => Execute(m, a, scope, actor, h).0
    case Dispatched(a, scope, actor, key) => Dispatch(m, a, actor, key, scope, h).0
  }

  function RunAll(m: Memory, calls: seq<Call>, h: Host): Memory
    decreases |calls|
  {
    if calls == [] then m else RunAll(Step(m, calls[0], h), calls[1..], h)
  }

  ghost predicate HasKey(effects: seq<EffectEntry>, key: string) {
    exists i :: 0 <= i < |effects| && effects[i].key == Some(key)
  }

  ghost predicate DistinctKeys(effects: seq<EffectEntry>) {
    forall i, j | 0 <= i < j < |effects| && effects[i].key.Some? :: effects[i].key != effects[j].key
  }

  /** Keyed effects have distinct keys, exactly the dispatched ones, and each key's result is its own receipt. */
  ghost predicate AtMostOnce(m: Memory) {
    && DistinctKeys(m.effects)
    && (forall key :: key in m.dispatched <==> HasKey(m.effects, key))
    && (forall key | key in m.dispatched :: m.dispatched[key] == Sent(Some(key)))
  }

  lemma AppendedKeys(effects: seq<EffectEntry>, e: EffectEntry)
    ensures forall key :: HasKey(effects + [e], key) <==> HasKey(effects, key) || e.key == Some(key)
    ensures DistinctKeys(effects) && (e.key.Some? ==> !HasKey(effects, e.key.value)) ==> DistinctKeys(effects + [e])
  {
    var more := effects + [e];
    forall key ensures HasKey(more, key) <==> HasKey(effects, key) || e.key == Some(key) {
      if HasKey(effects, key) {
        var i :| 0 <= i < |effects| && effects[i].key == Some(key);
        assert more[i].key == Some(key);
      }
      if e.key == Some(key) { assert more[|effects|].key == Some(key); }
    }
  }

  lemma EntryKeeps(m: Memory, e: EffectEntry, m': Memory)
    requires AtMostOnce(m) && m'.effects == m.effects + [e]
    requires if e.key.None? then m'.dispatched == m.dispatched
             else e.key.value !in m.dispatched
                  && m'.dispatched == m.dispatched[e.key.value := Sent(Some(e.key.value))]
    ensures AtMostOnce(m')
  {
    AppendedKeys(m.effects, e);
  }

  lemma StepKeeps(m: Memory, c: Call, h: Host)
    requires AtMostOnce(m)
    ensures AtMostOnce(Step(m, c, h))
  {
    var m' := Step(m, c, h);
    if m'.effects != m.effects {
      EntryKeeps(m, EntryOf(c.action, if c.Dispatched? then Some(c.key) else None), m');
    } else {
      assert m'.dispatched == m.dispatched;
    }
  }

  lemma {:induction false} RunKeeps(m: Memory, calls: seq<Call>, h: Host)
    requires AtMostOnce(m)
    ensures AtMostOnce(RunAll(m, calls, h))
    decreases |calls|
  {
    if calls != [] {
      StepKeeps(m, calls[0], h);
      RunKeeps(Step(m, calls[0], h), calls[1..], h);
    }
  }

  /** The effects carrying one key, in order. */
  function Keyed(effects: seq<EffectEntry>, key: string): seq<EffectEntry> {
    if effects == [] then []
    else (if effects[0].key == Some(key) then [effects[0]] else []) + Keyed(effects[1..], key)
  }

  /** The first call that dispatches under `key` and is not refused for its scope; the length when there is none. */
  function FirstSent(m: Memory, calls: seq<Call>, key: string, h: Host): (at: nat)
    ensures at <= |calls|
    ensures at < |calls| ==> calls[at].Dispatched? && calls[at].key == key
    decreases |calls|
  {
    if calls == [] then 0
    else if calls[0].Dispatched? && calls[0].key == key && key in Step(m, calls[0], h).dispatched then 0
    else 1 + FirstSent(Step(m, calls[0], h), calls[1..], key, h)
  }

  lemma {:induction false} KeyedOfBoth(a: seq<EffectEntry>, b: seq<EffectEntry>, key: string)
    ensures Keyed(a + b, key) == Keyed(a, key) + Keyed(b, key)
  {
    if a == [] {
      assert a + b == b;
    } else {
      KeyedOfBoth(a[1..], b, key);
      assert (a + b)[1..] == a[1..] + b;
      Regroup(if a[0].key == Some(key) then [a[0]] else [], Keyed(a[1..], key), Keyed(b, key));
    }
  }

  lemma Regroup(a: seq<EffectEntry>, b: seq<EffectEntry>, c: seq<EffectEntry>)
    ensures a + (b + c) == a + b + c
  {
  }

  /** A call adds to one key's effects exactly its own entry when it is the one sent under a new key. */
  lemma StepKeyed(m: Memory, c: Call, key: string, h: Host)
    ensures Keyed(Step(m, c, h).effects, key) == Keyed(m.effects, key) +
      (if c.Dispatched? && c.key == key && key !in m.dispatched && key in Step(m, c, h).dispatched
       then [EntryOf(c.action, Some(key))] else [])
    ensures key in Step(m, c, h).dispatched && key !in m.dispatched ==> c.Dispatched? && c.key == key
    ensures key in m.dispatched ==> key in Step(m, c, h).dispatched
  {
    var m' := Step(m, c, h);
    if m'.effects != m.effects {
      var entry := m'.effects[|m.effects|];
      assert m'.effects == m.effects + [entry];
      KeyedOfBoth(m.effects, [entry], key);
      assert Keyed([entry], key) == if entry.key == Some(key) then [entry] else [];
    }
  }

  lemma {:induction false} SentStays(m: Memory, calls: seq<Call>, key: string, h: Host)
    requires key in m.dispatched
    ensures Keyed(RunAll(m, calls, h).effects, key) == Keyed(m.effects, key) && key in RunAll(m, calls, h).dispatched
    decreases |calls|
  {
    if calls != [] {
      StepKeyed(m, calls[0], key, h);
      SentStays(Step(m, calls[0], h), calls[1..], key, h);
    }
  }

  /**
   * Over any run, whatever the retries, the effects under a key that was new are exactly the action of the first
   * dispatch that was not refused: one entry, or none when every attempt lost its scope.
   */
  lemma {:induction false} FirstDispatchWins(m: Memory, calls: seq<Call>, key: string, h: Host)
    requires key !in m.dispatched && Keyed(m.effects, key) == []
    ensures var at := FirstSent(m, calls, key, h);
      && Keyed(RunAll(m, calls, h).effects, key) ==
           (if at < |calls| then [EntryOf(calls[at].action, Some(key))] else [])
      && (key in RunAll(m, calls, h).dispatched <==> at < |calls|)
    decreases |calls|
  {
    if calls != [] {
      var next := Step(m, calls[0], h);
      StepKeyed(m, calls[0], key, h);
      if key in next.dispatched {
        SentStays(next, calls[1..], key, h);
      } else {
        FirstDispatchWins(next, calls[1..], key, h);
      }
    }
  }

  /** A repeat answers what the first call answered and changes nothing, whatever action it carries. */
  lemma RepeatIsTheFirst(m: Memory, calls: seq<Call>, a: ResolvedAction, actor: Actor, key: string, scope: Option<string>, h: Host)
    requires AtMostOnce(m) && key in m.dispatched
    ensures var later := RunAll(m, calls, h);
      Dispatch(later, a, actor, key, scope, h) == (later, Some(m.dispatched[key]))
  {
    RunKeeps(m, calls, h);
    SentStays(m, calls, key, h);
  }

  /** A fresh scoped dispatch that names a target is sent exactly when that row is in scope now; refused, it changes nothing. */
  lemma ScopedDispatchIsExact(m: Memory, a: ResolvedAction, actor: Actor, key: string, scope: string, h: Host)
    requires key !in m.dispatched && TargetId(a).Some?
    ensures var (m', r) := Dispatch(m, a, actor, key, Some(scope), h);
      && (r.Some? <==> TargetInScope(m, a, Some(scope), actor, h))
      && (r.None? ==> m' == m)
      && (r.Some? ==> m'.effects == m.effects + [EntryOf(a, Some(key))] && m'.tables == m.tables)
  {
    FoundIsExact(m, a, Some(scope), actor, h);
  }
}
