/** The row behind a HOLD carries the contracts its own gates put down, and only they can promote it. */
module HeldTerms {
  import opened Vocabulary
  import opened Stores
  import opened Holds
  import opened Pipeline
  import opened Enforcement
  import opened FanOutPartition
  import opened HoldDedupe
  import opened CollapsedClaims
  import opened ReservationRuns
  import opened StagedRows
  import opened Verdicts
  import opened GateContracts
  import GateEngine
  import Release

  // ---- the row behind a ticket -----------------------------------------------------------------

  /** An open row that asks the very question this operation asks. */
  ghost predicate Repeats(row: Row, j: Job, d: Decided) {
    d.resolved.Some? && var key := HoldKey(j.agent, d.resolved.value, d.gates, j.setup.text);
      key.Some? && RowKey(row, j.setup.text) == key
  }

  ghost predicate RowBehind(row: Row, j: Job, d: Decided, ticket: nat) {
    row.ticket == ticket && OpenHold(row) && (Put(row, j, d) || Repeats(row, j, d))
  }

  /** The ticket is of the operation's own row, or of an open row it repeats. */
  ghost predicate Behind(w: World, j: Job, d: Decided, ticket: Option<nat>) {
    d.decision == Decision.Hold && ticket.Some? && exists i :: 0 <= i < |w.rows| && RowBehind(w.rows[i], j, d, ticket.value)
  }

  lemma StaysBehind(m: World, w: World, j: Job, d: Decided, ticket: Option<nat>)
    requires Behind(m, j, d, ticket) && RowsKept(m, w)
    ensures Behind(w, j, d, ticket)
  {
    var i :| 0 <= i < |m.rows| && RowBehind(m.rows[i], j, d, ticket.value);
    assert w.rows[i] == m.rows[i].(attempts := w.rows[i].attempts);
    assert RowBehind(w.rows[i], j, d, ticket.value);
  }

  lemma TicketsKept(w: World, w': World, j: Job, d: Decided, answered: bool)
    requires Ticketed(w) && RowsKept(w, w') && Stages(w, w', j, d, answered)
    ensures Ticketed(w')
  {
    assert forall i | 0 <= i < |w.rows| :: w'.rows[i].ticket == w.rows[i].ticket;
  }

  lemma StagedBehind(w: World, j: Job, d: Decided)
    requires d.resolved.Some? && d.decision == Decision.Hold && j.setup.outbox
    ensures var (w', r) := StageRow(w, j, d, PendingApproval); r.decision == Decision.Hold ==> Behind(w', j, d, r.ticket)
  {
    StageRowWork(w, j, d, PendingApproval);
    RowStages(w, j, d, PendingApproval);
    var (w', r) := StageRow(w, j, d, PendingApproval);
    if r.decision == Decision.Hold {
      assert RowBehind(w'.rows[|w.rows|], j, d, r.ticket.value);
    }
  }

  /** What the search answers with is an open row that asks the same. */
  lemma FoundRepeats(w: World, j: Job, d: Decided) returns (at: nat)
    requires d.resolved.Some? && FindDuplicate(w, j, d).1.Some?
    ensures at < |w.rows| && OpenHold(w.rows[at]) && Repeats(w.rows[at], j, d)
    ensures w.rows[at].ticket == FindDuplicate(w, j, d).1.value
    ensures FindDuplicate(w, j, d).0.rows == w.rows && FindDuplicate(w, j, d).0.nextId == w.nextId
  {
    HeldRowsAre(w.rows);
    var key := HoldKey(j.agent, d.resolved.value, d.gates, j.setup.text);
    var found := FirstDuplicate(HeldRows(w.rows), key.value, j.env.now.value, j.setup.dedupeWindow.value, j.setup.text);
    var i :| 0 <= i < |w.rows| && w.rows[i] == found.value;
    at := i;
  }

  lemma BumpKeeps(w: World, outside: Outside, at: nat)
    requires Ticketed(w) && at < |w.rows|
    ensures var (w', ok) := BumpAttempts(w, outside, w.rows[at].ticket);
      RowsKept(w, w') && |w'.rows| == |w.rows| && w'.nextId == w.nextId && Ticketed(w')
  {
    assert RowIndex(w.rows, w.rows[at].ticket) == at;
  }

  lemma HoldBehind(w: World, j: Job, d: Decided)
    requires Ticketed(w) && d.resolved.Some? && d.decision == Decision.Hold && j.setup.outbox
    ensures var (w', r) := CommitHold(w, j, d); r.decision == Decision.Hold ==> Behind(w', j, d, r.ticket)
  {
    var (listed, duplicate) := FindDuplicate(w, j, d);
    if duplicate.None? {
      StagedBehind(listed, j, d);
    } else {
      var at := FoundRepeats(w, j, d);
      BumpKeeps(listed, j.outside, at);
      var (bumped, ok) := BumpAttempts(listed, j.outside, duplicate.value);
      if ok {
        var w' := CommitHold(w, j, d).0;
        assert w'.rows == bumped.rows && bumped.rows[at] == w.rows[at].(attempts := bumped.rows[at].attempts);
        assert RowBehind(w'.rows[at], j, d, duplicate.value);
      } else {
        StagedBehind(bumped, j, d);
      }
    }
  }

  /** One commit: the row behind its HOLD, and tickets stay unique. */
  lemma CommitBehind(w: World, j: Job, d: Decided)
    requires Ticketed(w) && Committable(d) && j.setup.outbox
    ensures var (w', r) := Commit(w, j, d);
      Ticketed(w') && RowsKept(w, w') && (r.decision == Decision.Hold ==> Behind(w', j, d, r.ticket))
  {
    var (w', r) := Commit(w, j, d);
    CommitWork(w, j, d);
    CommitStages(w, j, d);
    TicketsKept(w, w', j, d, r.decision != Decision.Deny);
    if d.decision == Decision.Hold {
      HoldBehind(w, j, d);
    } else {
      AllowVerdict(w, j, d);
    }
  }

  // ---- calls -----------------------------------------------------------------------------------

  function EnforcedJob(g: Gateway, p: Party, env: RequestEnv): Job {
    JobOf(g, p, env, Enforced, None)
  }

  ghost predicate ItemsBehind(w: World, g: Gateway, a: Attempt, ds: seq<Decided>, verdicts: seq<ItemVerdict>) {
    && |verdicts| == |ds|
    && forall i | 0 <= i < |ds| && verdicts[i].decision == Decision.Hold ::
         Behind(w, EnforcedJob(g, a.party, a.env), ds[i], verdicts[i].ticket)
  }

  lemma ItemBehind(w: World, g: Gateway, a: Attempt, name: string, item: Advised) returns (m: World, v: ItemVerdict)
    requires Ticketed(w) && g.setup.outbox && Committable(item.decided)
    ensures m == SettleItem(w, g, a, Enforced, item).0
    ensures v == VerdictOf(name, item.decided, SettleItem(w, g, a, Enforced, item).1)
    ensures Ticketed(m) && RowsKept(w, m)
    ensures v.decision == Decision.Hold ==> Behind(m, EnforcedJob(g, a.party, a.env), item.decided, v.ticket)
  {
    CommitBehind(w, EnforcedJob(g, a.party, a.env), item.decided);
    var settled := SettleItem(w, g, a, Enforced, item);
    m, v := settled.0, VerdictOf(name, item.decided, settled.1);
  }

  ghost predicate AdvisedBehind(w: World, g: Gateway, a: Attempt, items: seq<Advised>, verdicts: seq<ItemVerdict>) {
    && |verdicts| == |items|
    && forall i | 0 <= i < |items| && verdicts[i].decision == Decision.Hold ::
         Behind(w, EnforcedJob(g, a.party, a.env), items[i].decided, verdicts[i].ticket)
  }

  lemma {:induction false} SettledBehind(w: World, g: Gateway, a: Attempt, names: seq<string>, items: seq<Advised>)
    requires Ticketed(w) && g.setup.outbox && |names| == |items| && ItemsCommittable(items)
    ensures var (w', verdicts) := SettleItems(w, g, a, Enforced, names, items);
      Ticketed(w') && RowsKept(w, w') && AdvisedBehind(w', g, a, items, verdicts)
    decreases |items|
  {
    if items != [] {
      var m, v := ItemBehind(w, g, a, names[0], items[0]);
      SettledBehind(m, g, a, names[1..], items[1..]);
      var (w', verdicts) := SettleItems(w, g, a, Enforced, names, items);
      RowsKeptThen(w, m, w');
      if v.decision == Decision.Hold {
        StaysBehind(m, w', EnforcedJob(g, a.party, a.env), items[0].decided, v.ticket);
      }
      forall i | 1 <= i < |items| && verdicts[i].decision == Decision.Hold
        ensures Behind(w', EnforcedJob(g, a.party, a.env), items[i].decided, verdicts[i].ticket)
      {
        assert items[1..][i - 1] == items[i] && verdicts[1..][i - 1] == verdicts[i];
      }
    }
  }

  lemma ReconciledBehind(m: World, w: World, g: Gateway, a: Attempt, ds: seq<Decided>, verdicts: seq<ItemVerdict>,
                         merged: Option<EvalResult>)
    requires ItemsBehind(m, g, a, ds, verdicts) && RowsKept(m, w)
    requires merged.Some? ==> merged.value.decision != Decision.Hold
    ensures ItemsBehind(w, g, a, ds, Reconcile(verdicts, merged, Enforced))
  {
    forall i | 0 <= i < |ds| && ReconcileOne(verdicts[i], merged, Enforced).decision == Decision.Hold
      ensures Behind(w, EnforcedJob(g, a.party, a.env), ds[i], ReconcileOne(verdicts[i], merged, Enforced).ticket)
    {
      StaysBehind(m, w, EnforcedJob(g, a.party, a.env), ds[i], verdicts[i].ticket);
    }
  }

  lemma MergedRowsKept(m: World, g: Gateway, a: Attempt, def: ItemsDef, names: seq<string>, values: seq<Value>,
                       items: seq<Advised>)
    requires |names| == |values| == |items| && ItemsCommittable(items)
    ensures RowsKept(m, CommitMerged(m, g, a, def, Enforced, names, values, items).0)
  {
    if Template(items).Some? {
      CommitWork(m, JobOf(g, a.party, a.env, Enforced, CallStamp(Enforced, names, items)),
                 MergedDecided(Template(items).value.decided, a.call, def, AllowedValues(values, items)));
    }
  }

  /** Every held item of a fan-out. */
  lemma FanOutBehind(w: World, g: Gateway, a: Attempt, def: ItemsDef, values: seq<Value>)
    requires Ticketed(w) && g.setup.outbox && values != []
    ensures var (w', r) := FanOut(w, g, a, def, values, Enforced);
      ItemsBehind(w', g, a, DecideItems(w, g, a, def, values).1, r.items)
  {
    var names := ItemNames(values, def, g.setup.text);
    var (n, ds) := DecideItems(w, g, a, def, values);
    DecideItemsRows(w, g, a, def, values);
    var items := Translate(ds, g.setup, Enforced);
    EnforcedItems(ds, g.setup);
    SettledBehind(n, g, a, names, items);
    var (m, verdicts) := SettleItems(n, g, a, Enforced, names, items);
    MergedWork(m, g, a, def, Enforced, names, values, items);
    MergedRowsKept(m, g, a, def, names, values, items);
    var (w', merged) := CommitMerged(m, g, a, def, Enforced, names, values, items);
    ReconciledBehind(m, w', g, a, ds, verdicts, merged);
  }

  /** Every HOLD of an enforced call, its own or an item's, has a row behind it with the verdict's own contracts. */
  lemma CallBehind(w: World, g: Gateway, a: Attempt)
    requires Ticketed(w) && g.setup.outbox
    ensures var (w', r) := Enforce(w, g, a, Enforced);
      match ItemsDeclaration(g.deps, a.call)
      case Some(def) =>
        var values := ItemValues(a.call, def);
        if OverCeiling(def, values) then r.decision != Decision.Hold
        else ItemsBehind(w', g, a, DecideItems(w, g, a, def, values).1, r.items)
      case None =>
        r.decision == Decision.Hold ==>
          Behind(w', EnforcedJob(g, a.party, a.env), DecideIn(w, g, a.call, a.party, a.env).1, r.ticket)
  {
    match ItemsDeclaration(g.deps, a.call)
    case None =>
      var (after, d) := DecideIn(w, g, a.call, a.party, a.env);
      CommitBehind(after, EnforcedJob(g, a.party, a.env), d);
    case Some(def) =>
      if !OverCeiling(def, ItemValues(a.call, def)) {
        FanOutBehind(w, g, a, def, ItemValues(a.call, def));
      }
  }

  // ---- batches -----------------------------------------------------------------------------------

  lemma {:induction false} CommitsBehind(w: World, g: Gateway, p: Party, ops: seq<Operation>, ds: seq<Decided>)
    requires Ticketed(w) && g.setup.outbox && |ops| == |ds| && AllCommittable(ds)
    ensures var (w', rs) := CommitAll(w, g, p, Enforced, ops, ds, NoStamps(|ds|));
      && RowsKept(w, w')
      && forall i | 0 <= i < |ds| && rs[i].decision == Decision.Hold ::
           Behind(w', EnforcedJob(g, p, ops[i].env), ds[i], rs[i].ticket)
    decreases |ds|
  {
    if ds != [] {
      var j := EnforcedJob(g, p, ops[0].env);
      CommitBehind(w, j, ds[0]);
      var (m, r) := Commit(w, j, ds[0]);
      assert NoStamps(|ds|)[1..] == NoStamps(|ds| - 1);
      CommitsBehind(m, g, p, ops[1..], ds[1..]);
      var (w', rs) := CommitAll(w, g, p, Enforced, ops, ds, NoStamps(|ds|));
      RowsKeptThen(w, m, w');
      if r.decision == Decision.Hold {
        StaysBehind(m, w', j, ds[0], r.ticket);
      }
      forall i | 1 <= i < |ds| && rs[i].decision == Decision.Hold
        ensures Behind(w', EnforcedJob(g, p, ops[i].env), ds[i], rs[i].ticket)
      {
        assert ds[1..][i - 1] == ds[i] && rs[1..][i - 1] == rs[i] && ops[1..][i - 1] == ops[i];
      }
    }
  }

  lemma ClaimAside(w: World, j: Job, d: Decided, held: Decided, ticket: Option<nat>)
    requires Behind(w, j, held, ticket) && held == d.(claim := held.claim)
    ensures Behind(w, j, d, ticket)
  {
    var i :| 0 <= i < |w.rows| && RowBehind(w.rows[i], j, held, ticket.value);
    assert RowBehind(w.rows[i], j, d, ticket.value);
  }

  lemma CommittedBehind(w: World, g: Gateway, p: Party, ops: seq<Operation>, ds: seq<Decided>)
    requires |ops| == |ds| && AllCommittable(ds) && Ticketed(w) && g.setup.outbox && Commits(w, g, ds)
    ensures var (w', b) := CommitBatch(w, g, p, ops, ds);
      && |b.results| == |ds|
      && forall i | 0 <= i < |ds| && b.results[i].decision == Decision.Hold ::
           Behind(w', EnforcedJob(g, p, ops[i].env), ds[i], b.results[i].ticket)
  {
    var pass := ReserveAll(w, g, ds);
    ReserveAllRows(w, g, ds);
    ReserveAllKeepsVerdicts(w, g, ds);
    CommitsBehind(pass.world, g, p, ops, pass.ds);
    var (w', rs) := CommitAll(pass.world, g, p, Enforced, ops, pass.ds, NoStamps(|ds|));
    forall i | 0 <= i < |ds| && rs[i].decision == Decision.Hold
      ensures Behind(w', EnforcedJob(g, p, ops[i].env), ds[i], rs[i].ticket)
    {
      ClaimAside(w', EnforcedJob(g, p, ops[i].env), ds[i], pass.ds[i], rs[i].ticket);
    }
  }

  /** Every HOLD of a batch that commits. */
  lemma BatchBehind(w: World, g: Gateway, p: Party, ops: seq<Operation>)
    requires ops != [] && Ticketed(w) && g.setup.outbox
    ensures var (after, ds) := DecideAll(w, g, p, ops);
      var (w', b) := EnforceBatch(w, g, p, ops, Enforced);
      Commits(after, g, ds) ==>
        && |b.results| == |ds|
        && forall i | 0 <= i < |ds| && b.results[i].decision == Decision.Hold ::
             Behind(w', EnforcedJob(g, p, ops[i].env), ds[i], b.results[i].ticket)
  {
    var (after, ds) := DecideAll(w, g, p, ops);
    DecideAllRows(w, g, p, ops);
    if Commits(after, g, ds) {
      CommittedBehind(after, g, p, ops, ds);
    }
  }

  // ---- who may release it --------------------------------------------------------------------------

  /** A call's verdict, its gates being an engine's over these entries. */
  ghost predicate Gated(w: World, g: Gateway, a: Attempt, items: seq<GateEngine.Entry>, engine: GateEngine.Engine) {
    var q := Question(a.call, a.party, a.env, w.calls, w.audit);
    Known(g.deps, q) ==> GatesOf(g.deps, q, g.deps.resolve(a.call).value) == Some(GateEngine.Evaluate(items, engine))
  }

  /** A held verdict carries the contracts of its own gate outcome. */
  lemma HeldByItsGates(w: World, g: Gateway, a: Attempt, items: seq<GateEngine.Entry>, engine: GateEngine.Engine)
    requires Gated(w, g, a, items, engine) && DecideIn(w, g, a.call, a.party, a.env).1.decision == Decision.Hold
    ensures var d, o := DecideIn(w, g, a.call, a.party, a.env).1, GateEngine.Evaluate(items, engine);
      o.outcome == Outcome.Hold && d.releases == o.releases && d.gates == o.results
  {
    var q := Question(a.call, a.party, a.env, w.calls, w.audit);
    HeldExactly(g.deps, q);
    VerdictContracts(g.deps, q);
    VerdictTrace(g.deps, q);
  }

  /** What a gate's demand means for a row promoted by these calls. */
  ghost predicate Met(c: ReleaseContract, row: Row, calls: seq<Release.Call>, ids: seq<string>) {
    && |ids| >= c.quorum && Release.NoDuplicates(ids)
    && (c.dualAuth || c.distinctFromActor ==> row.actor.id !in ids)
    && forall id | id in ids :: exists k :: 0 <= k < |calls| && calls[k].id == id
  }

  ghost predicate MetBySomebody(c: ReleaseContract, row: Row, calls: seq<Release.Call>) {
    exists ids :: Met(c, row, calls, ids)
  }

  lemma QuorumMeets(row: Row, calls: seq<Release.Call>, i: nat)
    requires Release.Fresh(row) && i < |row.releases| && Release.Run(row, calls).state == Pending
    ensures MetBySomebody(row.releases[i], row, calls)
  {
    Release.PromotionNeedsEveryQuorum(row, calls, i);
    assert Met(row.releases[i], row, calls, Release.Run(row, calls).releases[i].satisfiedBy);
  }

  /** The gate's demand is on the row, and people among the callers met it. */
  ghost predicate DemandMet(row: Row, e: GateEngine.Entry, engine: GateEngine.Engine, calls: seq<Release.Call>) {
    exists c :: c in row.releases && Exacts(c, e, engine) && MetBySomebody(c, row, calls)
  }

  ghost predicate TwoOthers(calls: seq<Release.Call>, actor: string) {
    exists k, l :: (
      && 0 <= k < |calls| && 0 <= l < |calls| && calls[k].id != calls[l].id
      && calls[k].id != actor && calls[l].id != actor)
  }

  /** A row staged by a hold is promoted only after every holding gate's own demand was met. */
  lemma PromotedByItsGates(row: Row, j: Job, d: Decided, items: seq<GateEngine.Entry>, engine: GateEngine.Engine,
                           calls: seq<Release.Call>, e: GateEngine.Entry)
    requires Put(row, j, d) && d.decision == Decision.Hold
    requires var o := GateEngine.Evaluate(items, engine); o.outcome == Outcome.Hold && d.releases == o.releases
    requires e in items && GateEngine.Holds(e, engine) && Release.Run(row, calls).state == Pending
    ensures DemandMet(row, e, engine, calls)
  {
    HoldDemands(items, engine);
    DemandsAreFresh(row, items, engine);
    assert PutDown(e, row.releases, engine);
    var i :| 0 <= i < |row.releases| && Exacts(row.releases[i], e, engine);
    QuorumMeets(row, calls, i);
    assert row.releases[i] in row.releases;
  }

  lemma DemandsAreFresh(row: Row, items: seq<GateEngine.Entry>, engine: GateEngine.Engine)
    requires row.state == PendingApproval
    requires forall i | 0 <= i < |row.releases| :: AskedFor(row.releases[i], items, engine)
    ensures Release.Fresh(row)
  {
    forall c | c in row.releases ensures c.satisfiedBy == [] {
      var i :| 0 <= i < |row.releases| && row.releases[i] == c;
      assert AskedFor(row.releases[i], items, engine);
    }
  }

  /** Held under dual authorization, it takes two people who released it, and its actor is neither. */
  lemma DualNeedsTwoOthers(row: Row, j: Job, d: Decided, items: seq<GateEngine.Entry>, engine: GateEngine.Engine,
                           calls: seq<Release.Call>, e: GateEngine.Entry)
    requires Put(row, j, d) && d.decision == Decision.Hold
    requires var o := GateEngine.Evaluate(items, engine); o.outcome == Outcome.Hold && d.releases == o.releases
    requires e in items && GateEngine.Holds(e, engine) && e.gate == DualAuthorization
    requires Release.Run(row, calls).state == Pending
    ensures TwoOthers(calls, j.party.actor.id)
  {
    PromotedByItsGates(row, j, d, items, engine, calls, e);
    var c :| c in row.releases && Exacts(c, e, engine) && MetBySomebody(c, row, calls);
    var ids :| Met(c, row, calls, ids);
    assert ids[0] in ids && ids[1] in ids && ids[0] != ids[1];
    var k :| 0 <= k < |calls| && calls[k].id == ids[0];
    var l :| 0 <= l < |calls| && calls[l].id == ids[1];
  }

  /** However the row is released later, it goes to dispatch only after every holding gate's demand was met. */
  ghost predicate OnlyByItsGates(row: Row, items: seq<GateEngine.Entry>, engine: GateEngine.Engine) {
    forall calls, e | e in items && GateEngine.Holds(e, engine) && Release.Run(row, calls).state == Pending ::
      DemandMet(row, e, engine, calls)
  }

  /** A call held by its gates: behind its ticket is an open row it repeats, or one only those gates' people promote. */
  lemma HeldCallIsReleasedByItsGates(w: World, g: Gateway, a: Attempt, items: seq<GateEngine.Entry>, engine: GateEngine.Engine)
    returns (i: nat)
    requires Ticketed(w) && g.setup.outbox && Gated(w, g, a, items, engine) && ItemsDeclaration(g.deps, a.call).None?
    requires Enforce(w, g, a, Enforced).1.decision == Decision.Hold
    ensures var (w', r) := Enforce(w, g, a, Enforced);
      && i < |w'.rows| && r.ticket == Some(w'.rows[i].ticket) && OpenHold(w'.rows[i])
      && (Repeats(w'.rows[i], EnforcedJob(g, a.party, a.env), DecideIn(w, g, a.call, a.party, a.env).1)
          || OnlyByItsGates(w'.rows[i], items, engine))
  {
    CallBehind(w, g, a);
    var (w', r) := Enforce(w, g, a, Enforced);
    var j, d := EnforcedJob(g, a.party, a.env), DecideIn(w, g, a.call, a.party, a.env).1;
    i :| 0 <= i < |w'.rows| && RowBehind(w'.rows[i], j, d, r.ticket.value);
    HeldByItsGates(w, g, a, items, engine);
    var row := w'.rows[i];
    if Put(row, j, d) {
      forall calls, e | e in items && GateEngine.Holds(e, engine) && Release.Run(row, calls).state == Pending
        ensures DemandMet(row, e, engine, calls)
      {
        PromotedByItsGates(row, j, d, items, engine, calls, e);
      }
    }
  }
}
