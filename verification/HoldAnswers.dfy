/** Every HOLD a deployment answers, on any path, names an open row that asks the operation's own question. */
module HoldAnswers {
  import opened Vocabulary
  import opened Stores
  import opened Holds
  import opened Pipeline
  import opened Enforcement
  import opened FanOutPartition
  import opened ReservationRuns
  import opened HoldDedupe

  /** An open row under this ticket asks just this; without a reason code it is one of those after the first `from`. */
  ghost predicate HoldAnswered(from: nat, w: World, g: Gateway, d: Decided, ticket: Option<nat>) {
    && d.decision == Decision.Hold && d.resolved.Some? && ticket.Some?
    && var key := HoldKey(g.deps.AgentName(), d.resolved.value, d.gates, g.setup.text);
       exists i :: 0 <= i < |w.rows| && AnswersAt(w.rows[i], ticket.value, key, g.setup.text) && (key.None? ==> from <= i)
  }

  ghost predicate AnswersAt(row: Row, ticket: nat, key: Option<DedupeKey>, text: Rendering) {
    row.ticket == ticket && OpenHold(row) && RowKey(row, text) == key
  }

  /** No later commit of the same traffic undoes an answer. */
  lemma AnswerStands(from: nat, m: World, w: World, g: Gateway, d: Decided, ticket: Option<nat>)
    requires HoldAnswered(from, m, g, d, ticket) && RowsKept(m, w)
    ensures HoldAnswered(from, w, g, d, ticket)
  {
    var key := HoldKey(g.deps.AgentName(), d.resolved.value, d.gates, g.setup.text);
    var i :| 0 <= i < |m.rows| && AnswersAt(m.rows[i], ticket.value, key, g.setup.text) && (key.None? ==> from <= i);
    assert w.rows[i] == m.rows[i].(attempts := w.rows[i].attempts);
    assert AnswersAt(w.rows[i], ticket.value, key, g.setup.text);
  }

  // ---- one commit -----------------------------------------------------------------

  lemma FreshWithoutCode(w: World, j: Job, d: Decided, window: int)
    requires Queue(w, window, j.setup.text) && d.decision == Decision.Hold && d.resolved.Some? && Dependable(j, window)
    requires HoldKey(j.agent, d.resolved.value, d.gates, j.setup.text).None?
    ensures var (w', r) := CommitHold(w, j, d);
      r.decision == Decision.Hold ==>
        |w'.rows| == |w.rows| + 1 && r.ticket == Some(w'.rows[|w.rows|].ticket)
  {
    StageRowWork(w, j, d, PendingApproval);
  }

  /** The answer of one commit. */
  lemma CommitAnswered(w: World, g: Gateway, p: Party, env: RequestEnv, mode: Mode, stamp: Option<Stamp>, d: Decided, window: int)
    requires Queue(w, window, g.setup.text) && Deployed(g, window) && env.now.Some? && Committable(d)
    ensures var (w', r) := Commit(w, JobOf(g, p, env, mode, stamp), d);
      && Queue(w', window, g.setup.text) && RowsKept(w, w')
      && (r.decision == Decision.Hold ==> HoldAnswered(|w.rows|, w', g, d, r.ticket))
  {
    var j := JobOf(g, p, env, mode, stamp);
    CommitKeepsQueue(w, j, d, window);
    CommitWork(w, j, d);
    if d.decision == Decision.Hold {
      HoldKeepsQueue(w, j, d, window);
      var (w', r) := Commit(w, j, d);
      if r.decision == Decision.Hold {
        var key := HoldKey(j.agent, d.resolved.value, d.gates, j.setup.text);
        var i :| 0 <= i < |w'.rows| && w'.rows[i].ticket == r.ticket.value && OpenHold(w'.rows[i])
          && RowKey(w'.rows[i], j.setup.text) == key;
        if key.None? {
          FreshWithoutCode(w, j, d, window);
          assert i == |w.rows|;
        }
        assert AnswersAt(w'.rows[i], r.ticket.value, key, g.setup.text);
      }
    } else {
      AllowVerdict(w, j, d);
    }
  }

  // ---- calls ----------------------------------------------------------------------

  lemma {:induction false} ItemsAnswered(from: nat, w: World, g: Gateway, a: Attempt, names: seq<string>, items: seq<Advised>,
                                         window: int)
    requires Queue(w, window, g.setup.text) && Deployed(g, window) && a.env.now.Some? && from <= |w.rows|
    requires |names| == |items| && ItemsCommittable(items)
    ensures var (w', verdicts) := SettleItems(w, g, a, Enforced, names, items);
      && Queue(w', window, g.setup.text) && RowsKept(w, w')
      && forall i | 0 <= i < |items| && verdicts[i].decision == Decision.Hold ::
           HoldAnswered(from, w', g, items[i].decided, verdicts[i].ticket)
    decreases |items|
  {
    if items != [] {
      var m, v := ItemAnswered(w, g, a, names[0], items[0], window);
      ItemsAnswered(from, m, g, a, names[1..], items[1..], window);
      var (w', verdicts) := SettleItems(w, g, a, Enforced, names, items);
      RowsKeptThen(w, m, w');
      if v.decision == Decision.Hold {
        AnswerStands(|w.rows|, m, w', g, items[0].decided, v.ticket);
      }
      forall i | 1 <= i < |items| && verdicts[i].decision == Decision.Hold
        ensures HoldAnswered(from, w', g, items[i].decided, verdicts[i].ticket)
      {
        assert items[1..][i - 1] == items[i] && verdicts[1..][i - 1] == verdicts[i];
      }
    }
  }

  lemma ItemAnswered(w: World, g: Gateway, a: Attempt, name: string, item: Advised, window: int)
    returns (m: World, v: ItemVerdict)
    requires Queue(w, window, g.setup.text) && Deployed(g, window) && a.env.now.Some? && Committable(item.decided)
    ensures m == SettleItem(w, g, a, Enforced, item).0
    ensures v == VerdictOf(name, item.decided, SettleItem(w, g, a, Enforced, item).1)
    ensures Queue(m, window, g.setup.text) && RowsKept(w, m)
    ensures v.decision == Decision.Hold ==> HoldAnswered(|w.rows|, m, g, item.decided, v.ticket)
  {
    CommitAnswered(w, g, a.party, a.env, Enforced, StampFor(Enforced, item), item.decided, window);
    var settled := SettleItem(w, g, a, Enforced, item);
    m, v := settled.0, VerdictOf(name, item.decided, settled.1);
  }

  /** Every held item of a fan-out. */
  lemma FanOutAnswered(w: World, g: Gateway, a: Attempt, def: ItemsDef, values: seq<Value>, window: int)
    requires Queue(w, window, g.setup.text) && Deployed(g, window) && a.env.now.Some? && values != []
    ensures var (w', r) := FanOut(w, g, a, def, values, Enforced);
      ItemsHold(|w.rows|, w', g, DecideItems(w, g, a, def, values).1, r.items)
  {
    var names := ItemNames(values, def, g.setup.text);
    var (n, ds) := DecideItems(w, g, a, def, values);
    DecideItemsRows(w, g, a, def, values);
    QueueKept(w, n, window, g.setup.text);
    var items := Translate(ds, g.setup, Enforced);
    ItemsAnswered(|w.rows|, n, g, a, names, items, window);
    var (m, verdicts) := SettleItems(n, g, a, Enforced, names, items);
    MergedWork(m, g, a, def, Enforced, names, values, items);
    var (w', merged) := CommitMerged(m, g, a, def, Enforced, names, values, items);
    MergedKeeps(m, w', g, a, def, names, values, items, merged);
    ReconciledAnswered(|w.rows|, m, w', g, ds, verdicts, merged);
  }

  ghost predicate ItemsHold(from: nat, w: World, g: Gateway, ds: seq<Decided>, verdicts: seq<ItemVerdict>) {
    && |verdicts| == |ds|
    && forall i | 0 <= i < |ds| && verdicts[i].decision == Decision.Hold ::
         HoldAnswered(from, w, g, ds[i], verdicts[i].ticket)
  }

  /** The merged call is never held, so only the held items' answers are. */
  lemma ReconciledAnswered(from: nat, m: World, w: World, g: Gateway, ds: seq<Decided>, verdicts: seq<ItemVerdict>,
                           merged: Option<EvalResult>)
    requires ItemsHold(from, m, g, ds, verdicts) && RowsKept(m, w)
    requires merged.Some? ==> merged.value.decision != Decision.Hold
    ensures ItemsHold(from, w, g, ds, Reconcile(verdicts, merged, Enforced))
  {
    forall i | 0 <= i < |ds| && ReconcileOne(verdicts[i], merged, Enforced).decision == Decision.Hold
      ensures HoldAnswered(from, w, g, ds[i], ReconcileOne(verdicts[i], merged, Enforced).ticket)
    {
      AnswerStands(from, m, w, g, ds[i], verdicts[i].ticket);
    }
  }

  lemma MergedKeeps(m: World, w': World, g: Gateway, a: Attempt, def: ItemsDef, names: seq<string>, values: seq<Value>,
                    items: seq<Advised>, merged: Option<EvalResult>)
    requires |names| == |values| == |items| && ItemsCommittable(items)
    requires (w', merged) == CommitMerged(m, g, a, def, Enforced, names, values, items)
    ensures RowsKept(m, w')
  {
    if Template(items).Some? {
      CommitWork(m, JobOf(g, a.party, a.env, Enforced, CallStamp(Enforced, names, items)),
                 MergedDecided(Template(items).value.decided, a.call, def, AllowedValues(values, items)));
    }
  }

  /** Every HOLD a call answers: its own, or an item's. */
  lemma CallAnswered(w: World, g: Gateway, a: Attempt, window: int)
    requires Queue(w, window, g.setup.text) && Deployed(g, window) && a.env.now.Some?
    ensures var (w', r) := Enforce(w, g, a, Enforced);
      match ItemsDeclaration(g.deps, a.call)
      case Some(def) =>
        var values := ItemValues(a.call, def);
        if OverCeiling(def, values) then r.decision != Decision.Hold
        else ItemsHold(|w.rows|, w', g, DecideItems(w, g, a, def, values).1, r.items)
      case None =>
        r.decision == Decision.Hold ==>
          HoldAnswered(|w.rows|, w', g, DecideIn(w, g, a.call, a.party, a.env).1, r.ticket)
  {
    match ItemsDeclaration(g.deps, a.call)
    case None =>
      var (after, d) := DecideIn(w, g, a.call, a.party, a.env);
      QueueKept(w, after, window, g.setup.text);
      CommitAnswered(after, g, a.party, a.env, Enforced, None, d, window);
    case Some(def) =>
      if !OverCeiling(def, ItemValues(a.call, def)) {
        FanOutAnswered(w, g, a, def, ItemValues(a.call, def), window);
      }
  }

  // ---- batches --------------------------------------------------------------------

  lemma {:induction false} CommitsAnswered(from: nat, w: World, g: Gateway, p: Party, ops: seq<Operation>, ds: seq<Decided>,
                                           stamps: seq<Option<Stamp>>, window: int)
    requires |ops| == |ds| == |stamps| && AllCommittable(ds) && from <= |w.rows|
    requires Queue(w, window, g.setup.text) && Deployed(g, window)
    requires forall i | 0 <= i < |ops| :: ops[i].env.now.Some?
    ensures var (w', rs) := CommitAll(w, g, p, Enforced, ops, ds, stamps);
      && RowsKept(w, w')
      && forall i | 0 <= i < |ds| && rs[i].decision == Decision.Hold :: HoldAnswered(from, w', g, ds[i], rs[i].ticket)
    decreases |ds|
  {
    if ds != [] {
      CommitAnswered(w, g, p, ops[0].env, Enforced, stamps[0], ds[0], window);
      var (m, r) := Commit(w, JobOf(g, p, ops[0].env, Enforced, stamps[0]), ds[0]);
      CommitsAnswered(from, m, g, p, ops[1..], ds[1..], stamps[1..], window);
      var (w', rs) := CommitAll(w, g, p, Enforced, ops, ds, stamps);
      RowsKeptThen(w, m, w');
      if r.decision == Decision.Hold {
        AnswerStands(|w.rows|, m, w', g, ds[0], r.ticket);
      }
      forall i | 1 <= i < |ds| && rs[i].decision == Decision.Hold ensures HoldAnswered(from, w', g, ds[i], rs[i].ticket) {
        assert ds[1..][i - 1] == ds[i] && rs[1..][i - 1] == rs[i];
      }
    }
  }

  /** A hold is about the operation, whatever claim was put on it. */
  lemma AnsweredAside(from: nat, w: World, g: Gateway, d: Decided, held: Decided, ticket: Option<nat>)
    requires HoldAnswered(from, w, g, held, ticket) && held == d.(claim := held.claim)
    ensures HoldAnswered(from, w, g, d, ticket)
  {
  }

  predicate NoTickets(rs: seq<EvalResult>) {
    forall i | 0 <= i < |rs| :: rs[i].ticket.None?
  }

  lemma {:induction false} RefusedHaveNoTickets(w: World, g: Gateway, p: Party, ops: seq<Operation>, ds: seq<Decided>,
                                                stamp: Option<Stamp>, closings: seq<Closing>)
    requires |ops| == |ds| == |closings| && forall i | 0 <= i < |ds| :: closings[i].ticket.None?
    ensures NoTickets(RefuseAll(w, g, p, ops, ds, stamp, closings).1)
    decreases |ds|
  {
    if ds != [] {
      assert closings[0].ticket.None?;
      var (after, first) := Finish(w, JobOf(g, p, ops[0].env, Enforced, stamp), ds[0], closings[0]);
      RefusedHaveNoTickets(after, g, p, ops[1..], ds[1..], stamp, closings[1..]);
    }
  }

  lemma CommittedBatchAnswered(w: World, g: Gateway, p: Party, ops: seq<Operation>, ds: seq<Decided>, window: int)
    requires |ops| == |ds| && AllCommittable(ds) && Commits(w, g, ds)
    requires Queue(w, window, g.setup.text) && Deployed(g, window)
    requires forall i | 0 <= i < |ops| :: ops[i].env.now.Some?
    ensures var (w', b) := CommitBatch(w, g, p, ops, ds);
      && |b.results| == |ds|
      && forall i | 0 <= i < |ds| && b.results[i].decision == Decision.Hold ::
           HoldAnswered(|w.rows|, w', g, ds[i], b.results[i].ticket)
  {
    var pass := ReserveAll(w, g, ds);
    ReserveAllRows(w, g, ds);
    QueueKept(w, pass.world, window, g.setup.text);
    ReserveAllKeepsVerdicts(w, g, ds);
    CommitsAnswered(|w.rows|, pass.world, g, p, ops, pass.ds, NoStamps(|ds|), window);
    var (w', rs) := CommitAll(pass.world, g, p, Enforced, ops, pass.ds, NoStamps(|ds|));
    forall i | 0 <= i < |ds| && rs[i].decision == Decision.Hold ensures HoldAnswered(|w.rows|, w', g, ds[i], rs[i].ticket) {
      AnsweredAside(|w.rows|, w', g, ds[i], pass.ds[i], rs[i].ticket);
    }
  }

  lemma RefusedBatchHasNoTickets(w: World, g: Gateway, p: Party, ops: seq<Operation>, ds: seq<Decided>)
    requires |ops| == |ds| && AllCommittable(ds) && FirstRefusal(ds) == |ds| && !Commits(w, g, ds)
    ensures var (w', b) := CommitBatch(w, g, p, ops, ds);
      w'.rows == w.rows && |b.results| == |ds| && NoTickets(b.results)
  {
    var pass := ReserveAll(w, g, ds);
    ReserveAllRows(w, g, ds);
    ReleaseAllRows(pass.world, g, pass.ds);
    var released := ReleaseAll(pass.world, g, pass.ds);
    var held := pass.ds + ds[|pass.ds|..];
    var closings := ReservationClosings(held, |pass.ds|, pass.refusal.value);
    RefuseAllRows(released, g, p, ops, held, None, closings);
    RefusedHaveNoTickets(released, g, p, ops, held, None, closings);
  }

  /** Every HOLD a committed batch answers; one refused as a whole stages nothing and gives no ticket. */
  lemma BatchAnswered(w: World, g: Gateway, p: Party, ops: seq<Operation>, window: int)
    requires ops != [] && Queue(w, window, g.setup.text) && Deployed(g, window)
    requires forall i | 0 <= i < |ops| :: ops[i].env.now.Some?
    ensures var (after, ds) := DecideAll(w, g, p, ops);
      var (w', b) := EnforceBatch(w, g, p, ops, Enforced);
      && |b.results| == |ds|
      && (Commits(after, g, ds) ==>
            forall i | 0 <= i < |ds| && b.results[i].decision == Decision.Hold ::
              HoldAnswered(|w.rows|, w', g, ds[i], b.results[i].ticket))
      && (!Commits(after, g, ds) ==> w'.rows == w.rows && NoTickets(b.results))
  {
    var (after, ds) := DecideAll(w, g, p, ops);
    DecideAllRows(w, g, p, ops);
    QueueKept(w, after, window, g.setup.text);
    if Commits(after, g, ds) {
      CommittedBatchAnswered(after, g, p, ops, ds, window);
    } else if FirstRefusal(ds) == |ds| {
      RefusedBatchHasNoTickets(after, g, p, ops, ds);
    } else {
      RefuseAllRows(after, g, p, ops, ds, None, RefusalClosings(ds));
      RefusedHaveNoTickets(after, g, p, ops, ds, None, RefusalClosings(ds));
    }
  }
}
