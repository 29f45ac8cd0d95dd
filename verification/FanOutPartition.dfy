/** The item fan-out under enforcement is an exact partition of the items. */
module FanOutPartition {
  import opened Vocabulary
  import opened Stores
  import opened Pipeline
  import opened Enforcement
  import opened AuditTotality

  // ---- what one commit does to the estate -----------------------------------------

  /** Earlier rows stay as they are but for their attempts. */
  ghost predicate RowsKept(w: World, w': World) {
    && |w.rows| <= |w'.rows|
    && forall i | 0 <= i < |w.rows| :: w'.rows[i] == w.rows[i].(attempts := w'.rows[i].attempts)
  }

  lemma RowsKeptThen(w: World, m: World, w': World)
    requires RowsKept(w, m) && RowsKept(m, w')
    ensures RowsKept(w, w')
  {
  }

  /** The row a hold or an allowed effect stages. */
  ghost predicate StagedFor(row: Row, d: Decided)
    requires d.resolved.Some?
  {
    && row.resolved == d.resolved.value
    && if d.decision == Decision.Hold then row.state == PendingApproval
       else d.decision == Decision.Allow && d.resolved.value.kind == Effect && row.state == Pending
  }

  /** At most one new row and one new execution, of the operation's own action, through the store wired for its kind. */
  ghost predicate OwnWork(w: World, w': World, j: Job, d: Decided)
    requires Committable(d)
  {
    && RowsKept(w, w')
    && (|w'.rows| == |w.rows|
        || (!Refused(d.decision) && j.setup.outbox && |w'.rows| == |w.rows| + 1 && StagedFor(w'.rows[|w.rows|], d)))
    && (w'.executed == w.executed
        || (d.decision == Decision.Allow && d.resolved.value.kind != Effect && j.setup.connectors
            && w'.executed == w.executed + [Execution(d.resolved.value, d.scope, j.party.actor)]))
  }

  /** An allowed operation was applied exactly once when its answer says so, and a refused one only by a lost answer. */
  ghost predicate AppliedOnce(w: World, w': World, j: Job, d: Decided, allowed: bool, ticket: Option<nat>, answered: bool)
    requires Committable(d) && d.decision == Decision.Allow
  {
    var action := d.resolved.value;
    && OwnWork(w, w', j, d)
    && (allowed && action.kind == Effect && j.setup.outbox ==>
          |w'.rows| == |w.rows| + 1 && ticket == Some(w'.rows[|w.rows|].ticket))
    && (!allowed && |w'.rows| == |w.rows| + 1 ==> w'.rows[|w.rows|].ticket in w'.lost)
    && (answered ==> |w'.executed| == |w.executed| + 1)
    && (allowed && action.kind != Effect && j.setup.connectors ==> answered || !ShouldFailClosed(action, j.failureMode))
  }

  lemma StageRowWork(w: World, j: Job, d: Decided, state: RowState)
    requires Committable(d) && j.setup.outbox
    requires
      || (d.decision == Decision.Hold && state == PendingApproval)
      || (d.decision == Decision.Allow && d.resolved.value.kind == Effect && state == Pending)
    ensures var (w', r) := StageRow(w, j, d, state);
      && OwnWork(w, w', j, d) && w'.executed == w.executed
      && (r.decision != Decision.Deny ==> |w'.rows| == |w.rows| + 1 && r.ticket == Some(w'.rows[|w.rows|].ticket))
      && (r.decision == Decision.Deny && |w'.rows| == |w.rows| + 1 ==> w'.rows[|w.rows|].ticket in w'.lost)
      && r.output.None?
  {
    var (w', r) := StageRow(w, j, d, state);
    var expiry := StagingExpiry(j, d.resolved.value);
    if expiry == NoClock {
      assert w'.rows == w.rows && w'.executed == w.executed;
    } else {
      var (reserved, reservation) := ClaimFor(w, j, d);
      ReservationQuiet(w, j, d);
      if reservation.Rejected? {
        assert w'.rows == w.rows && w'.executed == w.executed;
      } else {
        var claim := ClaimOf(reservation);
        assert (w', r) == StageClaimed(reserved, j, d, state, expiry, claim);
        var row := RowFor(reserved, j, d, state, expiry, claim);
        var staged := Stage(reserved, j.outside, row).0;
        ReleaseQuiet(staged, j.setup, j.outside, claim);
        assert w'.rows == staged.rows && w'.executed == staged.executed && w'.lost == staged.lost;
      }
    }
  }

  lemma InlineWork(w: World, j: Job, d: Decided)
    requires Committable(d) && d.decision == Decision.Allow && d.resolved.value.kind != Effect
    ensures var (w', r) := CommitInline(w, j, d);
      AppliedOnce(w, w', j, d, r.decision == Decision.Allow, r.ticket, r.output.Some?)
  {
    ReservationQuiet(w, j, d);
    var (reserved, reservation) := ClaimFor(w, j, d);
    var (ran, _) := Execute(reserved, j.outside, Execution(d.resolved.value, d.scope, j.party.actor));
    ReleaseQuiet(ran, j.setup, j.outside, ClaimOf(reservation));
  }

  lemma HoldWork(w: World, j: Job, d: Decided)
    requires Committable(d) && d.decision == Decision.Hold
    ensures OwnWork(w, CommitHold(w, j, d).0, j, d)
  {
    if j.setup.outbox {
      var (listed, duplicate) := FindDuplicate(w, j, d);
      if duplicate.None? {
        StageRowWork(listed, j, d, PendingApproval);
      } else {
        var (bumped, ok) := BumpAttempts(listed, j.outside, duplicate.value);
        assert RowsKept(w, bumped) && |bumped.rows| == |w.rows| && bumped.executed == w.executed;
        if !ok {
          StageRowWork(bumped, j, d, PendingApproval);
          RowsKeptThen(w, bumped, StageRow(bumped, j, d, PendingApproval).0);
        }
      }
    }
  }

  /** A commit touches the estate with its own resolved action only, once at most; a refusal not at all. */
  lemma CommitWork(w: World, j: Job, d: Decided)
    requires Committable(d)
    ensures OwnWork(w, Commit(w, j, d).0, j, d)
  {
    if Refused(d.decision) {
    } else if d.decision == Decision.Hold {
      HoldWork(w, j, d);
    } else {
      AllowedWork(w, j, d);
    }
  }

  /** An allowed operation's answer says whether it was applied. */
  lemma AllowedWork(w: World, j: Job, d: Decided)
    requires Committable(d) && d.decision == Decision.Allow
    ensures var (w', r) := Commit(w, j, d);
      && AppliedOnce(w, w', j, d, r.decision == Decision.Allow, r.ticket, r.output.Some?)
      && (r.decision == Decision.Allow || r.decision == Decision.Deny)
  {
    AllowVerdict(w, j, d);
    if d.resolved.value.kind != Effect {
      InlineWork(w, j, d);
    } else if j.setup.outbox {
      StageRowWork(w, j, d, Pending);
    }
  }

  /** An allowed operation ends allowed, or refused by the stores. */
  lemma AllowVerdict(w: World, j: Job, d: Decided)
    requires Committable(d)
    ensures d.decision == Decision.Allow ==>
      var r := Commit(w, j, d).1; r.decision == Decision.Allow || r.decision == Decision.Deny
  {
  }

  // ---- the items ---------------------------------------------------------------------

  /** The positions of the allowed items, in order. */
  function AllowedAt(items: seq<Advised>, from: nat): seq<nat>
    requires from <= |items|
    decreases |items| - from
  {
    if from == |items| then []
    else (if IsAllowed(items[from]) then [from] else []) + AllowedAt(items, from + 1)
  }

  ghost predicate AllowedFrom(items: seq<Advised>, from: nat, i: nat) {
    from <= i < |items| && IsAllowed(items[i])
  }

  /** They are exactly the allowed positions, increasing. */
  lemma {:induction false} AllowedAtIsExact(items: seq<Advised>, from: nat)
    requires from <= |items|
    ensures forall i :: i in AllowedAt(items, from) <==> AllowedFrom(items, from, i)
    ensures forall k, l | 0 <= k < l < |AllowedAt(items, from)| :: AllowedAt(items, from)[k] < AllowedAt(items, from)[l]
    decreases |items| - from
  {
    if from < |items| {
      AllowedAtIsExact(items, from + 1);
      var rest := AllowedAt(items, from + 1);
      var at := AllowedAt(items, from);
      if IsAllowed(items[from]) {
        assert at == [from] + rest;
        forall k, l | 0 <= k < l < |at| ensures at[k] < at[l] {
          assert at[l] == rest[l - 1] && rest[l - 1] in rest;
          assert AllowedFrom(items, from + 1, at[l]);
          if k > 0 { assert at[k] == rest[k - 1]; }
        }
      } else {
        assert at == rest;
      }
    }
  }

  /** The merged call's values are the allowed items' own, each once and in their order. */
  lemma {:induction false} AllowedValuesInOrder(values: seq<Value>, items: seq<Advised>, from: nat)
    requires |values| == |items| && from <= |items|
    ensures var at, picked := AllowedAt(items, from), AllowedValues(values[from..], items[from..]);
      |picked| == |at| && forall k | 0 <= k < |at| :: 0 <= at[k] < |values| && picked[k] == values[at[k]]
    decreases |items| - from
  {
    if from < |items| {
      AllowedValuesInOrder(values, items, from + 1);
      assert values[from..][1..] == values[from + 1..];
      assert items[from..][1..] == items[from + 1..];
      var head := if IsAllowed(items[from]) then [values[from]] else [];
      assert AllowedValues(values[from..], items[from..])
          == head + AllowedValues(values[from + 1..], items[from + 1..]);
    }
  }

  lemma {:induction false} AllowedNamesCount(names: seq<string>, items: seq<Advised>)
    requires |names| == |items|
    ensures |AllowedNames(names, items)| <= |items|
    ensures |AllowedNames(names, items)| == |items| <==> forall i | 0 <= i < |items| :: IsAllowed(items[i])
    ensures (forall i | 0 <= i < |items| :: IsAllowed(items[i])) ==> AllowedNames(names, items) == names
    ensures |AllowedNames(names, items)| == 0 <==> forall i | 0 <= i < |items| :: !IsAllowed(items[i])
  {
    if items != [] {
      AllowedNamesCount(names[1..], items[1..]);
      assert forall i | 1 <= i < |items| :: items[i] == items[1..][i - 1];
      assert forall i | 0 <= i < |items| - 1 :: items[1..][i] == items[i + 1];
    }
  }

  function RefusedCount(items: seq<Advised>): nat {
    if items == [] then 0 else (if Refused(items[0].decided.decision) then 1 else 0) + RefusedCount(items[1..])
  }

  function HeldCount(items: seq<Advised>): nat {
    if items == [] then 0 else (if items[0].decided.decision == Decision.Hold then 1 else 0) + HeldCount(items[1..])
  }

  /** The new rows are those of held items, each item's once at most and in their order. */
  ghost predicate HeldInOrder(rows: seq<Row>, items: seq<Advised>)
    requires ItemsCommittable(items)
    decreases |items|
  {
    if rows == [] then true
    else if items == [] then false
    else
      || (items[0].decided.decision == Decision.Hold && StagedFor(rows[0], items[0].decided)
          && HeldInOrder(rows[1..], items[1..]))
      || HeldInOrder(rows, items[1..])
  }

  /** Settling refuses or holds: nothing executes, and what is staged are held items' own rows. */
  ghost predicate HeldOnly(w: World, w': World, items: seq<Advised>)
    requires ItemsCommittable(items)
  {
    && RowsKept(w, w') && w'.executed == w.executed
    && HeldInOrder(w'.rows[|w.rows|..], items)
  }

  /** What one item's settling leaves, item by item: its verdict, its record, its staged row. */
  ghost predicate ItemSettled(item: Advised, v: ItemVerdict) {
    var d := item.decided;
    match d.decision
    case Allow => v.decision == Decision.Allow
    case Hold => v.decision == Decision.Hold || v.decision == Decision.Deny
    case _ => v.decision == d.decision && v.rule == d.rule && v.ticket.None?
  }

  lemma SettleOne(w: World, g: Gateway, a: Attempt, mode: Mode, item: Advised)
    requires Committable(item.decided) && NeverStagedBefore(item.decided)
    ensures var (w', settled) := SettleItem(w, g, a, mode, item);
      && (settled.None? <==> IsAllowed(item))
      && (settled.None? ==> w' == w)
      && (settled.Some? ==> |w'.audit| == |w.audit| + 1 && w'.audit[..|w.audit|] == w.audit)
      && ItemSettled(item, VerdictOf("", item.decided, settled))
      && RowsKept(w, w') && w'.executed == w.executed
      && (|w'.rows| == |w.rows|
          || (|w'.rows| == |w.rows| + 1 && item.decided.decision == Decision.Hold && StagedFor(w'.rows[|w.rows|], item.decided)))
  {
    var d := item.decided;
    var j := JobOf(g, a.party, a.env, mode, StampFor(mode, item));
    if !IsAllowed(item) {
      CommitAudits(w, j, d);
      CommitWork(w, j, d);
      HoldVerdict(w, j, d);
    }
  }

  /** A held operation ends held, or refused by the stores; never allowed and never halted. */
  lemma HoldVerdict(w: World, j: Job, d: Decided)
    requires Committable(d)
    ensures d.decision == Decision.Hold ==>
      var r := Commit(w, j, d).1; r.decision == Decision.Hold || r.decision == Decision.Deny
  {
  }

  lemma {:induction false} SettleAll(w: World, g: Gateway, a: Attempt, mode: Mode, names: seq<string>, items: seq<Advised>)
    requires |names| == |items| && ItemsCommittable(items)
    requires forall i | 0 <= i < |items| :: NeverStagedBefore(items[i].decided)
    ensures var (w', verdicts) := SettleItems(w, g, a, mode, names, items);
      && |w'.audit| == |w.audit| + RefusedCount(items) + HeldCount(items) && w.audit <= w'.audit
      && (forall i | 0 <= i < |items| :: ItemSettled(items[i], verdicts[i]))
      && HeldOnly(w, w', items)
    decreases |items|
  {
    if items != [] {
      SettleOne(w, g, a, mode, items[0]);
      var (after, settled) := SettleItem(w, g, a, mode, items[0]);
      SettleAll(after, g, a, mode, names[1..], items[1..]);
      HeldThen(w, after, SettleItems(w, g, a, mode, names, items).0, items);
    }
  }

  lemma HeldThen(w: World, after: World, w': World, items: seq<Advised>)
    requires items != [] && ItemsCommittable(items)
    requires RowsKept(w, after) && after.executed == w.executed && HeldOnly(after, w', items[1..])
    requires
      || |after.rows| == |w.rows|
      || (|after.rows| == |w.rows| + 1 && items[0].decided.decision == Decision.Hold
          && StagedFor(after.rows[|w.rows|], items[0].decided))
    ensures HeldOnly(w, w', items)
  {
    RowsKeptThen(w, after, w');
    var added := w'.rows[|w.rows|..];
    if |after.rows| == |w.rows| + 1 {
      assert added[1..] == w'.rows[|after.rows|..];
      assert added[0] == after.rows[|w.rows|].(attempts := added[0].attempts);
    }
  }

  // ---- the whole call -----------------------------------------------------------------

  /** Under enforcement every item keeps the verdict the decide phase gave it. */
  lemma EnforcedItems(ds: seq<Decided>, s: Setup)
    ensures var items := Translate(ds, s, Enforced);
      forall i | 0 <= i < |ds| :: items[i].decided == ds[i] && items[i].advice.None?
  {
  }

  lemma {:induction false} DecideItemsOutcomes(w: World, g: Gateway, a: Attempt, def: ItemsDef, values: seq<Value>)
    ensures var (w', ds) := DecideItems(w, g, a, def, values);
      && w'.audit == w.audit && w'.rows == w.rows && w'.executed == w.executed
      && forall i | 0 <= i < |ds| :: NeverStagedBefore(ds[i])
    decreases |values|
  {
    if values != [] {
      var call := ItemCall(a.call, def, [values[0]]);
      DecideOutcome(g.deps, call, a.party, a.env, w.calls, w.audit);
      DecideItemsOutcomes(DecideIn(w, g, call, a.party, a.env).0, g, a, def, values[1..]);
    }
  }

  /** The call that carries the allowed items, committed as one operation. */
  ghost predicate MergedApplied(m: World, w': World, g: Gateway, a: Attempt, def: ItemsDef, mode: Mode, names: seq<string>,
                                values: seq<Value>, items: seq<Advised>, allowed: bool, ticket: Option<nat>, answered: bool)
    requires |names| == |values| == |items| && ItemsCommittable(items)
  {
    match Template(items)
    case None => w'.rows == m.rows && w'.executed == m.executed && !allowed && ticket.None? && !answered
    case Some(template) =>
      var merged := MergedDecided(template.decided, a.call, def, AllowedValues(values, items));
      && AppliedOnce(m, w', JobOf(g, a.party, a.env, mode, CallStamp(mode, names, items)), merged, allowed, ticket, answered)
      && merged.resolved.value.data[def.field] == List(AllowedValues(values, items))
  }

  lemma MergedWork(w: World, g: Gateway, a: Attempt, def: ItemsDef, mode: Mode,
                   names: seq<string>, values: seq<Value>, items: seq<Advised>)
    requires |names| == |values| == |items| && ItemsCommittable(items)
    ensures var (w', merged) := CommitMerged(w, g, a, def, mode, names, values, items);
      && (merged.Some? <==> exists i :: 0 <= i < |items| && IsAllowed(items[i]))
      && (merged.Some? ==> |w'.audit| == |w.audit| + 1) && (merged.None? ==> w' == w)
      && (merged.Some? ==> merged.value.decision == Decision.Allow || merged.value.decision == Decision.Deny)
      && w.audit <= w'.audit
      && MergedApplied(w, w', g, a, def, mode, names, values, items,
                       merged.Some? && merged.value.decision == Decision.Allow,
                       if merged.Some? then merged.value.ticket else None,
                       merged.Some? && merged.value.output.Some?)
  {
    match Template(items)
    case None =>
    case Some(template) =>
      var merged := MergedDecided(template.decided, a.call, def, AllowedValues(values, items));
      var j := JobOf(g, a.party, a.env, mode, CallStamp(mode, names, items));
      var i :| 0 <= i < |items| && items[i] == template;
      assert Committable(merged) && NeverStagedBefore(merged) && merged.decision == Decision.Allow;
      CommitAudits(w, j, merged);
      AllowedWork(w, j, merged);
  }

  /** One verdict per item, in order: refusals stand, holds are held or refused, allowed items share one answer. */
  ghost predicate Answered(items: seq<Advised>, names: seq<string>, r: EvalResult)
    requires |names| == |items|
  {
    && |r.items| == |items|
    && (forall i | 0 <= i < |items| :: r.items[i].item == names[i])
    && (forall i | 0 <= i < |items| && !IsAllowed(items[i]) :: ItemSettled(items[i], r.items[i]))
    && (forall i | 0 <= i < |items| && IsAllowed(items[i]) ::
          if r.applied == [] then r.items[i].decision == Decision.Deny else r.items[i].decision == Decision.Allow)
  }

  /** The envelope is ALLOW exactly when every item was applied, and applied names are all or none of the allowed. */
  ghost predicate Enveloped(items: seq<Advised>, names: seq<string>, r: EvalResult)
    requires |names| == |items|
  {
    && (r.applied == AllowedNames(names, items) || r.applied == [])
    && (r.decision == Decision.Allow <==> |r.applied| == |items|)
    && (r.decision == Decision.Allow ==> r.applied == names)
  }

  /**
   * The fan-out under enforcement partitions the items: `items` are the decide phase's verdicts, one per value. The
   * held ones stage their own rows at most; the allowed ones are applied by one operation, exactly once when the call
   * lists them as applied; and the records are one per refusal, one per hold and one for the merged call.
   */
  lemma FanOutIsPartition(w: World, g: Gateway, a: Attempt, def: ItemsDef, values: seq<Value>)
    requires values != []
    ensures
      var (w', r) := FanOut(w, g, a, def, values, Enforced);
      var names := ItemNames(values, def, g.setup.text);
      var items := Translate(DecideItems(w, g, a, def, values).1, g.setup, Enforced);
      var m := SettleItems(DecideItems(w, g, a, def, values).0, g, a, Enforced, names, items).0;
      var merged := if exists i :: 0 <= i < |items| && IsAllowed(items[i]) then 1 else 0;
      && Answered(items, names, r)
      && Enveloped(items, names, r)
      && HeldOnly(w, m, items)
      && MergedApplied(m, w', g, a, def, Enforced, names, values, items, r.applied != [], r.ticket, r.output.Some?)
      && |w'.audit| == |w.audit| + RefusedCount(items) + HeldCount(items) + merged && w.audit <= w'.audit
  {
    var names := ItemNames(values, def, g.setup.text);
    var (decidedIn, ds) := DecideItems(w, g, a, def, values);
    DecideItemsOutcomes(w, g, a, def, values);
    var items := Translate(ds, g.setup, Enforced);
    var (settledIn, verdicts) := SettleItems(decidedIn, g, a, Enforced, names, items);
    SettleAll(decidedIn, g, a, Enforced, names, items);
    var (done, merged) := CommitMerged(settledIn, g, a, def, Enforced, names, values, items);
    MergedWork(settledIn, g, a, def, Enforced, names, values, items);
    AllowedNamesCount(names, items);
    EnvelopeIsRight(items, names, verdicts, merged, ds[0].feedback);
  }

  /** From the settled verdicts and the merged answer to the envelope. */
  lemma EnvelopeIsRight(items: seq<Advised>, names: seq<string>, verdicts: seq<ItemVerdict>, merged: Option<EvalResult>,
                        feedback: Feedback)
    requires |names| == |items| == |verdicts| && items != []
    requires forall i | 0 <= i < |items| :: verdicts[i].item == names[i] && ItemSettled(items[i], verdicts[i])
    requires merged.Some? <==> exists i :: 0 <= i < |items| && IsAllowed(items[i])
    requires merged.Some? ==> merged.value.decision == Decision.Allow || merged.value.decision == Decision.Deny
    ensures
      var applied := if merged.Some? && merged.value.decision == Decision.Allow then AllowedNames(names, items) else [];
      var r := Envelope(Reconcile(verdicts, merged, Enforced), applied, merged, feedback);
      Answered(items, names, r) && Enveloped(items, names, r)
  {
    var applied := if merged.Some? && merged.value.decision == Decision.Allow then AllowedNames(names, items) else [];
    var settled := Reconcile(verdicts, merged, Enforced);
    var r := Envelope(settled, applied, merged, feedback);
    AllowedNamesCount(names, items);
    ReconciledAre(items, verdicts, merged, applied != []);
    WorstIsAllow(settled);
  }

  lemma ReconciledAre(items: seq<Advised>, verdicts: seq<ItemVerdict>, merged: Option<EvalResult>, applied: bool)
    requires |items| == |verdicts|
    requires forall i | 0 <= i < |items| :: ItemSettled(items[i], verdicts[i])
    requires (exists i :: 0 <= i < |items| && IsAllowed(items[i])) ==> merged.Some?
    requires merged.Some? ==> merged.value.decision == if applied then Decision.Allow else Decision.Deny
    ensures var settled := Reconcile(verdicts, merged, Enforced);
      && (forall i | 0 <= i < |items| :: settled[i].item == verdicts[i].item)
      && (forall i | 0 <= i < |items| && !IsAllowed(items[i]) ::
            settled[i] == verdicts[i] && settled[i].decision != Decision.Allow)
      && (forall i | 0 <= i < |items| && IsAllowed(items[i]) ::
            settled[i].decision == if applied then Decision.Allow else Decision.Deny)
  {
  }

  lemma WorstIsAllow(verdicts: seq<ItemVerdict>)
    ensures Worst(DecisionsOf(verdicts)) == Decision.Allow <==>
      forall i | 0 <= i < |verdicts| :: verdicts[i].decision == Decision.Allow
  {
    var ds := DecisionsOf(verdicts);
    forall i | 0 <= i < |verdicts| ensures verdicts[i].decision in ds {
      assert ds[i] == verdicts[i].decision;
    }
  }
}
