/** The held queue over whole runs: one open item per question and window. */
module HoldDedupe {
  import opened Vocabulary
  import opened Stores
  import opened Holds
  import opened Pipeline
  import opened Enforcement
  import opened AuditTotality
  import opened ReservationRuns
  import opened ReservationLife

  predicate OpenHold(row: Row) {
    row.state == PendingApproval
  }

  predicate SameQuestion(a: Row, b: Row, text: Rendering) {
    RowKey(a, text).Some? && RowKey(a, text) == RowKey(b, text)
  }

  /** Tickets are unique, and open rows asking one question were created more than a window apart. */
  ghost predicate Queue(w: World, window: int, text: Rendering) {
    && (forall i | 0 <= i < |w.rows| :: w.rows[i].ticket < w.nextId)
    && (forall i, j | 0 <= i < j < |w.rows| :: w.rows[i].ticket != w.rows[j].ticket)
    && (forall i, j | 0 <= i < j < |w.rows| && OpenHold(w.rows[i]) && OpenHold(w.rows[j])
                      && SameQuestion(w.rows[i], w.rows[j], text) ::
          w.rows[j].createdAt - w.rows[i].createdAt > window)
  }

  /** The row this ticket names is an open hold asking exactly this operation's question. */
  ghost predicate NamesOpenHold(w: World, ticket: nat, j: Job, d: Decided)
    requires d.resolved.Some?
  {
    exists i :: 0 <= i < |w.rows| && w.rows[i].ticket == ticket && OpenHold(w.rows[i])
      && RowKey(w.rows[i], j.setup.text) == HoldKey(j.agent, d.resolved.value, d.gates, j.setup.text)
  }

  /** A deployment that dedupes, has a clock, and whose stores all answer. */
  ghost predicate Dependable(j: Job, window: int) {
    && j.setup.outbox && j.setup.dedupeWindow == Some(window) && j.env.now.Some?
    && forall n: nat :: j.outside.fault(n) == Answers
  }

  // ---- steps that leave the queue alone ------------------------------------------------

  lemma QueueKept(w: World, w': World, window: int, text: Rendering)
    requires Queue(w, window, text) && w'.rows == w.rows && w.nextId <= w'.nextId
    ensures Queue(w', window, text)
  {
  }

  lemma ClaimForIds(w: World, j: Job, d: Decided)
    ensures var m := ClaimFor(w, j, d).0; w.nextId <= m.nextId && m.rows == w.rows
  {
  }

  lemma ReleaseIds(w: World, s: Setup, outside: Outside, claim: Option<Claim>)
    ensures var m := ReleaseClaim(w, s, outside, claim); w.nextId == m.nextId && m.rows == w.rows
  {
  }

  // ---- staging ---------------------------------------------------------------------------

  /** No open row inside the window asks this question: what the duplicate search established. */
  ghost predicate Unasked(rows: seq<Row>, j: Job, d: Decided, window: int)
    requires d.resolved.Some? && j.env.now.Some?
  {
    var key := HoldKey(j.agent, d.resolved.value, d.gates, j.setup.text);
    key.Some? ==>
      forall i | 0 <= i < |rows| && OpenHold(rows[i]) && RowKey(rows[i], j.setup.text) == key ::
        j.env.now.value - rows[i].createdAt > window
  }

  lemma StageKeepsQueue(w: World, j: Job, d: Decided, state: RowState, expiry: Expiry, claim: Option<Claim>, window: int)
    requires Queue(w, window, j.setup.text) && d.resolved.Some? && Dependable(j, window)
    requires state == Pending || (state == PendingApproval && Unasked(w.rows, j, d, window))
    ensures
      var (w', ticket) := Stage(w, j.outside, RowFor(w, j, d, state, expiry, claim));
      && Queue(w', window, j.setup.text) && ticket.Some?
      && w'.rows[..|w.rows|] == w.rows && |w'.rows| == |w.rows| + 1
      && (state == PendingApproval ==> NamesOpenHold(w', ticket.value, j, d))
  {
    var row := RowFor(w, j, d, state, expiry, claim);
    var (w', ticket) := Stage(w, j.outside, row);
    var last := |w.rows|;
    assert w'.rows[last] == row.(ticket := w.nextId);
    assert forall i | 0 <= i < last :: w'.rows[i] == w.rows[i];
    assert RowKey(w'.rows[last], j.setup.text) == HoldKey(j.agent, d.resolved.value, d.gates, j.setup.text);
    forall i, k | 0 <= i < k < |w'.rows| && OpenHold(w'.rows[i]) && OpenHold(w'.rows[k])
                  && SameQuestion(w'.rows[i], w'.rows[k], j.setup.text)
      ensures w'.rows[k].createdAt - w'.rows[i].createdAt > window
    {
      if k == last {
        assert w'.rows[i] == w.rows[i];
      }
    }
  }

  lemma StageRowKeepsQueue(w: World, j: Job, d: Decided, state: RowState, window: int)
    requires Queue(w, window, j.setup.text) && d.resolved.Some? && Dependable(j, window)
    requires state == Pending || (state == PendingApproval && Unasked(w.rows, j, d, window))
    ensures
      var (w', r) := StageRow(w, j, d, state);
      && Queue(w', window, j.setup.text)
      && (r.decision == Decision.Hold ==>
            r.ticket.Some? && NamesOpenHold(w', r.ticket.value, j, d) && |w'.rows| == |w.rows| + 1)
  {
    var expiry := StagingExpiry(j, d.resolved.value);
    var (w', r) := StageRow(w, j, d, state);
    if expiry == NoClock {
      QueueKept(w, w', window, j.setup.text);
    } else {
      var (reserved, reservation) := ClaimFor(w, j, d);
      ClaimForIds(w, j, d);
      QueueKept(w, reserved, window, j.setup.text);
      if reservation.Rejected? {
        QueueKept(reserved, w', window, j.setup.text);
      } else {
        StageKeepsQueue(reserved, j, d, state, expiry, ClaimOf(reservation), window);
        var (staged, ticket) := Stage(reserved, j.outside, RowFor(reserved, j, d, state, expiry, ClaimOf(reservation)));
        QueueKept(staged, w', window, j.setup.text);
        if state == PendingApproval {
          assert w'.rows == staged.rows;
        }
      }
    }
  }

  // ---- the duplicate search -----------------------------------------------------------------

  /** With answering stores, the search finds an open row asking the same question, or there is none in the window. */
  lemma SearchIsExact(w: World, j: Job, d: Decided, window: int)
    requires d.resolved.Some? && Dependable(j, window)
    ensures
      var (listed, duplicate) := FindDuplicate(w, j, d);
      && listed.rows == w.rows && listed.nextId == w.nextId
      && (duplicate.None? ==> Unasked(w.rows, j, d, window))
      && (duplicate.Some? ==> NamesOpenHold(w, duplicate.value, j, d))
  {
    var key := HoldKey(j.agent, d.resolved.value, d.gates, j.setup.text);
    if key.Some? {
      var held := HeldRows(w.rows);
      HeldRowsAre(w.rows);
      var found := FirstDuplicate(held, key.value, j.env.now.value, window, j.setup.text);
      if found.Some? {
        assert found.value in w.rows;
        var i :| 0 <= i < |w.rows| && w.rows[i] == found.value;
      } else {
        forall i | 0 <= i < |w.rows| && OpenHold(w.rows[i]) && RowKey(w.rows[i], j.setup.text) == key
          ensures j.env.now.value - w.rows[i].createdAt > window
        {
          assert w.rows[i] in held;
          assert !Duplicates(w.rows[i], key.value, j.env.now.value, window, j.setup.text);
        }
      }
    }
  }

  /** The same rows, but for their attempt counts. */
  ghost predicate SameButAttempts(rows: seq<Row>, rows': seq<Row>) {
    |rows'| == |rows| && forall k | 0 <= k < |rows| :: rows'[k] == rows[k].(attempts := rows'[k].attempts)
  }

  lemma AttemptsAside(w: World, w': World, window: int, text: Rendering)
    requires Queue(w, window, text) && SameButAttempts(w.rows, w'.rows) && w.nextId == w'.nextId
    ensures Queue(w', window, text)
  {
    forall k | 0 <= k < |w.rows|
      ensures RowKey(w'.rows[k], text) == RowKey(w.rows[k], text) && w'.rows[k].ticket == w.rows[k].ticket
      ensures w'.rows[k].createdAt == w.rows[k].createdAt && OpenHold(w'.rows[k]) == OpenHold(w.rows[k])
    {
    }
  }

  lemma BumpKeepsQueue(w: World, j: Job, d: Decided, ticket: nat, window: int)
    requires Queue(w, window, j.setup.text) && d.resolved.Some? && Dependable(j, window)
    requires NamesOpenHold(w, ticket, j, d)
    ensures
      var (w', ok) := BumpAttempts(w, j.outside, ticket);
      ok && Queue(w', window, j.setup.text) && NamesOpenHold(w', ticket, j, d) && |w'.rows| == |w.rows|
  {
    var i :| 0 <= i < |w.rows| && w.rows[i].ticket == ticket && OpenHold(w.rows[i])
      && RowKey(w.rows[i], j.setup.text) == HoldKey(j.agent, d.resolved.value, d.gates, j.setup.text);
    assert RowIndex(w.rows, ticket) == i;
    var w' := BumpAttempts(w, j.outside, ticket).0;
    assert SameButAttempts(w.rows, w'.rows);
    AttemptsAside(w, w', window, j.setup.text);
    assert w'.rows[i].ticket == ticket && OpenHold(w'.rows[i]);
  }

  /** A hold keeps the queue, and its ticket is an open row asking its own question; without a code it is a new row. */
  lemma HoldKeepsQueue(w: World, j: Job, d: Decided, window: int)
    requires Queue(w, window, j.setup.text) && d.resolved.Some? && Dependable(j, window)
    ensures
      var (w', r) := CommitHold(w, j, d);
      && Queue(w', window, j.setup.text)
      && (r.decision == Decision.Hold ==>
            && r.ticket.Some? && NamesOpenHold(w', r.ticket.value, j, d)
            && (HoldKey(j.agent, d.resolved.value, d.gates, j.setup.text).None? ==> |w'.rows| == |w.rows| + 1))
  {
    var (listed, duplicate) := FindDuplicate(w, j, d);
    SearchIsExact(w, j, d, window);
    QueueKept(w, listed, window, j.setup.text);
    if duplicate.None? {
      StageRowKeepsQueue(listed, j, d, PendingApproval, window);
    } else {
      BumpKeepsQueue(listed, j, d, duplicate.value, window);
      var bumped := BumpAttempts(listed, j.outside, duplicate.value).0;
      var w' := CommitHold(w, j, d).0;
      assert w'.rows == bumped.rows;
      QueueKept(bumped, w', window, j.setup.text);
    }
  }

  lemma InlineRows(w: World, j: Job, d: Decided)
    requires d.resolved.Some?
    ensures var w' := CommitInline(w, j, d).0; w'.rows == w.rows && w.nextId <= w'.nextId
  {
    if j.setup.connectors && !j.setup.mismatch(d.resolved.value) {
      ClaimForIds(w, j, d);
      var (reserved, reservation) := ClaimFor(w, j, d);
      if !reservation.Rejected? {
        var (ran, output) := Execute(reserved, j.outside, Execution(d.resolved.value, d.scope, j.party.actor));
        ReleaseIds(ran, j.setup, j.outside, ClaimOf(reservation));
        ConsumeIds(ran, j.setup, j.outside, ClaimOf(reservation));
      }
    }
  }

  lemma ConsumeIds(w: World, s: Setup, outside: Outside, claim: Option<Claim>)
    ensures var m := ConsumeClaim(w, s, outside, claim).0; w.nextId == m.nextId && m.rows == w.rows
  {
  }

  lemma CommitKeepsQueue(w: World, j: Job, d: Decided, window: int)
    requires Queue(w, window, j.setup.text) && Committable(d) && Dependable(j, window)
    ensures Queue(Commit(w, j, d).0, window, j.setup.text)
  {
    if Refused(d.decision) {
      QueueKept(w, Commit(w, j, d).0, window, j.setup.text);
    } else if d.decision == Decision.Hold {
      HoldKeepsQueue(w, j, d, window);
    } else if d.resolved.value.kind == Effect {
      StageRowKeepsQueue(w, j, d, Pending, window);
    } else {
      InlineRows(w, j, d);
      QueueKept(w, Commit(w, j, d).0, window, j.setup.text);
    }
  }

  // ---- whole runs ---------------------------------------------------------------------------

  /** The same for a gateway: every step of a run is committed by such a job. */
  ghost predicate Deployed(g: Gateway, window: int) {
    && g.setup.outbox && g.setup.dedupeWindow == Some(window)
    && forall n: nat :: g.outside.fault(n) == Answers
  }

  lemma WholeKeepsQueue(w: World, g: Gateway, a: Attempt, mode: Mode, window: int)
    requires Queue(w, window, g.setup.text) && Deployed(g, window) && a.env.now.Some?
    ensures Queue(EnforceWhole(w, g, a, mode).0, window, g.setup.text)
  {
    var (after, decided) := DecideIn(w, g, a.call, a.party, a.env);
    QueueKept(w, after, window, g.setup.text);
    if mode == Enforced {
      CommitKeepsQueue(after, JobOf(g, a.party, a.env, Enforced, None), decided, window);
    } else {
      var advised := AsAdvised(decided, g.setup);
      var stamp := Stamp(advised.advice, advised.coverage, None, None);
      CommitKeepsQueue(after, JobOf(g, a.party, a.env, Advisory, Some(stamp)), advised.decided, window);
    }
  }

  lemma {:induction false} DecideItemsRows(w: World, g: Gateway, a: Attempt, def: ItemsDef, values: seq<Value>)
    ensures var w' := DecideItems(w, g, a, def, values).0; w'.rows == w.rows && w'.nextId == w.nextId
    decreases |values|
  {
    if values != [] {
      var call := ItemCall(a.call, def, [values[0]]);
      DecideItemsRows(DecideIn(w, g, call, a.party, a.env).0, g, a, def, values[1..]);
    }
  }

  lemma {:induction false} SettleItemsKeepQueue(w: World, g: Gateway, a: Attempt, mode: Mode, names: seq<string>,
                                                items: seq<Advised>, window: int)
    requires Queue(w, window, g.setup.text) && Deployed(g, window) && a.env.now.Some?
    requires |names| == |items| && ItemsCommittable(items)
    ensures Queue(SettleItems(w, g, a, mode, names, items).0, window, g.setup.text)
    decreases |items|
  {
    if items != [] {
      var d := items[0].decided;
      var j := JobOf(g, a.party, a.env, mode, StampFor(mode, items[0]));
      CommitKeepsQueue(w, j, d, window);
      SettleItemsKeepQueue(SettleItem(w, g, a, mode, items[0]).0, g, a, mode, names[1..], items[1..], window);
    }
  }

  lemma FanOutKeepsQueue(w: World, g: Gateway, a: Attempt, def: ItemsDef, values: seq<Value>, mode: Mode, window: int)
    requires Queue(w, window, g.setup.text) && Deployed(g, window) && a.env.now.Some? && values != []
    ensures Queue(FanOut(w, g, a, def, values, mode).0, window, g.setup.text)
  {
    var names := ItemNames(values, def, g.setup.text);
    var (decidedIn, ds) := DecideItems(w, g, a, def, values);
    DecideItemsRows(w, g, a, def, values);
    QueueKept(w, decidedIn, window, g.setup.text);
    var items := Translate(ds, g.setup, mode);
    SettleItemsKeepQueue(decidedIn, g, a, mode, names, items, window);
    var settledIn := SettleItems(decidedIn, g, a, mode, names, items).0;
    match Template(items)
    case None =>
    case Some(template) =>
      var merged := MergedDecided(template.decided, a.call, def, AllowedValues(values, items));
      CommitKeepsQueue(settledIn, JobOf(g, a.party, a.env, mode, CallStamp(mode, names, items)), merged, window);
  }

  lemma EnforceKeepsQueue(w: World, g: Gateway, a: Attempt, mode: Mode, window: int)
    requires Queue(w, window, g.setup.text) && Deployed(g, window) && a.env.now.Some?
    ensures Queue(Enforce(w, g, a, mode).0, window, g.setup.text)
  {
    match ItemsDeclaration(g.deps, a.call)
    case None => WholeKeepsQueue(w, g, a, mode, window);
    case Some(def) =>
      if !OverCeiling(def, ItemValues(a.call, def)) {
        FanOutKeepsQueue(w, g, a, def, ItemValues(a.call, def), mode, window);
      } else if mode == Enforced {
        QueueKept(w, Enforce(w, g, a, mode).0, window, g.setup.text);
      } else {
        var (after, whole) := DecideIn(w, g, a.call, a.party, a.env);
        QueueKept(w, after, window, g.setup.text);
        var forwarded := AsAdvised(whole, g.setup);
        CommitKeepsQueue(after, JobOf(g, a.party, a.env, Advisory, Some(CeilingStamp(forwarded))), forwarded.decided, window);
      }
  }

  /** A row's later life never reopens a hold, so closing rows keeps the queue. */
  lemma LaterKeepsQueue(w: World, g: Gateway, step: Life, window: int)
    requires Queue(w, window, g.setup.text)
    ensures Queue(Later(w, g, step), window, g.setup.text)
  {
    var w' := Later(w, g, step);
    var at := RowIndex(w.rows, step.ticket);
    if at < |w.rows| {
      LaterRows(w, g, step);
      forall k | 0 <= k < |w.rows|
        ensures RowKey(w'.rows[k], g.setup.text) == RowKey(w.rows[k], g.setup.text)
        ensures w'.rows[k].ticket == w.rows[k].ticket && w'.rows[k].createdAt == w.rows[k].createdAt
        ensures OpenHold(w'.rows[k]) ==> OpenHold(w.rows[k])
      {
        assert w'.rows[k] == w.rows[k].(state := w'.rows[k].state);
      }
    }
  }

  lemma LaterRows(w: World, g: Gateway, step: Life)
    ensures var w' := Later(w, g, step);
      && |w'.rows| == |w.rows| && w'.nextId == w.nextId
      && forall k | 0 <= k < |w.rows| ::
           w'.rows[k] == w.rows[k].(state := w'.rows[k].state) && (OpenHold(w'.rows[k]) ==> OpenHold(w.rows[k]))
  {
    var at := RowIndex(w.rows, step.ticket);
    if at < |w.rows| && step.Settle? && w.rows[at].state == Dispatching {
      ConsumeIds(Discharge(w, at, Done), g.setup, g.outside, w.rows[at].obligation);
    } else if at < |w.rows| && step.Sweep? {
      ReleaseIds(Discharge(w, at, w.rows[at].state), g.setup, g.outside, w.rows[at].obligation);
    }
  }

  // ---- batches -----------------------------------------------------------------------------

  lemma {:induction false} DecideAllRows(w: World, g: Gateway, p: Party, ops: seq<Operation>)
    ensures var w' := DecideAll(w, g, p, ops).0; w'.rows == w.rows && w'.nextId == w.nextId
    decreases |ops|
  {
    if ops != [] {
      DecideAllRows(DecideIn(w, g, ops[0].call, p, ops[0].env).0, g, p, ops[1..]);
    }
  }

  lemma {:induction false} RefuseAllRows(w: World, g: Gateway, p: Party, ops: seq<Operation>, ds: seq<Decided>,
                                         stamp: Option<Stamp>, closings: seq<Closing>)
    requires |ops| == |ds| == |closings|
    ensures var w' := RefuseAll(w, g, p, ops, ds, stamp, closings).0; w'.rows == w.rows && w'.nextId == w.nextId
    decreases |ds|
  {
    if ds != [] {
      var after := Finish(w, JobOf(g, p, ops[0].env, Enforced, stamp), ds[0], closings[0]).0;
      RefuseAllRows(after, g, p, ops[1..], ds[1..], stamp, closings[1..]);
    }
  }

  lemma {:induction false} ReserveAllRows(w: World, g: Gateway, ds: seq<Decided>)
    ensures var w' := ReserveAll(w, g, ds).world; w'.rows == w.rows && w.nextId <= w'.nextId
    decreases |ds|
  {
    if ds != [] {
      match ClaimPlan(ds[0].gates)
      case None => ReserveAllRows(w, g, ds[1..]);
      case Some(plan) => ReserveAllRows(ReserveClaim(w, g.setup, g.outside, plan).0, g, ds[1..]);
    }
  }

  lemma {:induction false} ReleaseAllRows(w: World, g: Gateway, ds: seq<Decided>)
    ensures var w' := ReleaseAll(w, g, ds); w'.rows == w.rows && w'.nextId == w.nextId
    decreases |ds|
  {
    if ds != [] {
      ReleaseIds(w, g.setup, g.outside, ds[0].claim);
      ReleaseAllRows(ReleaseClaim(w, g.setup, g.outside, ds[0].claim), g, ds[1..]);
    }
  }

  lemma {:induction false} CommitAllKeepsQueue(w: World, g: Gateway, p: Party, mode: Mode, ops: seq<Operation>,
                                               ds: seq<Decided>, stamps: seq<Option<Stamp>>, window: int)
    requires |ops| == |ds| == |stamps| && AllCommittable(ds)
    requires Queue(w, window, g.setup.text) && Deployed(g, window)
    requires forall i | 0 <= i < |ops| :: ops[i].env.now.Some?
    ensures Queue(CommitAll(w, g, p, mode, ops, ds, stamps).0, window, g.setup.text)
    decreases |ds|
  {
    if ds != [] {
      var j := JobOf(g, p, ops[0].env, mode, stamps[0]);
      CommitKeepsQueue(w, j, ds[0], window);
      CommitAllKeepsQueue(Commit(w, j, ds[0]).0, g, p, mode, ops[1..], ds[1..], stamps[1..], window);
    }
  }

  lemma CommitBatchKeepsQueue(w: World, g: Gateway, p: Party, ops: seq<Operation>, ds: seq<Decided>, window: int)
    requires |ops| == |ds| && AllCommittable(ds) && Queue(w, window, g.setup.text) && Deployed(g, window)
    requires forall i | 0 <= i < |ops| :: ops[i].env.now.Some?
    ensures Queue(CommitBatch(w, g, p, ops, ds).0, window, g.setup.text)
  {
    var pass := ReserveAll(w, g, ds);
    ReserveAllRows(w, g, ds);
    QueueKept(w, pass.world, window, g.setup.text);
    if pass.refusal.Some? {
      var held := pass.ds + ds[|pass.ds|..];
      var released := ReleaseAll(pass.world, g, pass.ds);
      ReleaseAllRows(pass.world, g, pass.ds);
      RefuseAllRows(released, g, p, ops, held, None, ReservationClosings(held, |pass.ds|, pass.refusal.value));
      QueueKept(pass.world, CommitBatch(w, g, p, ops, ds).0, window, g.setup.text);
    } else {
      CommitAllKeepsQueue(pass.world, g, p, Enforced, ops, pass.ds, NoStamps(|ds|), window);
    }
  }

  lemma AdviseKeepsQueue(w: World, g: Gateway, p: Party, ops: seq<Operation>, ds: seq<Decided>, window: int)
    requires |ops| == |ds| && AllCommittable(ds) && Queue(w, window, g.setup.text) && Deployed(g, window)
    requires forall i | 0 <= i < |ops| :: ops[i].env.now.Some?
    ensures Queue(AdviseBatch(w, g, p, ops, ds).0, window, g.setup.text)
  {
    if FirstKill(ds) < |ds| {
      RefuseAllRows(w, g, p, ops, ds, Some(Stamp(None, Judged, None, None)), RefusalClosings(ds));
      QueueKept(w, AdviseBatch(w, g, p, ops, ds).0, window, g.setup.text);
    } else {
      var failing := FirstRefusal(ds);
      var note := if failing < |ds| then Some(BatchAdvice(failing, ds[failing].decision)) else None;
      var items := Translate(ds, g.setup, Advisory);
      var translated := seq(|ds|, i requires 0 <= i < |ds| => items[i].decided);
      var stamps := seq(|ds|, i requires 0 <= i < |ds| =>
        Some(Stamp(items[i].advice, items[i].coverage, note, None)));
      CommitAllKeepsQueue(w, g, p, Advisory, ops, translated, stamps, window);
    }
  }

  lemma BatchKeepsQueue(w: World, g: Gateway, p: Party, ops: seq<Operation>, mode: Mode, window: int)
    requires ops != [] && Queue(w, window, g.setup.text) && Deployed(g, window)
    requires forall i | 0 <= i < |ops| :: ops[i].env.now.Some?
    ensures Queue(EnforceBatch(w, g, p, ops, mode).0, window, g.setup.text)
  {
    var (after, ds) := DecideAll(w, g, p, ops);
    DecideAllRows(w, g, p, ops);
    QueueKept(w, after, window, g.setup.text);
    if mode == Advisory {
      AdviseKeepsQueue(after, g, p, ops, ds, window);
    } else if FirstRefusal(ds) < |ds| {
      RefuseAllRows(after, g, p, ops, ds, None, RefusalClosings(ds));
      QueueKept(after, EnforceBatch(w, g, p, ops, mode).0, window, g.setup.text);
    } else {
      CommitBatchKeepsQueue(after, g, p, ops, ds, window);
    }
  }

  // ---- runs ----------------------------------------------------------------------------------

  /** Every call and every operation of a batch carries a clock. */
  ghost predicate Clocked(steps: seq<Step>) {
    forall i | 0 <= i < |steps| :: StepClocked(steps[i])
  }

  ghost predicate StepClocked(step: Step) {
    match step
    case Call(a, _) => a.env.now.Some?
    case Batch(_, ops, _) => forall i | 0 <= i < |ops| :: ops[i].env.now.Some?
    case OfRow(_) => true
  }

  /** Under any interleaving of calls, batches and closures, one question has one open item per window. */
  lemma {:induction false} RunKeepsQueue(w: World, g: Gateway, steps: seq<Step>, window: int)
    requires Queue(w, window, g.setup.text) && Deployed(g, window) && Clocked(steps)
    ensures Queue(Run(w, g, steps), window, g.setup.text)
    decreases |steps|
  {
    if steps != [] {
      assert StepClocked(steps[0]);
      match steps[0] {
        case Call(a, mode) => EnforceKeepsQueue(w, g, a, mode, window);
        case OfRow(life) => LaterKeepsQueue(w, g, life, window);
        case Batch(p, ops, mode) => if ops != [] { BatchKeepsQueue(w, g, p, ops, mode, window); }
      }
      assert Clocked(steps[1..]) by {
        assert forall i | 0 <= i < |steps| - 1 :: steps[1..][i] == steps[i + 1];
      }
      RunKeepsQueue(Apply(w, g, steps[0]), g, steps[1..], window);
    }
  }
}
