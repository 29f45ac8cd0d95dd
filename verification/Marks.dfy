/** Every row and every record says which kind of deployment put it down. */
module Marks {
  import opened Vocabulary
  import opened Stores
  import opened Pipeline
  import opened Enforcement
  import opened AdvisedPaths
  import opened FanOutPartition
  import opened ReservationLife
  import opened StagedRows
  import AuthorizedWork
  import HoldDedupe
  import Records

  ghost predicate Marked(w: World, mode: Mode) {
    && (forall i | 0 <= i < |w.rows| :: w.rows[i].enforcement == mode)
    && (forall i | 0 <= i < |w.audit| :: w.audit[i].label_.enforcement == mode)
  }

  /** Since `base` the rows there were are as they were but for their attempts, and all that is new bears the mode. */
  ghost predicate Follows(base: World, w: World, mode: Mode) {
    && RowsKept(base, w) && base.audit <= w.audit
    && (forall i | |base.rows| <= i < |w.rows| :: w.rows[i].enforcement == mode)
    && (forall i | |base.audit| <= i < |w.audit| :: w.audit[i].label_.enforcement == mode)
  }

  /** A job of a deployment in this mode. */
  ghost predicate Marks(mode: Mode, stamp: Option<Stamp>) {
    stamp.Some? <==> mode == Advisory
  }

  ghost predicate AllMark(mode: Mode, stamps: seq<Option<Stamp>>) {
    forall i | 0 <= i < |stamps| :: Marks(mode, stamps[i])
  }

  lemma OneRecordMore(base: World, w: World, w': World, mode: Mode, stamp: Option<Stamp>)
    requires Follows(base, w, mode) && Marks(mode, stamp)
    requires |w'.audit| == |w.audit| + 1 && w.audit <= w'.audit && Records.Labels(w'.audit[|w.audit|].label_, stamp)
    requires RowsKept(base, w') && forall i | |base.rows| <= i < |w'.rows| :: w'.rows[i].enforcement == mode
    ensures Follows(base, w', mode)
  {
  }

  lemma RowsMark(base: World, w: World, w': World, j: Job, d: Decided, answered: bool)
    requires Follows(base, w, j.mode) && RowsKept(w, w') && Stages(w, w', j, d, answered)
    ensures RowsKept(base, w') && forall i | |base.rows| <= i < |w'.rows| :: w'.rows[i].enforcement == j.mode
  {
    RowsKeptThen(base, w, w');
    forall i | |base.rows| <= i < |w'.rows| ensures w'.rows[i].enforcement == j.mode {
      if i < |w.rows| {
        assert w'.rows[i] == w.rows[i].(attempts := w'.rows[i].attempts);
      }
    }
  }

  lemma CommitMarks(base: World, w: World, j: Job, d: Decided)
    requires Follows(base, w, j.mode) && Marks(j.mode, j.stamp) && Committable(d)
    ensures Follows(base, Commit(w, j, d).0, j.mode)
  {
    var (w', r) := Commit(w, j, d);
    CommitRecordMarks(w, w', j, d);
    CommitWork(w, j, d);
    CommitStages(w, j, d);
    RowsMark(base, w, w', j, d, r.decision != Decision.Deny);
    OneRecordMore(base, w, w', j.mode, j.stamp);
  }

  lemma CommitRecordMarks(w: World, w': World, j: Job, d: Decided)
    requires Committable(d) && w' == Commit(w, j, d).0
    ensures |w'.audit| == |w.audit| + 1 && w.audit <= w'.audit && Records.Labels(w'.audit[|w.audit|].label_, j.stamp)
  {
    var m, c := Records.CommitTells(w, j, d);
  }

  lemma FinishMarks(base: World, w: World, j: Job, d: Decided, c: Closing, mode: Mode)
    requires Follows(base, w, mode) && Marks(mode, j.stamp)
    ensures Follows(base, Finish(w, j, d, c).0, mode)
  {
    Records.FinishTells(w, j, d, c);
    OneRecordMore(base, w, Finish(w, j, d, c).0, mode, j.stamp);
  }

  lemma {:induction false} SettleMarks(base: World, w: World, g: Gateway, a: Attempt, mode: Mode, names: seq<string>, items: seq<Advised>)
    requires |names| == |items| && ItemsCommittable(items) && Follows(base, w, mode)
    ensures Follows(base, SettleItems(w, g, a, mode, names, items).0, mode)
    decreases |items|
  {
    if items != [] {
      var d, j := items[0].decided, JobOf(g, a.party, a.env, mode, StampFor(mode, items[0]));
      CommitMarks(base, w, j, d);
      FinishMarks(base, w, j, d, Close(d.decision, d.rule, d.outcome), mode);
      SettleMarks(base, SettleItem(w, g, a, mode, items[0]).0, g, a, mode, names[1..], items[1..]);
    }
  }

  lemma MergedMarks(base: World, w: World, g: Gateway, a: Attempt, def: ItemsDef, mode: Mode, names: seq<string>, values: seq<Value>,
                    items: seq<Advised>)
    requires |names| == |values| == |items| && ItemsCommittable(items) && Follows(base, w, mode)
    ensures Follows(base, CommitMerged(w, g, a, def, mode, names, values, items).0, mode)
  {
    if Template(items).Some? {
      var merged := MergedDecided(Template(items).value.decided, a.call, def, AllowedValues(values, items));
      CommitMarks(base, w, JobOf(g, a.party, a.env, mode, CallStamp(mode, names, items)), merged);
    }
  }

  lemma FanOutMarks(base: World, w: World, g: Gateway, a: Attempt, def: ItemsDef, values: seq<Value>, mode: Mode)
    requires values != [] && Follows(base, w, mode)
    ensures Follows(base, FanOut(w, g, a, def, values, mode).0, mode)
  {
    var names := ItemNames(values, def, g.setup.text);
    var (m, ds) := DecideItems(w, g, a, def, values);
    DecideItemsOutcomes(w, g, a, def, values);
    var items := Translate(ds, g.setup, mode);
    SettleMarks(base, m, g, a, mode, names, items);
    MergedMarks(base, SettleItems(m, g, a, mode, names, items).0, g, a, def, mode, names, values, items);
  }

  lemma WholeMarks(base: World, w: World, g: Gateway, a: Attempt, mode: Mode)
    requires Follows(base, w, mode)
    ensures Follows(base, EnforceWhole(w, g, a, mode).0, mode)
  {
    var (after, d) := DecideIn(w, g, a.call, a.party, a.env);
    if mode == Enforced {
      CommitMarks(base, after, JobOf(g, a.party, a.env, Enforced, None), d);
    } else {
      var advised := AsAdvised(d, g.setup);
      CommitMarks(base, after, JobOf(g, a.party, a.env, Advisory, Some(Stamp(advised.advice, advised.coverage, None, None))), advised.decided);
    }
  }

  lemma OverCeilingMarks(base: World, w: World, g: Gateway, a: Attempt, mode: Mode)
    requires Follows(base, w, mode)
    ensures Follows(base, EnforceOverCeiling(w, g, a, mode).0, mode)
  {
    if mode == Enforced {
      FinishMarks(base, w, JobOf(g, a.party, a.env, Enforced, None), Verdict(a.call, None, Decision.Deny, ItemsOverCeiling),
                  Close(Decision.Deny, ItemsOverCeiling, NotExecuted), mode);
    } else {
      var (after, whole) := DecideIn(w, g, a.call, a.party, a.env);
      var forwarded := AsAdvised(whole, g.setup);
      CommitMarks(base, after, JobOf(g, a.party, a.env, Advisory, Some(CeilingStamp(forwarded))), forwarded.decided);
    }
  }

  lemma CallMarks(base: World, w: World, g: Gateway, a: Attempt, mode: Mode)
    requires Follows(base, w, mode)
    ensures Follows(base, Enforce(w, g, a, mode).0, mode)
  {
    match ItemsDeclaration(g.deps, a.call)
    case None => WholeMarks(base, w, g, a, mode);
    case Some(def) =>
      if OverCeiling(def, ItemValues(a.call, def)) {
        OverCeilingMarks(base, w, g, a, mode);
      } else {
        FanOutMarks(base, w, g, a, def, ItemValues(a.call, def), mode);
      }
  }

  // ---- batches -----------------------------------------------------------------------------------

  lemma {:induction false} CommitsMark(base: World, w: World, g: Gateway, p: Party, mode: Mode, ops: seq<Operation>, ds: seq<Decided>,
                                       stamps: seq<Option<Stamp>>)
    requires |ops| == |ds| == |stamps| && AllCommittable(ds) && Follows(base, w, mode) && AllMark(mode, stamps)
    ensures Follows(base, CommitAll(w, g, p, mode, ops, ds, stamps).0, mode)
    decreases |ds|
  {
    if ds != [] {
      var j := JobOf(g, p, ops[0].env, mode, stamps[0]);
      CommitMarks(base, w, j, ds[0]);
      CommitsMark(base, Commit(w, j, ds[0]).0, g, p, mode, ops[1..], ds[1..], stamps[1..]);
    }
  }

  lemma {:induction false} RefusalsMark(base: World, w: World, g: Gateway, p: Party, mode: Mode, ops: seq<Operation>, ds: seq<Decided>,
                                        stamp: Option<Stamp>, closings: seq<Closing>)
    requires |ops| == |ds| == |closings| && Follows(base, w, mode) && Marks(mode, stamp)
    ensures Follows(base, RefuseAll(w, g, p, ops, ds, stamp, closings).0, mode)
    decreases |ds|
  {
    if ds != [] {
      var j := JobOf(g, p, ops[0].env, Enforced, stamp);
      FinishMarks(base, w, j, ds[0], closings[0], mode);
      RefusalsMark(base, Finish(w, j, ds[0], closings[0]).0, g, p, mode, ops[1..], ds[1..], stamp, closings[1..]);
    }
  }

  lemma {:induction false} PassKeepsAudit(w: World, g: Gateway, ds: seq<Decided>)
    ensures ReserveAll(w, g, ds).world.audit == w.audit
    decreases |ds|
  {
    if ds != [] {
      match ClaimPlan(ds[0].gates)
      case None => PassKeepsAudit(w, g, ds[1..]);
      case Some(plan) => PassKeepsAudit(ReserveClaim(w, g.setup, g.outside, plan).0, g, ds[1..]);
    }
  }

  lemma {:induction false} ReturnKeepsAudit(w: World, g: Gateway, ds: seq<Decided>)
    ensures ReleaseAll(w, g, ds).audit == w.audit
    decreases |ds|
  {
    if ds != [] {
      ReturnKeepsAudit(ReleaseClaim(w, g.setup, g.outside, ds[0].claim), g, ds[1..]);
    }
  }

  lemma CommittedMarks(base: World, w: World, g: Gateway, p: Party, ops: seq<Operation>, ds: seq<Decided>)
    requires |ops| == |ds| && AllCommittable(ds) && Follows(base, w, Enforced)
    ensures Follows(base, CommitBatch(w, g, p, ops, ds).0, Enforced)
  {
    var pass := ReserveAll(w, g, ds);
    AuthorizedWork.PassIsQuiet(w, g, ds);
    PassKeepsAudit(w, g, ds);
    if pass.refusal.Some? {
      var released := ReleaseAll(pass.world, g, pass.ds);
      var held := pass.ds + ds[|pass.ds|..];
      AuthorizedWork.ReturnIsQuiet(pass.world, g, pass.ds);
      ReturnKeepsAudit(pass.world, g, pass.ds);
      RefusalsMark(base, released, g, p, Enforced, ops, held, None, ReservationClosings(held, |pass.ds|, pass.refusal.value));
    } else {
      CommitsMark(base, pass.world, g, p, Enforced, ops, pass.ds, NoStamps(|ds|));
    }
  }

  lemma AdvisedMarks(base: World, w: World, g: Gateway, p: Party, ops: seq<Operation>, ds: seq<Decided>)
    requires |ops| == |ds| && AllCommittable(ds) && Follows(base, w, Advisory)
    ensures Follows(base, AdviseBatch(w, g, p, ops, ds).0, Advisory)
  {
    if FirstKill(ds) < |ds| {
      RefusalsMark(base, w, g, p, Advisory, ops, ds, Some(Stamp(None, Judged, None, None)), RefusalClosings(ds));
    } else {
      var items := Translate(ds, g.setup, Advisory);
      AdviseBatchIs(w, g, p, ops, ds, items);
      CommitsMark(base, w, g, p, Advisory, ops, TranslatedOf(items), StampsOf(items, BatchNote(ds)));
    }
  }

  lemma BatchMarks(base: World, w: World, g: Gateway, p: Party, ops: seq<Operation>, mode: Mode)
    requires ops != [] && Follows(base, w, mode)
    ensures Follows(base, EnforceBatch(w, g, p, ops, mode).0, mode)
  {
    var (after, ds) := DecideAll(w, g, p, ops);
    DecideAllAudit(w, g, p, ops);
    BatchQuiet(w, g, p, ops);
    if mode == Advisory {
      AdvisedMarks(base, after, g, p, ops, ds);
    } else if FirstRefusal(ds) < |ds| {
      RefusalsMark(base, after, g, p, Enforced, ops, ds, None, RefusalClosings(ds));
    } else {
      CommittedMarks(base, after, g, p, ops, ds);
    }
  }

  // ---- whole runs ----------------------------------------------------------------------------------

  lemma MarkedOn(w: World, w': World, mode: Mode)
    requires Marked(w, mode) && Follows(w, w', mode)
    ensures Marked(w', mode)
  {
    forall i | 0 <= i < |w'.rows| ensures w'.rows[i].enforcement == mode {
      if i < |w.rows| {
        assert w'.rows[i] == w.rows[i].(attempts := w'.rows[i].attempts);
      }
    }
  }

  /** One call or batch, from the world it starts in. */
  lemma TrafficFollows(w: World, g: Gateway, step: Step)
    requires !step.OfRow?
    ensures Follows(w, Apply(w, g, step), step.mode)
  {
    match step
    case Call(a, mode) => CallMarks(w, w, g, a, mode);
    case Batch(p, ops, mode) => if ops != [] { BatchMarks(w, w, g, p, ops, mode); }
  }

  lemma LaterMarks(w: World, g: Gateway, step: Life, mode: Mode)
    requires Marked(w, mode)
    ensures Marked(Later(w, g, step), mode)
  {
    var w' := Later(w, g, step);
    HoldDedupe.LaterRows(w, g, step);
    forall i | 0 <= i < |w'.rows| ensures w'.rows[i].enforcement == mode {
      assert w'.rows[i] == w.rows[i].(state := w'.rows[i].state);
    }
  }

  ghost predicate InOneMode(steps: seq<Step>, mode: Mode) {
    forall i | 0 <= i < |steps| :: steps[i].OfRow? || steps[i].mode == mode
  }

  /** Whatever traffic one deployment serves, all it puts down bears its mode: nothing advised passes for enforced. */
  lemma {:induction false} EverythingIsMarked(w: World, g: Gateway, steps: seq<Step>, mode: Mode)
    requires Marked(w, mode) && InOneMode(steps, mode)
    ensures Marked(Run(w, g, steps), mode)
    decreases |steps|
  {
    if steps != [] {
      if steps[0].OfRow? {
        LaterMarks(w, g, steps[0].life, mode);
      } else {
        TrafficFollows(w, g, steps[0]);
        MarkedOn(w, Apply(w, g, steps[0]), mode);
      }
      assert InOneMode(steps[1..], mode);
      EverythingIsMarked(Apply(w, g, steps[0]), g, steps[1..], mode);
    }
  }
}
