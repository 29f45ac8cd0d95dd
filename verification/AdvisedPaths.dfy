/** The advised batch and the advised fan-out say what the enforcing ones would have answered. */
module AdvisedPaths {
  import opened Vocabulary
  import opened Stores
  import opened Pipeline
  import opened Enforcement
  import opened AuditTotality
  import opened FanOutPartition
  import opened AdvisoryMode
  import ClosureSafety

  // ---- batches ------------------------------------------------------------------------

  /** One record more for each operation, in order, with its stamp. */
  ghost predicate Labelled(before: seq<AuditRecord>, after: seq<AuditRecord>, ds: seq<Decided>, stamps: seq<Option<Stamp>>)
  {
    && |stamps| == |ds| && |after| == |before| + |ds| && before <= after
    && forall i | 0 <= i < |ds| :: LabelledOne(after[|before| + i], ds[i], stamps[i])
  }

  ghost predicate LabelledOne(record: AuditRecord, d: Decided, stamp: Option<Stamp>) {
    record.label_ == LabelOf(stamp) && record.subject.parameters == d.call.data
  }

  lemma LabelledOnward(w: World, m: World, done: World, ds: seq<Decided>, stamps: seq<Option<Stamp>>)
    requires ds != [] && |stamps| == |ds| && |m.audit| == |w.audit| + 1 && w.audit <= m.audit
    requires LabelledOne(m.audit[|w.audit|], ds[0], stamps[0]) && Labelled(m.audit, done.audit, ds[1..], stamps[1..])
    ensures Labelled(w.audit, done.audit, ds, stamps)
  {
    var before, after := w.audit, done.audit;
    assert after[|before|] == m.audit[|before|];
    forall i | 1 <= i < |ds| ensures LabelledOne(after[|before| + i], ds[i], stamps[i]) {
      assert LabelledOne(after[|m.audit| + (i - 1)], ds[1..][i - 1], stamps[1..][i - 1]);
    }
  }

  lemma CommitAllFirst(w: World, g: Gateway, p: Party, mode: Mode, ops: seq<Operation>, ds: seq<Decided>,
                       stamps: seq<Option<Stamp>>)
    returns (m: World)
    requires |ops| == |ds| == |stamps| && AllCommittable(ds) && ds != [] && ClosureSafety.NeverStaged(ds)
    ensures CommitAll(w, g, p, mode, ops, ds, stamps).0 == CommitAll(m, g, p, mode, ops[1..], ds[1..], stamps[1..]).0
    ensures |m.audit| == |w.audit| + 1 && w.audit <= m.audit && LabelledOne(m.audit[|w.audit|], ds[0], stamps[0])
  {
    var j := JobOf(g, p, ops[0].env, mode, stamps[0]);
    assert NeverStagedBefore(ds[0]);
    CommitAudits(w, j, ds[0]);
    m := Commit(w, j, ds[0]).0;
  }

  lemma {:induction false} CommitAllLabels(w: World, g: Gateway, p: Party, mode: Mode, ops: seq<Operation>,
                                           ds: seq<Decided>, stamps: seq<Option<Stamp>>, done: World)
    requires |ops| == |ds| == |stamps| && AllCommittable(ds) && ClosureSafety.NeverStaged(ds)
    requires done == CommitAll(w, g, p, mode, ops, ds, stamps).0
    ensures Labelled(w.audit, done.audit, ds, stamps)
    decreases |ds|
  {
    if ds != [] {
      var m := CommitAllFirst(w, g, p, mode, ops, ds, stamps);
      CommitAllLabels(m, g, p, mode, ops[1..], ds[1..], stamps[1..], done);
      LabelledOnward(w, m, done, ds, stamps);
    }
  }

  /** The advice on one operation's record: its decided verdict, where that was translated. */
  ghost predicate Advises(noted: Label, d: Decided) {
    && noted.enforcement == Advisory
    && (noted.advised.None? <==> Untranslated(d))
    && (noted.advised.Some? ==>
          && noted.advised.value.decision == d.decision && noted.advised.value.rule == d.rule
          && noted.advised.value.reason == Classify(d.decision, d.rule, d.gates))
  }

  lemma StampAdvises(d: Decided, s: Setup, note: Option<BatchAdvice>)
    requires d.decision == Decision.Halt ==> KillCaused(d.rule)
    ensures var advised := AsAdvised(d, s); Advises(LabelOf(Some(Stamp(advised.advice, advised.coverage, note, None))), d)
  {
  }

  /** One record per operation in order, each advising its own verdict and carrying the batch's advice. */
  ghost predicate AdvisedEach(before: seq<AuditRecord>, after: seq<AuditRecord>, ops: seq<Operation>, ds: seq<Decided>,
                              note: Option<BatchAdvice>)
  {
    && |ds| == |ops| && |after| == |before| + |ops| && before <= after
    && forall i | 0 <= i < |ops| ::
         var record := after[|before| + i];
         && record.subject.parameters == ops[i].call.data
         && Advises(record.label_, ds[i]) && record.label_.batchAdvice == note
  }

  function BatchNote(ds: seq<Decided>): Option<BatchAdvice> {
    var failing := FirstRefusal(ds);
    if failing < |ds| then Some(BatchAdvice(failing, ds[failing].decision)) else None
  }

  function TranslatedOf(items: seq<Advised>): (r: seq<Decided>)
    ensures |r| == |items| && forall i | 0 <= i < |r| :: r[i] == items[i].decided
  {
    seq(|items|, i requires 0 <= i < |items| => items[i].decided)
  }

  function StampsOf(items: seq<Advised>, note: Option<BatchAdvice>): (r: seq<Option<Stamp>>)
    ensures |r| == |items|
    ensures forall i | 0 <= i < |r| :: r[i] == Some(Stamp(items[i].advice, items[i].coverage, note, None))
  {
    seq(|items|, i requires 0 <= i < |items| => Some(Stamp(items[i].advice, items[i].coverage, note, None)))
  }

  lemma AdviseBatchIs(w: World, g: Gateway, p: Party, ops: seq<Operation>, ds: seq<Decided>, items: seq<Advised>)
    requires |ops| == |ds| && AllCommittable(ds) && FirstKill(ds) == |ds| && items == Translate(ds, g.setup, Advisory)
    ensures var c := CommitAll(w, g, p, Advisory, ops, TranslatedOf(items), StampsOf(items, BatchNote(ds)));
      AdviseBatch(w, g, p, ops, ds) == (c.0, Summary(c.1))
  {
    var failing := FirstRefusal(ds);
    var note := if failing < |ds| then Some(BatchAdvice(failing, ds[failing].decision)) else None;
    assert TranslatedOf(items) == seq(|ds|, i requires 0 <= i < |ds| => items[i].decided);
    assert StampsOf(items, note)
        == seq(|ds|, i requires 0 <= i < |ds| => Some(Stamp(items[i].advice, items[i].coverage, note, None)));
  }

  /** A decided operation as the batch decided it: about its own call, and halted by the kill switch only. */
  ghost predicate DecidedFor(op: Operation, d: Decided) {
    d.call == op.call && NeverStagedBefore(d) && (d.decision == Decision.Halt ==> KillCaused(d.rule))
  }

  lemma LabelsAdvise(before: seq<AuditRecord>, after: seq<AuditRecord>, ops: seq<Operation>, ds: seq<Decided>,
                     items: seq<Advised>, s: Setup, note: Option<BatchAdvice>)
    requires |ops| == |ds| && items == Translate(ds, s, Advisory) && forall i | 0 <= i < |ds| :: DecidedFor(ops[i], ds[i])
    requires Labelled(before, after, TranslatedOf(items), StampsOf(items, note))
    ensures AdvisedEach(before, after, ops, ds, note)
  {
    forall i | 0 <= i < |ops|
      ensures var record := after[|before| + i];
        && record.subject.parameters == ops[i].call.data
        && Advises(record.label_, ds[i]) && record.label_.batchAdvice == note
    {
      assert items[i] == TranslateOne(ds[i], s, Advisory) && DecidedFor(ops[i], ds[i]);
      StampAdvises(ds[i], s, note);
      assert LabelledOne(after[|before| + i], TranslatedOf(items)[i], StampsOf(items, note)[i]);
    }
  }

  lemma KeepsUnstaged(ops: seq<Operation>, ds: seq<Decided>, items: seq<Advised>, s: Setup)
    requires |ops| == |ds| && items == Translate(ds, s, Advisory) && forall i | 0 <= i < |ds| :: DecidedFor(ops[i], ds[i])
    ensures ClosureSafety.NeverStaged(TranslatedOf(items))
  {
    forall i | 0 <= i < |ds| ensures NeverStagedBefore(TranslatedOf(items)[i]) {
      assert items[i] == TranslateOne(ds[i], s, Advisory) && DecidedFor(ops[i], ds[i]);
    }
  }

  lemma {:induction false} AdviseBatchLabels(w: World, g: Gateway, p: Party, ops: seq<Operation>, ds: seq<Decided>,
                                             items: seq<Advised>, note: Option<BatchAdvice>, done: World)
    requires |ops| == |ds| && AllCommittable(ds) && items == Translate(ds, g.setup, Advisory)
    requires forall i | 0 <= i < |ds| :: DecidedFor(ops[i], ds[i])
    requires done == CommitAll(w, g, p, Advisory, ops, TranslatedOf(items), StampsOf(items, note)).0
    ensures AdvisedEach(w.audit, done.audit, ops, ds, note)
  {
    KeepsUnstaged(ops, ds, items, g.setup);
    CommitAllLabels(w, g, p, Advisory, ops, TranslatedOf(items), StampsOf(items, note), done);
    LabelsAdvise(w.audit, done.audit, ops, ds, items, g.setup, note);
  }

  /**
   * From the same world: with no operation halted, every operation of an advised batch leaves one record, in order,
   * advising its decided verdict; and the batch's advice on them is the enforced batch's failing index and decision,
   * present exactly when some operation was decided a refusal.
   */
  lemma AdvisedBatchNamesTheRefusal(w: World, g: Gateway, p: Party, ops: seq<Operation>) returns (note: Option<BatchAdvice>)
    requires ops != []
    requires var ds := DecideAll(w, g, p, ops).1; FirstKill(ds) == |ds|
    ensures var ds := DecideAll(w, g, p, ops).1;
      && AdvisedEach(w.audit, EnforceBatch(w, g, p, ops, Advisory).0.audit, ops, ds, note)
      && (note.Some? <==> exists k :: 0 <= k < |ds| && Refused(ds[k].decision))
    ensures var enforced := EnforceBatch(w, g, p, ops, Enforced).1;
      note.Some? ==> enforced.failingIndex == Some(note.value.failingIndex) && enforced.decision == note.value.decision
  {
    var (m, ds) := DecideAll(w, g, p, ops);
    DecideAllAudit(w, g, p, ops);
    ClosureSafety.DecideAllOutcomes(w, g, p, ops);
    note := BatchNote(ds);
    forall i | 0 <= i < |ds| ensures DecidedFor(ops[i], ds[i]) {
      assert NeverStagedBefore(ds[i]);
    }
    var items := Translate(ds, g.setup, Advisory);
    AdviseBatchIs(m, g, p, ops, ds, items);
    AdviseBatchLabels(m, g, p, ops, ds, items, note, AdviseBatch(m, g, p, ops, ds).0);
  }

  lemma {:induction false} DecideAllAudit(w: World, g: Gateway, p: Party, ops: seq<Operation>)
    ensures var (m, ds) := DecideAll(w, g, p, ops);
      && m.audit == w.audit
      && forall i | 0 <= i < |ops| ::
           ds[i].call == ops[i].call && (ds[i].decision == Decision.Halt ==> KillCaused(ds[i].rule))
    decreases |ops|
  {
    if ops != [] {
      DecideCommittable(g.deps, ops[0].call, p, ops[0].env, w.calls, w.audit);
      UnresolvedIsDenied(g.deps, ops[0].call, p, ops[0].env, w.calls, w.audit);
      DecideAllAudit(DecideIn(w, g, ops[0].call, p, ops[0].env).0, g, p, ops[1..]);
    }
  }

  /** And a kill order halts the advised batch as it refuses the enforced one. */
  lemma KilledBatchIsRefusedAlike(w: World, g: Gateway, p: Party, ops: seq<Operation>)
    requires ops != []
    requires var ds := DecideAll(w, g, p, ops).1; FirstKill(ds) < |ds|
    ensures
      var advised, enforced := EnforceBatch(w, g, p, ops, Advisory), EnforceBatch(w, g, p, ops, Enforced);
      && advised.0.rows == w.rows == enforced.0.rows && advised.0.executed == w.executed == enforced.0.executed
      && advised.1.decision == Decision.Halt && Refused(enforced.1.decision)
      && enforced.1.failingIndex.Some? && advised.1.failingIndex.Some?
      && enforced.1.failingIndex.value <= advised.1.failingIndex.value
      && (forall i | 0 <= i < |ops| :: advised.1.results[i].decision == enforced.1.results[i].decision)
  {
    var (m, ds) := DecideAll(w, g, p, ops);
    BatchQuiet(w, g, p, ops);
    RefuseAllAlike(m, m, g, p, ops, ds, RefusalClosings(ds));
  }

  lemma {:induction false} BatchQuiet(w: World, g: Gateway, p: Party, ops: seq<Operation>)
    ensures var m := DecideAll(w, g, p, ops).0; m.rows == w.rows && m.lines == w.lines && m.executed == w.executed
    decreases |ops|
  {
    if ops != [] {
      BatchQuiet(DecideIn(w, g, ops[0].call, p, ops[0].env).0, g, p, ops[1..]);
    }
  }

  lemma {:induction false} RefuseAllAlike(w: World, v: World, g: Gateway, p: Party, ops: seq<Operation>, ds: seq<Decided>,
                                          closings: seq<Closing>)
    requires |ops| == |ds| == |closings| && v.rows == w.rows && v.executed == w.executed
    ensures
      var a := RefuseAll(w, g, p, ops, ds, Some(Stamp(None, Judged, None, None)), closings);
      var b := RefuseAll(v, g, p, ops, ds, None, closings);
      && a.0.rows == w.rows == b.0.rows && a.0.executed == w.executed == b.0.executed
      && forall i | 0 <= i < |ds| :: a.1[i] == b.1[i]
    decreases |ds|
  {
    if ds != [] {
      var stamp := Some(Stamp(None, Judged, None, None));
      var a := Finish(w, JobOf(g, p, ops[0].env, Enforced, stamp), ds[0], closings[0]).0;
      var b := Finish(v, JobOf(g, p, ops[0].env, Enforced, None), ds[0], closings[0]).0;
      RefuseAllAlike(a, b, g, p, ops[1..], ds[1..], closings[1..]);
    }
  }

  // ---- the fan-out ----------------------------------------------------------------------

  /** A forwarded item that enforcement would not have allowed. */
  predicate Diverges(item: Advised) {
    IsAllowed(item) && item.advice.Some?
  }

  /** Their positions, in order. */
  function DivergedAt(items: seq<Advised>, from: nat): seq<nat>
    requires from <= |items|
    decreases |items| - from
  {
    if from == |items| then []
    else (if Diverges(items[from]) then [from] else []) + DivergedAt(items, from + 1)
  }

  lemma {:induction false} DivergedAtIsExact(items: seq<Advised>, from: nat)
    requires from <= |items|
    ensures forall i :: i in DivergedAt(items, from) <==> from <= i < |items| && Diverges(items[i])
    ensures forall k, l | 0 <= k < l < |DivergedAt(items, from)| :: DivergedAt(items, from)[k] < DivergedAt(items, from)[l]
    decreases |items| - from
  {
    if from < |items| {
      DivergedAtIsExact(items, from + 1);
      var rest, at := DivergedAt(items, from + 1), DivergedAt(items, from);
      if Diverges(items[from]) {
        assert at == [from] + rest;
        forall k, l | 0 <= k < l < |at| ensures at[k] < at[l] {
          assert at[l] == rest[l - 1] && rest[l - 1] in rest;
          if k > 0 { assert at[k] == rest[k - 1]; }
        }
      } else {
        assert at == rest;
      }
    }
  }

  lemma {:induction false} DivergentInOrder(names: seq<string>, items: seq<Advised>, from: nat)
    requires |names| == |items| && from <= |items|
    ensures var at, entries := DivergedAt(items, from), Divergent(names[from..], items[from..]);
      && |entries| == |at|
      && forall k | 0 <= k < |at| ::
           && from <= at[k] < |items| && items[at[k]].advice.Some?
           && entries[k] == ItemAdviceEntry(names[at[k]], items[at[k]].advice.value, items[at[k]].coverage)
    decreases |items| - from
  {
    if from < |items| {
      DivergentInOrder(names, items, from + 1);
      assert names[from..][1..] == names[from + 1..] && items[from..][1..] == items[from + 1..];
      var head := if Diverges(items[from])
                  then [ItemAdviceEntry(names[from], items[from].advice.value, items[from].coverage)] else [];
      assert Divergent(names[from..], items[from..]) == head + Divergent(names[from + 1..], items[from + 1..]);
    }
  }

  lemma {:induction false} WorstEntryIsFound(entries: seq<ItemAdviceEntry>, worst: Decision)
    requires exists k :: 0 <= k < |entries| && entries[k].advice.decision == worst
    ensures WorstEntry(entries, worst).Some? && WorstEntry(entries, worst).value.decision == worst
    ensures exists k :: 0 <= k < |entries| && entries[k].advice == WorstEntry(entries, worst).value
  {
    if entries[0].advice.decision != worst {
      assert forall k | 1 <= k < |entries| :: entries[k] == entries[1..][k - 1];
      WorstEntryIsFound(entries[1..], worst);
      var k :| 0 <= k < |entries[1..]| && entries[1..][k].advice == WorstEntry(entries[1..], worst).value;
      assert entries[k + 1].advice == WorstEntry(entries, worst).value;
    }
  }

  /** The worst of a nonempty list is in it. */
  lemma WorstIsOne(decisions: seq<Decision>)
    requires decisions != []
    ensures Worst(decisions) in decisions
  {
    match decisions[0]
    case Halt => assert decisions[0] == Decision.Halt;
    case Deny => assert decisions[0] == Decision.Deny;
    case Hold => assert decisions[0] == Decision.Hold;
    case Allow => assert decisions[0] == Decision.Allow;
  }

  lemma WorstAdvice(entries: seq<ItemAdviceEntry>)
    requires entries != []
    ensures var worst := Worst(AdvisedDecisions(entries));
      && WorstEntry(entries, worst).Some? && WorstEntry(entries, worst).value.decision == worst
      && exists k :: 0 <= k < |entries| && entries[k].advice == WorstEntry(entries, worst).value
  {
    var decisions := AdvisedDecisions(entries);
    WorstIsOne(decisions);
    var k :| 0 <= k < |decisions| && decisions[k] == Worst(decisions);
    assert entries[k].advice.decision == Worst(decisions);
    WorstEntryIsFound(entries, Worst(decisions));
  }

  /** What the record of an advised item-bearing call says of the items it forwarded. */
  ghost predicate ItemsAdvised(noted: Label, names: seq<string>, items: seq<Advised>, ds: seq<Decided>)
    requires |names| == |items| == |ds|
  {
    var at := DivergedAt(items, 0);
    && (forall k | 0 <= k < |at| :: 0 <= at[k] < |items|)
    && noted.enforcement == Advisory
    && (noted.itemAdvice.None? <==> at == []) && (noted.advised.None? <==> at == [])
    && (at != [] ==>
          var advice := noted.itemAdvice.value;
          && |advice.items| == |at| == advice.wouldRefuse && advice.wouldApply == |AllowedNames(names, items)| - |at|
          && (forall k | 0 <= k < |at| ::
                && advice.items[k].item == names[at[k]]
                && advice.items[k].advice.decision == ds[at[k]].decision && advice.items[k].advice.rule == ds[at[k]].rule)
          && (exists k :: 0 <= k < |at| && noted.advised.value == advice.items[k].advice)
          && noted.advised.value.decision == Worst(AdvisedDecisions(advice.items)))
  }

  lemma CallStampAdvises(names: seq<string>, ds: seq<Decided>, s: Setup)
    requires |names| == |ds|
    ensures var items := Translate(ds, s, Advisory); ItemsAdvised(LabelOf(CallStamp(Advisory, names, items)), names, items, ds)
  {
    var items := Translate(ds, s, Advisory);
    var at, entries := DivergedAt(items, 0), Divergent(names, items);
    assert names[0..] == names && items[0..] == items;
    DivergentInOrder(names, items, 0);
    forall k | 0 <= k < |at|
      ensures entries[k].advice.decision == ds[at[k]].decision && entries[k].advice.rule == ds[at[k]].rule
    {
      assert items[at[k]] == TranslateOne(ds[at[k]], s, Advisory);
    }
    if entries != [] {
      WorstAdvice(entries);
    }
  }

  /** Exactly the items halted by the kill switch or naming nothing known are not forwarded. */
  lemma ForwardedExactly(ds: seq<Decided>, s: Setup, i: nat)
    requires i < |ds| && Decidable(ds[i])
    ensures var items := Translate(ds, s, Advisory);
      && (IsAllowed(items[i]) <==> ds[i].decision == Decision.Allow || !Untranslated(ds[i]))
      && (Diverges(items[i]) <==> !Untranslated(ds[i]))
  {
  }

  lemma MergedLabel(w: World, g: Gateway, a: Attempt, def: ItemsDef, names: seq<string>, values: seq<Value>,
                    items: seq<Advised>, done: World)
    requires |names| == |values| == |items| && ItemsCommittable(items) && exists i :: 0 <= i < |items| && IsAllowed(items[i])
    requires done == CommitMerged(w, g, a, def, Advisory, names, values, items).0
    ensures |done.audit| == |w.audit| + 1 && done.audit[|w.audit|].label_ == LabelOf(CallStamp(Advisory, names, items))
  {
    var template := Template(items).value;
    var merged := MergedDecided(template.decided, a.call, def, AllowedValues(values, items));
    CommitAudits(w, JobOf(g, a.party, a.env, Advisory, CallStamp(Advisory, names, items)), merged);
  }

  lemma SettledGrows(w: World, g: Gateway, a: Attempt, def: ItemsDef, values: seq<Value>, names: seq<string>,
                     items: seq<Advised>, m: World)
    requires |names| == |values|
    requires items == Translate(DecideItems(w, g, a, def, values).1, g.setup, Advisory)
    requires m == SettleItems(DecideItems(w, g, a, def, values).0, g, a, Advisory, names, items).0
    ensures |w.audit| <= |m.audit|
  {
    TranslatedNeverStaged(w, g, a, def, values, items);
    SettleAll(DecideItems(w, g, a, def, values).0, g, a, Advisory, names, items);
  }

  lemma FanOutEnds(w: World, g: Gateway, a: Attempt, def: ItemsDef, values: seq<Value>, names: seq<string>,
                   items: seq<Advised>, m: World)
    requires values != [] && names == ItemNames(values, def, g.setup.text)
    requires items == Translate(DecideItems(w, g, a, def, values).1, g.setup, Advisory)
    requires m == SettleItems(DecideItems(w, g, a, def, values).0, g, a, Advisory, names, items).0
    ensures FanOut(w, g, a, def, values, Advisory).0 == CommitMerged(m, g, a, def, Advisory, names, values, items).0
  {
  }

  /** The last record of an advised call that forwards anything is the forwarded items', under the call's stamp. */
  lemma AdvisedFanOutRecord(w: World, g: Gateway, a: Attempt, def: ItemsDef, values: seq<Value>, names: seq<string>,
                            items: seq<Advised>)
    returns (m: World)
    requires values != [] && names == ItemNames(values, def, g.setup.text)
    requires items == Translate(DecideItems(w, g, a, def, values).1, g.setup, Advisory)
    requires exists i :: 0 <= i < |items| && IsAllowed(items[i])
    ensures |w.audit| <= |m.audit|
    ensures var after := FanOut(w, g, a, def, values, Advisory).0.audit;
      |after| == |m.audit| + 1 && after[|m.audit|].label_ == LabelOf(CallStamp(Advisory, names, items))
  {
    m := SettleItems(DecideItems(w, g, a, def, values).0, g, a, Advisory, names, items).0;
    SettledGrows(w, g, a, def, values, names, items, m);
    FanOutEnds(w, g, a, def, values, names, items, m);
    MergedLabel(m, g, a, def, names, values, items, FanOut(w, g, a, def, values, Advisory).0);
  }

  /** And each verdict listed is the enforced call's own verdict on that item, a hold the stores refuse excepted. */
  lemma ItemAdviceIsTheVerdict(w: World, g: Gateway, a: Attempt, def: ItemsDef, values: seq<Value>, i: nat)
    requires values != [] && i < |DecideItems(w, g, a, def, values).1|
    ensures var ds := DecideItems(w, g, a, def, values).1;
      var items := Translate(ds, g.setup, Advisory);
      && (IsAllowed(items[i]) <==> ds[i].decision == Decision.Allow || !Untranslated(ds[i]))
      && (Diverges(items[i]) <==> !Untranslated(ds[i]))
    ensures var d, r := DecideItems(w, g, a, def, values).1[i], FanOut(w, g, a, def, values, Enforced).1;
      && i < |r.items|
      && (d.decision != Decision.Allow ==>
            || (r.items[i].decision == d.decision && (Refused(d.decision) ==> r.items[i].rule == d.rule))
            || (d.decision == Decision.Hold && r.items[i].decision == Decision.Deny))
  {
    var ds := DecideItems(w, g, a, def, values).1;
    ItemsDecided(w, g, a, def, values);
    ForwardedExactly(ds, g.setup, i);
    EnforcedAlongside(w, g, a, def, values);
  }

  lemma TranslatedNeverStaged(w: World, g: Gateway, a: Attempt, def: ItemsDef, values: seq<Value>, items: seq<Advised>)
    requires items == Translate(DecideItems(w, g, a, def, values).1, g.setup, Advisory)
    ensures DecideItems(w, g, a, def, values).0.audit == w.audit
    ensures forall i | 0 <= i < |items| :: NeverStagedBefore(items[i].decided)
  {
    var ds := DecideItems(w, g, a, def, values).1;
    DecideItemsOutcomes(w, g, a, def, values);
    forall i | 0 <= i < |items| ensures NeverStagedBefore(items[i].decided) {
      assert items[i] == TranslateOne(ds[i], g.setup, Advisory);
    }
  }

  lemma EnforcedAlongside(w: World, g: Gateway, a: Attempt, def: ItemsDef, values: seq<Value>)
    requires values != []
    ensures var ds, r := DecideItems(w, g, a, def, values).1, FanOut(w, g, a, def, values, Enforced).1;
      && |r.items| == |ds|
      && forall i | 0 <= i < |ds| && ds[i].decision != Decision.Allow ::
           || (r.items[i].decision == ds[i].decision && (Refused(ds[i].decision) ==> r.items[i].rule == ds[i].rule))
           || (ds[i].decision == Decision.Hold && r.items[i].decision == Decision.Deny)
  {
    var ds := DecideItems(w, g, a, def, values).1;
    FanOutIsPartition(w, g, a, def, values);
    EnforcedItems(ds, g.setup);
  }

  ghost predicate AllDecidable(ds: seq<Decided>) {
    forall i | 0 <= i < |ds| :: Decidable(ds[i])
  }

  lemma FirstDecided(w: World, g: Gateway, a: Attempt, def: ItemsDef, values: seq<Value>) returns (m: World, first: Decided)
    requires values != []
    ensures Decidable(first)
    ensures DecideItems(w, g, a, def, values).1 == [first] + DecideItems(m, g, a, def, values[1..]).1
  {
    var call := ItemCall(a.call, def, [values[0]]);
    UnresolvedIsDenied(g.deps, call, a.party, a.env, w.calls, w.audit);
    m, first := DecideIn(w, g, call, a.party, a.env).0, DecideIn(w, g, call, a.party, a.env).1;
  }

  lemma {:induction false} ItemsDecided(w: World, g: Gateway, a: Attempt, def: ItemsDef, values: seq<Value>)
    ensures AllDecidable(DecideItems(w, g, a, def, values).1)
    decreases |values|
  {
    if values != [] {
      var m, first := FirstDecided(w, g, a, def, values);
      ItemsDecided(m, g, a, def, values[1..]);
    }
  }
}
