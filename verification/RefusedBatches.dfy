/** What a refused batch records and answers of each of its operations. */
module RefusedBatches {
  import opened Vocabulary
  import opened Stores
  import opened Pipeline
  import opened Enforcement
  import opened Records
  import AdvisedPaths
  import ReservationRuns

  /** The operation's record and answer: its own call under the stamp, closed as given. */
  ghost predicate Closed(record: AuditRecord, r: EvalResult, j: Job, d: Decided, c: Closing) {
    && NamesCall(record, j, d) && Labels(record.label_, j.stamp)
    && r.decision == c.decision && r.rule == c.rule && r.ticket.None? && r.output.None?
    && record.finding.decision == c.decision && record.finding.outcome == c.outcome && record.finding.reason == r.reason
    && record.finding.approval.None? && record.finding.consumption.None?
  }

  ghost predicate EachClosed(w: World, w': World, rs: seq<EvalResult>, g: Gateway, p: Party, ops: seq<Operation>,
                             ds: seq<Decided>, stamp: Option<Stamp>, closings: seq<Closing>)
    requires |ops| == |ds| == |closings|
  {
    && |rs| == |ds| && |w'.audit| == |w.audit| + |ds| && w.audit <= w'.audit
    && forall i | 0 <= i < |ds| ::
         Closed(w'.audit[|w.audit| + i], rs[i], JobOf(g, p, ops[i].env, Enforced, stamp), ds[i], closings[i])
  }

  lemma ClosedOnward(w: World, m: World, w': World, first: EvalResult, rest: seq<EvalResult>, g: Gateway, p: Party,
                     ops: seq<Operation>, ds: seq<Decided>, stamp: Option<Stamp>, closings: seq<Closing>)
    requires |ops| == |ds| == |closings| && ds != [] && |m.audit| == |w.audit| + 1 && w.audit <= m.audit
    requires Closed(m.audit[|w.audit|], first, JobOf(g, p, ops[0].env, Enforced, stamp), ds[0], closings[0])
    requires EachClosed(m, w', rest, g, p, ops[1..], ds[1..], stamp, closings[1..])
    ensures EachClosed(w, w', [first] + rest, g, p, ops, ds, stamp, closings)
  {
    var rs := [first] + rest;
    assert w'.audit[|w.audit|] == m.audit[|w.audit|];
    forall i | 1 <= i < |ds|
      ensures Closed(w'.audit[|w.audit| + i], rs[i], JobOf(g, p, ops[i].env, Enforced, stamp), ds[i], closings[i])
    {
      var k := i - 1;
      assert ops[1..][k] == ops[i] && ds[1..][k] == ds[i] && closings[1..][k] == closings[i] && rs[i] == rest[k];
      assert Closed(w'.audit[|m.audit| + k], rest[k], JobOf(g, p, ops[1..][k].env, Enforced, stamp), ds[1..][k], closings[1..][k]);
    }
  }

  lemma {:induction false} RefusalsTell(w: World, g: Gateway, p: Party, ops: seq<Operation>, ds: seq<Decided>,
                                        stamp: Option<Stamp>, closings: seq<Closing>)
    requires |ops| == |ds| == |closings|
    requires forall i | 0 <= i < |ds| :: Bare(closings[i])
    ensures var (w', rs) := RefuseAll(w, g, p, ops, ds, stamp, closings); EachClosed(w, w', rs, g, p, ops, ds, stamp, closings)
    decreases |ds|
  {
    if ds != [] {
      var j := JobOf(g, p, ops[0].env, Enforced, stamp);
      var (m, first) := Finish(w, j, ds[0], closings[0]);
      FinishTells(w, j, ds[0], closings[0]);
      RefusalsTell(m, g, p, ops[1..], ds[1..], stamp, closings[1..]);
      var (w', rest) := RefuseAll(m, g, p, ops[1..], ds[1..], stamp, closings[1..]);
      ClosedOnward(w, m, w', WithFeedback(first, ds[0]), rest, g, p, ops, ds, stamp, closings);
    }
  }

  /** A refused operation as it was decided; any other as dragged down by its batch. */
  ghost predicate Dragged(c: Closing, d: Decided) {
    && Bare(c) && c.decision == d.decision && c.rule == d.rule
    && c.outcome == if d.decision == Decision.Deny || d.decision == Decision.Halt then d.outcome else BatchRefused
  }

  /** The batch answers as its first refused operation, and every operation answers and is recorded by its own verdict. */
  lemma RefusedBatchTells(w: World, g: Gateway, p: Party, ops: seq<Operation>, ds: seq<Decided>, failing: nat,
                          stamp: Option<Stamp>) returns (closings: seq<Closing>)
    requires |ops| == |ds| && failing < |ds|
    ensures |closings| == |ds| && forall i | 0 <= i < |ds| :: Dragged(closings[i], ds[i])
    ensures var (w', b) := RefuseBatch(w, g, p, ops, ds, failing, stamp);
      && b.decision == ds[failing].decision && b.failingIndex == Some(failing)
      && EachClosed(w, w', b.results, g, p, ops, ds, stamp, closings)
  {
    closings := RefusalClosings(ds);
    RefusalsTell(w, g, p, ops, ds, stamp, closings);
  }

  /** Refused for one reservation: that operation under the reservation's rule, the others dragged down with it. */
  ghost predicate Unreserved(c: Closing, d: Decided, failing: bool, rule: Rule) {
    && Bare(c)
    && if failing then c.decision == Decision.Deny && c.rule == rule && c.outcome == NotExecuted
       else c.decision == d.decision && c.rule == d.rule && c.outcome == BatchRefused
  }

  /** But for the claims taken so far, the verdicts are as decided. */
  ghost predicate AsDecided(held: seq<Decided>, ds: seq<Decided>) {
    |held| == |ds| && forall i | 0 <= i < |ds| :: held[i] == ds[i].(claim := held[i].claim)
  }

  ghost predicate AllUnreserved(closings: seq<Closing>, ds: seq<Decided>, failing: nat, rule: Rule) {
    |closings| == |ds| && forall i | 0 <= i < |ds| :: Unreserved(closings[i], ds[i], i == failing, rule)
  }

  lemma HeldAsDecided(w: World, g: Gateway, ds: seq<Decided>)
    ensures var pass := ReserveAll(w, g, ds); AsDecided(pass.ds + ds[|pass.ds|..], ds)
  {
    ReservationRuns.ReserveAllKeepsVerdicts(w, g, ds);
  }

  lemma ClosedUnreserved(held: seq<Decided>, ds: seq<Decided>, failing: nat, rule: Rule)
    requires AsDecided(held, ds)
    ensures AllUnreserved(ReservationClosings(held, failing, rule), ds, failing, rule)
  {
  }

  lemma UnreservedBatchTells(w: World, g: Gateway, p: Party, ops: seq<Operation>, ds: seq<Decided>, pass: PrePass)
    returns (m: World, held: seq<Decided>, closings: seq<Closing>)
    requires |ops| == |ds| && AllCommittable(ds)
    requires pass == ReserveAll(w, g, ds) && pass.refusal.Some?
    ensures AsDecided(held, ds) && AllUnreserved(closings, ds, |pass.ds|, pass.refusal.value)
    ensures var (w', b) := CommitBatch(w, g, p, ops, ds);
      && b.decision == Decision.Deny && b.failingIndex == Some(|pass.ds|)
      && EachClosed(m, w', b.results, g, p, ops, held, None, closings)
  {
    m, held := ReleaseAll(pass.world, g, pass.ds), pass.ds + ds[|pass.ds|..];
    HeldAsDecided(w, g, ds);
    closings := ReservationClosings(held, |pass.ds|, pass.refusal.value);
    ClosedUnreserved(held, ds, |pass.ds|, pass.refusal.value);
    RefusalsTell(m, g, p, ops, held, None, closings);
  }
}
