/** A refused batch leaves the stores as they were, and one record per operation in submission order. */
module BatchAtomicity {
  import opened Vocabulary
  import opened Stores
  import opened Pipeline
  import opened Enforcement
  import opened Conservation
  import opened ReservationRuns

  // ---- the records ---------------------------------------------------------------

  /** The `i`-th record of a refused batch. */
  ghost predicate Recorded(record: AuditRecord, d: Decided, c: Closing, stamped: bool) {
    && record.subject.parameters == d.call.data
    && record.finding.decision == c.decision && record.finding.rule == c.rule && record.finding.outcome == c.outcome
    && record.finding.gates == d.gates && record.finding.consumption.None?
    && record.label_.enforcement == if stamped then Advisory else Enforced
  }

  /** Record `at + i` of the trail is the one for operation i. */
  ghost predicate RecordedFrom(trail: seq<AuditRecord>, at: nat, ds: seq<Decided>, closings: seq<Closing>, stamped: bool) {
    && |closings| == |ds| && at + |ds| <= |trail|
    && forall i | 0 <= i < |ds| :: Recorded(trail[at + i], ds[i], closings[i], stamped)
  }

  lemma RecordedOnward(trail: seq<AuditRecord>, at: nat, ds: seq<Decided>, closings: seq<Closing>, stamped: bool)
    requires ds != [] && |closings| == |ds| && at < |trail|
    requires Recorded(trail[at], ds[0], closings[0], stamped)
    requires RecordedFrom(trail, at + 1, ds[1..], closings[1..], stamped)
    ensures RecordedFrom(trail, at, ds, closings, stamped)
  {
    forall i | 0 <= i < |ds| ensures Recorded(trail[at + i], ds[i], closings[i], stamped) {
      if i > 0 {
        assert Recorded(trail[at + 1 + (i - 1)], ds[1..][i - 1], closings[1..][i - 1], stamped);
      }
    }
  }

  lemma RecordedFirst(w: World, j: Job, d: Decided, c: Closing) returns (after: World)
    requires j.mode == Enforced && (j.stamp.Some? ==> j.stamp.value.advice.None?) && c.consumption.None?
    ensures after == Finish(w, j, d, c).0 && after == w.(audit := after.audit)
    ensures |after.audit| == |w.audit| + 1 && w.audit <= after.audit
    ensures Recorded(after.audit[|w.audit|], d, c, j.stamp.Some?)
  {
    after := Finish(w, j, d, c).0;
  }

  /** The records and the answers of a refused batch, and nothing else. */
  ghost predicate RefusedEach(w: World, done: World, results: seq<EvalResult>, ds: seq<Decided>, closings: seq<Closing>,
                              stamped: bool) {
    && |closings| == |ds| == |results| && done == w.(audit := done.audit)
    && |done.audit| == |w.audit| + |ds| && w.audit <= done.audit
    && RecordedFrom(done.audit, |w.audit|, ds, closings, stamped)
    && forall i | 0 <= i < |ds| :: results[i].decision == closings[i].decision && results[i].ticket.None?
  }

  lemma RefusedOnward(w: World, after: World, done: World, results: seq<EvalResult>, ds: seq<Decided>,
                      closings: seq<Closing>, stamped: bool)
    requires ds != [] && |closings| == |ds| == |results| && after == w.(audit := after.audit)
    requires |after.audit| == |w.audit| + 1 && w.audit <= after.audit
    requires Recorded(after.audit[|w.audit|], ds[0], closings[0], stamped)
    requires results[0].decision == closings[0].decision && results[0].ticket.None?
    requires RefusedEach(after, done, results[1..], ds[1..], closings[1..], stamped)
    ensures RefusedEach(w, done, results, ds, closings, stamped)
  {
    assert done.audit[|w.audit|] == after.audit[|w.audit|];
    RecordedOnward(done.audit, |w.audit|, ds, closings, stamped);
    forall i | 1 <= i < |ds| ensures results[i].decision == closings[i].decision && results[i].ticket.None? {
      assert results[i] == results[1..][i - 1] && closings[i] == closings[1..][i - 1];
    }
  }

  lemma {:induction false} RefuseAllRecords(w: World, g: Gateway, p: Party, ops: seq<Operation>, ds: seq<Decided>,
                                            stamp: Option<Stamp>, closings: seq<Closing>)
    requires |ops| == |ds| == |closings| && (stamp.Some? ==> stamp.value.advice.None?)
    requires forall i | 0 <= i < |closings| :: closings[i].consumption.None? && closings[i].ticket.None?
    ensures var (done, results) := RefuseAll(w, g, p, ops, ds, stamp, closings);
      RefusedEach(w, done, results, ds, closings, stamp.Some?)
    decreases |ds|
  {
    if ds != [] {
      var after := RecordedFirst(w, JobOf(g, p, ops[0].env, Enforced, stamp), ds[0], closings[0]);
      RefuseAllRecords(after, g, p, ops[1..], ds[1..], stamp, closings[1..]);
      var (done, results) := RefuseAll(w, g, p, ops, ds, stamp, closings);
      assert results[1..] == RefuseAll(after, g, p, ops[1..], ds[1..], stamp, closings[1..]).1;
      RefusedOnward(w, after, done, results, ds, closings, stamp.Some?);
    }
  }

  lemma {:induction false} DecideAllIs(w: World, g: Gateway, p: Party, ops: seq<Operation>)
    ensures var (w', ds) := DecideAll(w, g, p, ops);
      && w' == w.(calls := w'.calls)
      && forall i | 0 <= i < |ops| :: ds[i].call == ops[i].call && ds[i].claim.None?
    decreases |ops|
  {
    if ops != [] {
      DecideCommittable(g.deps, ops[0].call, p, ops[0].env, w.calls, w.audit);
      DecideAllIs(DecideIn(w, g, ops[0].call, p, ops[0].env).0, g, p, ops[1..]);
    }
  }

  // ---- the obligation lines --------------------------------------------------------

  ghost predicate FreshIntents(w: World) {
    forall key | LineAt(w, key).Reserved? :: LineAt(w, key).intent < w.nextId
  }

  /** Lines differ only where a free one was taken, by a claim in `taken` or by a call that went unanswered. */
  ghost predicate Borrowed(w: World, w': World, taken: set<Claim>) {
    && w.orphans <= w'.orphans && w.nextId <= w'.nextId
    && forall key | LineAt(w', key) != LineAt(w, key) ::
         && LineAt(w, key) == Free && LineAt(w', key).Reserved?
         && w.nextId <= LineAt(w', key).intent
         && (LineAt(w', key).intent in w'.orphans - w.orphans || InHand(taken, key, LineAt(w', key).intent))
  }

  lemma {:induction false} ReserveAllBorrows(w: World, g: Gateway, ds: seq<Decided>)
    requires Unclaimed(ds) && FreshIntents(w) && (forall n | n in w.orphans :: n < w.nextId)
    ensures var pass := ReserveAll(w, g, ds);
      && Borrowed(w, pass.world, ClaimsIn(pass.ds))
      && (forall c | c in ClaimsIn(pass.ds) :: w.nextId <= c.intent)
      && pass.world.rows == w.rows && pass.world.executed == w.executed && pass.world.audit == w.audit
    decreases |ds|
  {
    if ds == [] {
    } else if ClaimPlan(ds[0].gates).None? {
      ReserveAllBorrows(w, g, ds[1..]);
      FrontClaims(ds[0], ReserveAll(w, g, ds[1..]).ds);
    } else {
      var plan := ClaimPlan(ds[0].gates).value;
      var (after, reservation) := ReserveClaim(w, g.setup, g.outside, plan);
      ReserveBorrows(w, g, plan);
      if reservation.Held? {
        ReserveAllBorrows(after, g, ds[1..]);
        var rest := ReserveAll(after, g, ds[1..]);
        FrontClaims(ds[0].(claim := Some(reservation.claim)), rest.ds);
        BorrowedThen(w, after, rest.world, {reservation.claim}, ClaimsIn(rest.ds));
      }
    }
  }

  lemma FrontClaims(first: Decided, rest: seq<Decided>)
    ensures ClaimsIn([first] + rest) == ClaimsOf(first) + ClaimsIn(rest)
  {
    var all := [first] + rest;
    assert all[0] == first && all[1..] == rest;
  }

  lemma ReserveBorrows(w: World, g: Gateway, plan: (string, string, ConsumePlan))
    requires FreshIntents(w) && (forall n | n in w.orphans :: n < w.nextId)
    ensures var (w', r) := ReserveClaim(w, g.setup, g.outside, plan);
      && Borrowed(w, w', if r.Held? then {r.claim} else {})
      && (r.Held? ==> r.claim.intent == w.nextId)
      && FreshIntents(w') && (forall n | n in w'.orphans :: n < w'.nextId)
      && w'.rows == w.rows && w'.executed == w.executed && w'.audit == w.audit
  {
    var (w', r) := ReserveClaim(w, g.setup, g.outside, plan);
    if r.Held? {
      assert r.claim in {r.claim};
    }
  }

  lemma BorrowedThen(w: World, m: World, w': World, a: set<Claim>, b: set<Claim>)
    requires Borrowed(w, m, a) && Borrowed(m, w', b)
    ensures Borrowed(w, w', a + b)
  {
    forall key | LineAt(w', key) != LineAt(w, key)
      ensures LineAt(w, key) == Free && LineAt(w', key).Reserved? && w.nextId <= LineAt(w', key).intent
      ensures LineAt(w', key).intent in w'.orphans - w.orphans || InHand(a + b, key, LineAt(w', key).intent)
    {
      var n := LineAt(w', key).intent;
      if LineAt(m, key) != LineAt(w, key) {
        assert LineAt(w', key) == LineAt(m, key);
        if InHand(a, key, n) {
          var c :| c in a && KeyOf(c) == key && c.intent == n;
          assert c in a + b;
        }
      } else if InHand(b, key, n) {
        var c :| c in b && KeyOf(c) == key && c.intent == n;
        assert c in a + b;
      }
    }
  }

  lemma {:induction false} ReleaseAllReturns(w: World, m: World, g: Gateway, ds: seq<Decided>)
    requires Borrowed(w, m, ClaimsIn(ds)) && FreshIntents(w) && Backed(g.setup, ClaimsIn(ds))
    requires forall c | c in ClaimsIn(ds) :: w.nextId <= c.intent && c.intent !in w.orphans
    ensures var w' := ReleaseAll(m, g, ds);
      Borrowed(w, w', {}) && w'.rows == m.rows && w'.executed == m.executed && w'.audit == m.audit
    decreases |ds|
  {
    if ds != [] {
      var after := ReleaseClaim(m, g.setup, g.outside, ds[0].claim);
      if ds[0].claim.Some? {
        ReleaseReturns(w, m, g, ds[0].claim.value, ClaimsIn(ds));
        Narrow(w, after, ClaimsIn(ds) - {ds[0].claim.value}, ClaimsIn(ds[1..]));
      }
      ReleaseAllReturns(w, after, g, ds[1..]);
    }
  }

  lemma Narrow(w: World, m: World, a: set<Claim>, b: set<Claim>)
    requires Borrowed(w, m, a) && a <= b
    ensures Borrowed(w, m, b)
  {
    forall key | LineAt(m, key) != LineAt(w, key) && InHand(a, key, LineAt(m, key).intent)
      ensures InHand(b, key, LineAt(m, key).intent)
    {
      var c :| c in a && KeyOf(c) == key && c.intent == LineAt(m, key).intent;
      assert c in b;
    }
  }

  lemma ReleaseReturns(w: World, m: World, g: Gateway, c: Claim, taken: set<Claim>)
    requires Borrowed(w, m, taken) && c in taken && FreshIntents(w) && w.nextId <= c.intent && c.intent !in w.orphans
    requires g.setup.adapters.Some? && c.registry in g.setup.adapters.value
    ensures var w' := ReleaseClaim(m, g.setup, g.outside, Some(c));
      Borrowed(w, w', taken - {c}) && w'.rows == m.rows && w'.executed == m.executed && w'.audit == m.audit
  {
    var w' := ReleaseClaim(m, g.setup, g.outside, Some(c));
    forall key | LineAt(w', key) != LineAt(w, key)
      ensures LineAt(w, key) == Free && LineAt(w', key).Reserved? && w.nextId <= LineAt(w', key).intent
      ensures LineAt(w', key).intent in w'.orphans - w.orphans || InHand(taken - {c}, key, LineAt(w', key).intent)
    {
      assert LineAt(w', key) == LineAt(m, key);
      var n := LineAt(m, key).intent;
      if InHand(taken, key, n) && n !in m.orphans - w.orphans {
        var e :| e in taken && KeyOf(e) == key && e.intent == n;
        if e == c {
          assert n in w'.orphans;
        } else {
          assert e in taken - {c};
        }
      }
    }
  }

  // ---- the theorem --------------------------------------------------------------------

  /** The stores as they were; a line may differ only by a reservation whose adapter call went unanswered. */
  ghost predicate StoresRestored(w: World, w': World) {
    w'.rows == w.rows && w'.executed == w.executed && Borrowed(w, w', {})
  }

  /** If no adapter call went unanswered, the obligation registries are exactly as they were. */
  lemma AnsweredMeansRestored(w: World, w': World)
    requires StoresRestored(w, w') && w'.orphans == w.orphans
    ensures forall key :: LineAt(w', key) == LineAt(w, key)
  {
    forall key ensures LineAt(w', key) == LineAt(w, key) {
      if LineAt(w', key).Reserved? {
        assert !InHand({}, key, LineAt(w', key).intent);
      }
    }
  }

  /** One record per operation in submission order, each saying its own decision and the batch's fate. */
  ghost predicate EachRecorded(before: seq<AuditRecord>, after: seq<AuditRecord>, ops: seq<Operation>,
                               ds: seq<Decided>, closings: seq<Closing>, r: BatchResult)
    requires |ops| == |ds| == |closings|
  {
    && |after| == |before| + |ops| && before <= after && |r.results| == |ops|
    && RecordedFrom(after, |before|, ds, closings, false)
    && forall i | 0 <= i < |ops| ::
         && after[|before| + i].subject.parameters == ops[i].call.data
         && r.results[i].decision == closings[i].decision && r.results[i].ticket.None?
  }

  lemma EachIsRecorded(w: World, g: Gateway, p: Party, ops: seq<Operation>, ds: seq<Decided>, closings: seq<Closing>,
                       r: BatchResult)
    requires |ops| == |ds| == |closings|
    requires forall i | 0 <= i < |closings| :: closings[i].consumption.None? && closings[i].ticket.None?
    requires forall i | 0 <= i < |ops| :: ds[i].call == ops[i].call
    requires r.results == RefuseAll(w, g, p, ops, ds, None, closings).1
    ensures EachRecorded(w.audit, RefuseAll(w, g, p, ops, ds, None, closings).0.audit, ops, ds, closings, r)
    ensures var w' := RefuseAll(w, g, p, ops, ds, None, closings).0; w' == w.(audit := w'.audit)
  {
    RefuseAllRecords(w, g, p, ops, ds, None, closings);
    var w' := RefuseAll(w, g, p, ops, ds, None, closings).0;
    forall i | 0 <= i < |ops| ensures w'.audit[|w.audit| + i].subject.parameters == ops[i].call.data {
      assert Recorded(w'.audit[|w.audit| + i], ds[i], closings[i], false);
    }
  }

  /** A batch with a decided refusal: nothing happened, every operation has its own record, the first refusal is named. */
  lemma DecidedRefusalIsAtomic(w: World, g: Gateway, p: Party, ops: seq<Operation>)
    requires ops != [] && FirstRefusal(DecideAll(w, g, p, ops).1) < |ops|
    ensures
      var (w', r) := EnforceBatch(w, g, p, ops, Enforced);
      var ds := DecideAll(w, g, p, ops).1;
      var first := FirstRefusal(ds);
      && w'.rows == w.rows && w'.executed == w.executed && w'.lines == w.lines
      && r.failingIndex == Some(first) && r.decision == ds[first].decision
      && EachRecorded(w.audit, w'.audit, ops, ds, RefusalClosings(ds), r)
  {
    var (after, ds) := DecideAll(w, g, p, ops);
    DecideAllIs(w, g, p, ops);
    var (w', r) := RefuseBatch(after, g, p, ops, ds, FirstRefusal(ds), None);
    EachIsRecorded(after, g, p, ops, ds, RefusalClosings(ds), r);
    assert EnforceBatch(w, g, p, ops, Enforced) == (w', r) && after.audit == w.audit;
  }

  /** What a batch answers when its pre-pass is refused at operation `|pass.ds|`. */
  ghost predicate PrePassRefusal(w: World, answer: (World, BatchResult), ops: seq<Operation>, ds: seq<Decided>, pass: PrePass)
    requires |ds| == |ops| && |pass.ds| <= |ds| && pass.refusal.Some?
  {
    var (w', r) := answer;
    var held := pass.ds + ds[|pass.ds|..];
    && StoresRestored(w, w')
    && r.failingIndex == Some(|pass.ds|) && r.decision == Decision.Deny
    && (forall i | 0 <= i < |ops| :: held[i] == ds[i].(claim := held[i].claim))
    && EachRecorded(w.audit, w'.audit, ops, held, ReservationClosings(held, |pass.ds|, pass.refusal.value), r)
  }

  /** A batch whose reservations are refused: every reservation it took is given back, and the refused one is named. */
  lemma RefusedReservationIsAtomic(w: World, g: Gateway, p: Party, ops: seq<Operation>, hand: set<Claim>)
    requires ops != [] && Conserved(w, hand) && Backed(g.setup, hand)
    requires FirstRefusal(DecideAll(w, g, p, ops).1) == |ops|
    requires ReserveAll(DecideAll(w, g, p, ops).0, g, DecideAll(w, g, p, ops).1).refusal.Some?
    ensures
      var (after, ds) := DecideAll(w, g, p, ops);
      PrePassRefusal(w, EnforceBatch(w, g, p, ops, Enforced), ops, ds, ReserveAll(after, g, ds))
  {
    var (after, ds) := DecideAll(w, g, p, ops);
    DecideAllIs(w, g, p, ops);
    DecideAllConserves(w, g, p, ops, hand);
    RefusedPrePass(w, after, g, p, ops, ds, hand);
    assert EnforceBatch(w, g, p, ops, Enforced) == CommitBatch(after, g, p, ops, ds);
  }

  lemma RefusedPrePass(w: World, after: World, g: Gateway, p: Party, ops: seq<Operation>, ds: seq<Decided>, hand: set<Claim>)
    requires Conserved(after, hand) && Backed(g.setup, hand) && after == w.(calls := after.calls)
    requires |ops| == |ds| && AllCommittable(ds) && ReserveAll(after, g, ds).refusal.Some?
    requires forall i | 0 <= i < |ops| :: ds[i].call == ops[i].call && ds[i].claim.None?
    ensures PrePassRefusal(w, CommitBatch(after, g, p, ops, ds), ops, ds, ReserveAll(after, g, ds))
  {
    var pass := ReserveAll(after, g, ds);
    var released := ReleaseAll(pass.world, g, pass.ds);
    PrePassReturned(w, after, g, ds, hand);
    var held := HeldKeepsVerdicts(after, g, ds, pass);
    var (w', r) := CommitBatch(after, g, p, ops, ds);
    EachIsRecorded(released, g, p, ops, held, ReservationClosings(held, |pass.ds|, pass.refusal.value), r);
    RecordsAside(w, released, w');
  }

  lemma HeldKeepsVerdicts(w: World, g: Gateway, ds: seq<Decided>, pass: PrePass) returns (held: seq<Decided>)
    requires pass == ReserveAll(w, g, ds)
    ensures held == pass.ds + ds[|pass.ds|..] && |held| == |ds|
    ensures forall i | 0 <= i < |ds| :: held[i] == ds[i].(claim := held[i].claim)
  {
    ReserveAllKeepsVerdicts(w, g, ds);
    held := pass.ds + ds[|pass.ds|..];
    forall i | 0 <= i < |ds| ensures held[i] == ds[i].(claim := held[i].claim) {
      assert held[i] == if i < |pass.ds| then pass.ds[i] else ds[i];
    }
  }

  lemma RecordsAside(w: World, m: World, w': World)
    requires StoresRestored(w, m) && w' == m.(audit := w'.audit)
    ensures StoresRestored(w, w')
  {
    assert forall key :: LineAt(w', key) == LineAt(m, key);
  }

  lemma PrePassReturned(w: World, after: World, g: Gateway, ds: seq<Decided>, hand: set<Claim>)
    requires Conserved(after, hand) && Backed(g.setup, hand) && Unclaimed(ds) && after == w.(calls := after.calls)
    ensures var pass := ReserveAll(after, g, ds);
      var released := ReleaseAll(pass.world, g, pass.ds);
      StoresRestored(w, released) && released.audit == w.audit
  {
    var pass := ReserveAll(after, g, ds);
    var all := ReserveAllConserves(after, g, ds, hand, pass);
    ReserveAllBorrows(after, g, ds);
    assert Backed(g.setup, ClaimsIn(pass.ds)) by {
      assert forall c | c in ClaimsIn(pass.ds) :: c in all;
    }
    ReleaseAllReturns(after, pass.world, g, pass.ds);
    var released := ReleaseAll(pass.world, g, pass.ds);
    assert forall key :: LineAt(w, key) == LineAt(after, key);
  }
}
