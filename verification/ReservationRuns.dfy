/** Reservation conservation over whole runs: enforcement in every form, and the rows' later life. */
module ReservationRuns {
  import opened Vocabulary
  import opened Stores
  import opened Pipeline
  import opened Enforcement
  import opened Conservation
  import Holds

  // ---- enforcing one call ---------------------------------------------------------

  lemma AdvisedClaim(d: Decided, s: Setup)
    ensures AsAdvised(d, s).decided.claim == d.claim
  {
  }

  lemma CommitAlone(w: World, j: Job, d: Decided, hand: set<Claim>)
    requires Conserved(w, hand) && Committable(d) && d.claim.None? && Backed(j.setup, hand)
    ensures Conserved(Commit(w, j, d).0, hand)
  {
    CommitConserves(w, j, d, hand);
    assert hand - {} == hand;
  }

  /** The same, of a world known to be the commit's. */
  lemma CommitLeaves(w: World, j: Job, d: Decided, hand: set<Claim>, w': World)
    requires Conserved(w, hand) && Committable(d) && d.claim.None? && Backed(j.setup, hand)
    requires w' == Commit(w, j, d).0
    ensures Conserved(w', hand)
  {
    CommitAlone(w, j, d, hand);
  }

  /** A whole call is one commit of a claimless decision, in the world where deciding it took its turns. */
  lemma WholeIsOneCommit(w: World, g: Gateway, a: Attempt, mode: Mode) returns (after: World, j: Job, d: Decided)
    ensures after == w.(calls := w.calls + DECIDE_CALLS)
    ensures j.setup == g.setup && Committable(d) && d.claim.None?
    ensures EnforceWhole(w, g, a, mode).0 == Commit(after, j, d).0
  {
    var (m, decided) := DecideIn(w, g, a.call, a.party, a.env);
    after := m;
    DecideCommittable(g.deps, a.call, a.party, a.env, w.calls, w.audit);
    if mode == Enforced {
      j, d := JobOf(g, a.party, a.env, Enforced, None), decided;
    } else {
      var advised := AsAdvised(decided, g.setup);
      j := JobOf(g, a.party, a.env, Advisory, Some(Stamp(advised.advice, advised.coverage, None, None)));
      d := advised.decided;
    }
  }

  lemma WholeConserves(w: World, g: Gateway, a: Attempt, mode: Mode, hand: set<Claim>, w': World)
    requires Conserved(w, hand) && Backed(g.setup, hand) && w' == EnforceWhole(w, g, a, mode).0
    ensures Conserved(w', hand)
  {
    var after, j, d := WholeIsOneCommit(w, g, a, mode);
    Untouched(w, after, hand);
    CommitLeaves(after, j, d, hand, w');
  }

  // ---- the item fan-out --------------------------------------------------------------

  ghost predicate Claimless(items: seq<Advised>) {
    forall i | 0 <= i < |items| :: items[i].decided.claim.None?
  }

  lemma {:induction false} DecideItemsConserves(w: World, g: Gateway, a: Attempt, def: ItemsDef, values: seq<Value>, hand: set<Claim>)
    requires Conserved(w, hand)
    ensures var (w', ds) := DecideItems(w, g, a, def, values);
      Conserved(w', hand) && Unclaimed(ds)
    decreases |values|
  {
    if values != [] {
      var call := ItemCall(a.call, def, [values[0]]);
      var (after, first) := DecideIn(w, g, call, a.party, a.env);
      Untouched(w, after, hand);
      DecideCommittable(g.deps, call, a.party, a.env, w.calls, w.audit);
      DecideItemsConserves(after, g, a, def, values[1..], hand);
      UnclaimedFront(first, DecideItems(after, g, a, def, values[1..]).1);
    }
  }

  lemma {:induction false} SettleItemsConserves(w: World, g: Gateway, a: Attempt, mode: Mode, names: seq<string>,
                                                items: seq<Advised>, hand: set<Claim>)
    requires Conserved(w, hand) && Backed(g.setup, hand)
    requires |names| == |items| && ItemsCommittable(items) && Claimless(items)
    ensures Conserved(SettleItems(w, g, a, mode, names, items).0, hand)
    decreases |items|
  {
    if items != [] {
      var j := JobOf(g, a.party, a.env, mode, StampFor(mode, items[0]));
      var d := items[0].decided;
      CommitAlone(w, j, d, hand);
      SettleItemsConserves(SettleItem(w, g, a, mode, items[0]).0, g, a, mode, names[1..], items[1..], hand);
    }
  }

  lemma FanOutConserves(w: World, g: Gateway, a: Attempt, def: ItemsDef, values: seq<Value>, mode: Mode, hand: set<Claim>)
    requires Conserved(w, hand) && Backed(g.setup, hand) && values != []
    ensures Conserved(FanOut(w, g, a, def, values, mode).0, hand)
  {
    var names := ItemNames(values, def, g.setup.text);
    var (decidedIn, ds) := DecideItems(w, g, a, def, values);
    DecideItemsConserves(w, g, a, def, values, hand);
    var items := Translate(ds, g.setup, mode);
    forall i | 0 <= i < |items| ensures items[i].decided.claim.None? {
      AdvisedClaim(ds[i], g.setup);
    }
    var (settledIn, verdicts) := SettleItems(decidedIn, g, a, mode, names, items);
    SettleItemsConserves(decidedIn, g, a, mode, names, items, hand);
    match Template(items)
    case None =>
    case Some(template) =>
      var merged := MergedDecided(template.decided, a.call, def, AllowedValues(values, items));
      CommitAlone(settledIn, JobOf(g, a.party, a.env, mode, CallStamp(mode, names, items)), merged, hand);
  }

  /** Enforcing any call, in either mode and through any path, leaves no reservation behind. */
  lemma EnforceConserves(w: World, g: Gateway, a: Attempt, mode: Mode, hand: set<Claim>)
    requires Conserved(w, hand) && Backed(g.setup, hand)
    ensures Conserved(Enforce(w, g, a, mode).0, hand)
  {
    match ItemsDeclaration(g.deps, a.call)
    case None => WholeConserves(w, g, a, mode, hand, Enforce(w, g, a, mode).0);
    case Some(def) =>
      var values := ItemValues(a.call, def);
      if !OverCeiling(def, values) {
        FanOutConserves(w, g, a, def, values, mode, hand);
      } else if mode == Enforced {
        var refusal := Verdict(a.call, None, Decision.Deny, ItemsOverCeiling);
        FinishAccounts(w, JobOf(g, a.party, a.env, Enforced, None), refusal,
                       Close(Decision.Deny, ItemsOverCeiling, NotExecuted), hand);
      } else {
        CeilingConserves(w, g, a, hand, Enforce(w, g, a, mode).0);
      }
  }

  lemma CeilingIsOneCommit(w: World, g: Gateway, a: Attempt) returns (after: World, j: Job, d: Decided)
    ensures after == w.(calls := w.calls + DECIDE_CALLS)
    ensures j.setup == g.setup && Committable(d) && d.claim.None?
    ensures EnforceOverCeiling(w, g, a, Advisory).0 == Commit(after, j, d).0
  {
    var (m, whole) := DecideIn(w, g, a.call, a.party, a.env);
    after := m;
    DecideCommittable(g.deps, a.call, a.party, a.env, w.calls, w.audit);
    var forwarded := AsAdvised(whole, g.setup);
    j, d := JobOf(g, a.party, a.env, Advisory, Some(CeilingStamp(forwarded))), forwarded.decided;
  }

  lemma CeilingConserves(w: World, g: Gateway, a: Attempt, hand: set<Claim>, w': World)
    requires Conserved(w, hand) && Backed(g.setup, hand) && w' == EnforceOverCeiling(w, g, a, Advisory).0
    ensures Conserved(w', hand)
  {
    var after, j, d := CeilingIsOneCommit(w, g, a);
    Untouched(w, after, hand);
    CommitLeaves(after, j, d, hand, w');
  }

  // ---- batches ------------------------------------------------------------------------

  ghost function ClaimsIn(ds: seq<Decided>): set<Claim> {
    if ds == [] then {} else ClaimsOf(ds[0]) + ClaimsIn(ds[1..])
  }

  /** No operation's claim is another's, nor already in `hand`. */
  ghost predicate Separate(ds: seq<Decided>, hand: set<Claim>) {
    ds != [] ==> ClaimsOf(ds[0]) !! hand + ClaimsIn(ds[1..]) && Separate(ds[1..], hand)
  }

  lemma {:induction false} SeparateFrom(ds: seq<Decided>, hand: set<Claim>, smaller: set<Claim>)
    requires Separate(ds, hand) && smaller <= hand
    ensures ClaimsIn(ds) !! hand && Separate(ds, smaller)
  {
    if ds != [] {
      SeparateFrom(ds[1..], hand, smaller);
    }
  }

  ghost predicate Unclaimed(ds: seq<Decided>) {
    forall i | 0 <= i < |ds| :: ds[i].claim.None?
  }

  lemma {:induction false} ReserveAllConserves(w: World, g: Gateway, ds: seq<Decided>, hand: set<Claim>, pass: PrePass)
    returns (all: set<Claim>)
    requires Conserved(w, hand) && Backed(g.setup, hand) && Unclaimed(ds) && pass == ReserveAll(w, g, ds)
    ensures all == hand + ClaimsIn(pass.ds)
    ensures Conserved(pass.world, all) && Backed(g.setup, all) && Separate(pass.ds, hand)
    decreases |ds|
  {
    if ds == [] {
      all := hand;
    } else if ClaimPlan(ds[0].gates).None? {
      var rest := ReserveAll(w, g, ds[1..]);
      assert pass == rest.(ds := [ds[0]] + rest.ds);
      all := ReserveAllConserves(w, g, ds[1..], hand, rest);
      assert ClaimsOf(ds[0]) == {} && hand == hand + {};
      ClaimsAfter(ds[0], rest.ds, hand, hand);
    } else {
      var plan := ClaimPlan(ds[0].gates).value;
      var (after, reservation) := ReserveClaim(w, g.setup, g.outside, plan);
      var hand' := ReserveStep(w, g.setup, g.outside, plan, hand);
      if reservation.Rejected? {
        all := hand';
      } else {
        var rest := ReserveAll(after, g, ds[1..]);
        assert pass == rest.(ds := [ds[0].(claim := Some(reservation.claim))] + rest.ds);
        all := ReserveAllConserves(after, g, ds[1..], hand', rest);
        ClaimsAfter(ds[0].(claim := Some(reservation.claim)), rest.ds, hand, hand');
      }
    }
  }

  lemma ReserveStep(w: World, s: Setup, outside: Outside, plan: (string, string, ConsumePlan), hand: set<Claim>)
    returns (hand': set<Claim>)
    requires Conserved(w, hand) && Backed(s, hand)
    ensures var (after, reservation) := ReserveClaim(w, s, outside, plan);
      && Conserved(after, hand') && Backed(s, hand')
      && (reservation.Held? ==> reservation.claim !in hand && hand' == hand + {reservation.claim})
      && (reservation.Rejected? ==> hand' == hand)
  {
    ReserveConserves(w, s, outside, plan, hand);
    var reservation := ReserveClaim(w, s, outside, plan).1;
    hand' := if reservation.Held? then hand + {reservation.claim} else hand;
  }

  /** Putting one more operation in front adds its claim to those in hand. */
  lemma ClaimsAfter(first: Decided, rest: seq<Decided>, hand: set<Claim>, hand': set<Claim>)
    requires hand' == hand + ClaimsOf(first) && ClaimsOf(first) !! hand && Separate(rest, hand')
    ensures Separate([first] + rest, hand)
    ensures hand + ClaimsIn([first] + rest) == hand' + ClaimsIn(rest)
  {
    var all := [first] + rest;
    assert all[0] == first && all[1..] == rest;
    SeparateFrom(rest, hand', hand);
  }

  lemma {:induction false} ReleaseAllConserves(w: World, g: Gateway, ds: seq<Decided>, hand: set<Claim>, all: set<Claim>)
    requires all == hand + ClaimsIn(ds)
    requires Conserved(w, all) && Backed(g.setup, all) && Separate(ds, hand)
    ensures Conserved(ReleaseAll(w, g, ds), hand)
    decreases |ds|
  {
    if ds == [] {
      assert all == hand;
    } else {
      var claim := ds[0].claim;
      var rest := all - (if claim.Some? then {claim.value} else {});
      GiveBack(w, g.setup, g.outside, claim, all);
      assert rest == hand + ClaimsIn(ds[1..]);
      ReleaseAllConserves(ReleaseClaim(w, g.setup, g.outside, claim), g, ds[1..], hand, rest);
    }
  }

  lemma {:induction false} RefuseAllConserves(w: World, g: Gateway, p: Party, ops: seq<Operation>, ds: seq<Decided>,
                                              stamp: Option<Stamp>, closings: seq<Closing>, hand: set<Claim>)
    requires Conserved(w, hand) && |ops| == |ds| == |closings|
    requires forall i | 0 <= i < |closings| :: closings[i].consumption.None?
    ensures Conserved(RefuseAll(w, g, p, ops, ds, stamp, closings).0, hand)
    decreases |ds|
  {
    if ds != [] {
      var j := JobOf(g, p, ops[0].env, Enforced, stamp);
      FinishAccounts(w, j, ds[0], closings[0], hand);
      RefuseAllConserves(Finish(w, j, ds[0], closings[0]).0, g, p, ops[1..], ds[1..], stamp, closings[1..], hand);
    }
  }

  ghost function Unreached(w: World, j: Job, d: Decided): set<Claim>
    requires Committable(d)
  {
    if ReachesClaim(w, j, d) then {} else ClaimsOf(d)
  }

  /** The claims a committed batch reserved but whose own commit stopped short of them. */
  ghost function Dangling(w: World, g: Gateway, p: Party, mode: Mode, ops: seq<Operation>, ds: seq<Decided>,
                          stamps: seq<Option<Stamp>>): set<Claim>
    requires |ops| == |ds| == |stamps| && AllCommittable(ds)
    decreases |ds|
  {
    if ds == [] then {}
    else
      var j := JobOf(g, p, ops[0].env, mode, stamps[0]);
      Unreached(w, j, ds[0])
      + Dangling(Commit(w, j, ds[0]).0, g, p, mode, ops[1..], ds[1..], stamps[1..])
  }

  lemma {:induction false} CommitAllConserves(w: World, g: Gateway, p: Party, mode: Mode, ops: seq<Operation>,
                                              ds: seq<Decided>, stamps: seq<Option<Stamp>>, hand: set<Claim>,
                                              all: set<Claim>, done: World)
    returns (left: set<Claim>)
    requires |ops| == |ds| == |stamps| && AllCommittable(ds) && all == hand + ClaimsIn(ds)
    requires Conserved(w, all) && Backed(g.setup, all) && Separate(ds, hand)
    requires done == CommitAll(w, g, p, mode, ops, ds, stamps).0
    ensures left == hand + Dangling(w, g, p, mode, ops, ds, stamps)
    ensures Conserved(done, left)
    decreases |ds|
  {
    if ds == [] {
      left := all;
    } else {
      var j := JobOf(g, p, ops[0].env, mode, stamps[0]);
      var after, kept, all' := FirstCommitConserves(w, j, ds, hand, all);
      left := CommitAllConserves(after, g, p, mode, ops[1..], ds[1..], stamps[1..], kept, all', done);
      UnionIsAssociative(hand, Unreached(w, j, ds[0]), Dangling(after, g, p, mode, ops[1..], ds[1..], stamps[1..]));
    }
  }

  lemma UnionIsAssociative(a: set<Claim>, b: set<Claim>, c: set<Claim>)
    ensures (a + b) + c == a + (b + c)
  {
  }

  /** After the first commit: in hand stay what it did not reach and the other operations' claims. */
  lemma FirstCommitConserves(w: World, j: Job, ds: seq<Decided>, hand: set<Claim>, all: set<Claim>)
    returns (after: World, kept: set<Claim>, all': set<Claim>)
    requires ds != [] && Committable(ds[0]) && Separate(ds, hand) && all == hand + ClaimsIn(ds)
    requires Conserved(w, all) && Backed(j.setup, all)
    ensures after == Commit(w, j, ds[0]).0 && kept == hand + Unreached(w, j, ds[0])
    ensures Conserved(after, all') && Backed(j.setup, all')
    ensures all' == kept + ClaimsIn(ds[1..]) && Separate(ds[1..], kept)
  {
    after := Commit(w, j, ds[0]).0;
    CommitConserves(w, j, ds[0], all);
    kept, all' := AfterFirst(ds, hand, all, ReachesClaim(w, j, ds[0]));
  }

  lemma AfterFirst(ds: seq<Decided>, hand: set<Claim>, all: set<Claim>, reaches: bool)
    returns (kept: set<Claim>, all': set<Claim>)
    requires ds != [] && Separate(ds, hand) && all == hand + ClaimsIn(ds)
    ensures kept == hand + if reaches then {} else ClaimsOf(ds[0])
    ensures all' == (if reaches then all - ClaimsOf(ds[0]) else all) && all' <= all
    ensures all' == kept + ClaimsIn(ds[1..]) && Separate(ds[1..], kept)
  {
    kept := hand + if reaches then {} else ClaimsOf(ds[0]);
    all' := if reaches then all - ClaimsOf(ds[0]) else all;
    Widen(ds[1..], hand, if reaches then {} else ClaimsOf(ds[0]));
  }

  lemma {:induction false} DanglingWithin(w: World, g: Gateway, p: Party, mode: Mode, ops: seq<Operation>,
                                          ds: seq<Decided>, stamps: seq<Option<Stamp>>)
    requires |ops| == |ds| == |stamps| && AllCommittable(ds)
    ensures Dangling(w, g, p, mode, ops, ds, stamps) <= ClaimsIn(ds)
    decreases |ds|
  {
    if ds != [] {
      var j := JobOf(g, p, ops[0].env, mode, stamps[0]);
      DanglingWithin(Commit(w, j, ds[0]).0, g, p, mode, ops[1..], ds[1..], stamps[1..]);
    }
  }

  lemma {:induction false} Widen(ds: seq<Decided>, hand: set<Claim>, more: set<Claim>)
    requires Separate(ds, hand) && ClaimsIn(ds) !! more
    ensures Separate(ds, hand + more)
  {
    if ds != [] {
      Widen(ds[1..], hand, more);
    }
  }

  /** What a batch leaves dangling: nothing unless it commits. */
  ghost function BatchDangling(w: World, g: Gateway, p: Party, ops: seq<Operation>, mode: Mode): set<Claim>
    requires ops != []
  {
    var (after, ds) := DecideAll(w, g, p, ops);
    if mode == Advisory || FirstRefusal(ds) < |ds| then {}
    else
      var pass := ReserveAll(after, g, ds);
      if pass.refusal.Some? then {}
      else Dangling(pass.world, g, p, Enforced, ops, pass.ds, NoStamps(|ds|))
  }

  lemma UnclaimedFront(first: Decided, rest: seq<Decided>)
    requires first.claim.None? && Unclaimed(rest)
    ensures Unclaimed([first] + rest)
  {
  }

  lemma {:induction false} DecideAllConserves(w: World, g: Gateway, p: Party, ops: seq<Operation>, hand: set<Claim>)
    requires Conserved(w, hand)
    ensures var (w', ds) := DecideAll(w, g, p, ops); Conserved(w', hand) && Unclaimed(ds)
    decreases |ops|
  {
    if ops != [] {
      var (after, first) := DecideIn(w, g, ops[0].call, p, ops[0].env);
      Untouched(w, after, hand);
      DecideCommittable(g.deps, ops[0].call, p, ops[0].env, w.calls, w.audit);
      DecideAllConserves(after, g, p, ops[1..], hand);
      UnclaimedFront(first, DecideAll(after, g, p, ops[1..]).1);
    }
  }

  lemma {:induction false} UnclaimedHasNone(ds: seq<Decided>, hand: set<Claim>)
    requires Unclaimed(ds)
    ensures ClaimsIn(ds) == {} && Separate(ds, hand)
  {
    if ds != [] {
      UnclaimedHasNone(ds[1..], hand);
    }
  }

  lemma {:induction false} UnclaimedDangleNone(w: World, g: Gateway, p: Party, mode: Mode, ops: seq<Operation>,
                                               ds: seq<Decided>, stamps: seq<Option<Stamp>>)
    requires |ops| == |ds| == |stamps| && AllCommittable(ds) && Unclaimed(ds)
    ensures Dangling(w, g, p, mode, ops, ds, stamps) == {}
    decreases |ds|
  {
    if ds != [] {
      var j := JobOf(g, p, ops[0].env, mode, stamps[0]);
      UnclaimedDangleNone(Commit(w, j, ds[0]).0, g, p, mode, ops[1..], ds[1..], stamps[1..]);
    }
  }

  /** A batch keeps every account except the claims it leaves dangling. */
  lemma BatchConserves(w: World, g: Gateway, p: Party, ops: seq<Operation>, mode: Mode, hand: set<Claim>)
    requires ops != [] && Conserved(w, hand) && Backed(g.setup, hand)
    ensures Conserved(EnforceBatch(w, g, p, ops, mode).0, hand + BatchDangling(w, g, p, ops, mode))
    ensures Backed(g.setup, hand + BatchDangling(w, g, p, ops, mode))
  {
    var (after, ds) := DecideAll(w, g, p, ops);
    DecideAllConserves(w, g, p, ops, hand);
    assert hand + {} == hand;
    if mode == Advisory {
      AdviseConserves(after, g, p, ops, ds, hand);
    } else if FirstRefusal(ds) < |ds| {
      RefuseAllConserves(after, g, p, ops, ds, None, RefusalClosings(ds), hand);
    } else {
      CommitBatchConserves(after, g, p, ops, ds, hand);
    }
  }

  lemma CommitBatchConserves(w: World, g: Gateway, p: Party, ops: seq<Operation>, ds: seq<Decided>, hand: set<Claim>)
    requires |ops| == |ds| && AllCommittable(ds) && Unclaimed(ds) && Conserved(w, hand) && Backed(g.setup, hand)
    ensures var pass := ReserveAll(w, g, ds);
      var left := if pass.refusal.Some? then {} else Dangling(pass.world, g, p, Enforced, ops, pass.ds, NoStamps(|ds|));
      Conserved(CommitBatch(w, g, p, ops, ds).0, hand + left) && Backed(g.setup, hand + left)
  {
    var pass := ReserveAll(w, g, ds);
    var all := ReserveAllConserves(w, g, ds, hand, pass);
    if pass.refusal.Some? {
      ReleaseAllConserves(pass.world, g, pass.ds, hand, all);
      var released := ReleaseAll(pass.world, g, pass.ds);
      var failing := |pass.ds|;
      var held := pass.ds + ds[failing..];
      RefuseAllConserves(released, g, p, ops, held, None, ReservationClosings(held, failing, pass.refusal.value), hand);
      assert hand + {} == hand;
    } else {
      var left := CommitAllConserves(pass.world, g, p, Enforced, ops, pass.ds, NoStamps(|ds|), hand, all,
                                      CommitAll(pass.world, g, p, Enforced, ops, pass.ds, NoStamps(|ds|)).0);
      DanglingWithin(pass.world, g, p, Enforced, ops, pass.ds, NoStamps(|ds|));
    }
  }

  lemma AdviseConserves(w: World, g: Gateway, p: Party, ops: seq<Operation>, ds: seq<Decided>, hand: set<Claim>)
    requires |ops| == |ds| && AllCommittable(ds) && Unclaimed(ds) && Conserved(w, hand) && Backed(g.setup, hand)
    ensures Conserved(AdviseBatch(w, g, p, ops, ds).0, hand)
  {
    var killed := FirstKill(ds);
    if killed < |ds| {
      RefuseAllConserves(w, g, p, ops, ds, Some(Stamp(None, Judged, None, None)), RefusalClosings(ds), hand);
    } else {
      var failing := FirstRefusal(ds);
      var note := if failing < |ds| then Some(BatchAdvice(failing, ds[failing].decision)) else None;
      var items := Translate(ds, g.setup, Advisory);
      var translated := seq(|ds|, i requires 0 <= i < |ds| => items[i].decided);
      var stamps := seq(|ds|, i requires 0 <= i < |ds| =>
        Some(Stamp(items[i].advice, items[i].coverage, note, None)));
      forall i | 0 <= i < |ds| ensures translated[i].claim.None? {
        AdvisedClaim(ds[i], g.setup);
      }
      UnclaimedHasNone(translated, hand);
      UnclaimedDangleNone(w, g, p, Advisory, ops, translated, stamps);
      var left := CommitAllConserves(w, g, p, Advisory, ops, translated, stamps, hand, hand,
                                      CommitAll(w, g, p, Advisory, ops, translated, stamps).0);
      assert left == hand;
    }
  }

  /** A committed batch keeps every account exactly when no operation's commit stopped short of its claim. */
  lemma BatchLeaksUnreached(w: World, g: Gateway, p: Party, ops: seq<Operation>, mode: Mode)
    requires ops != [] && Conserved(w, {})
    ensures Conserved(EnforceBatch(w, g, p, ops, mode).0, {}) <==> BatchDangling(w, g, p, ops, mode) == {}
  {
    var w' := EnforceBatch(w, g, p, ops, mode).0;
    var left := BatchDangling(w, g, p, ops, mode);
    BatchConserves(w, g, p, ops, mode, {});
    assert {} + left == left;
    if left != {} && Conserved(w', {}) {
      var c :| c in left;
      StrandedClaim(w', c, left);
    }
  }

  /** A claim in nobody's hand and on nobody's row contradicts the accounts being settled. */
  lemma StrandedClaim(w: World, c: Claim, left: set<Claim>)
    requires Conserved(w, left) && c in left
    ensures !Conserved(w, {})
  {
    assert LineAt(w, KeyOf(c)) == Reserved(c.intent) && c.intent !in w.orphans;
    assert !InHand({}, KeyOf(c), c.intent);
    forall i | Keeps(w, i) ensures ClaimAt(w, i).intent != c.intent {
    }
    assert !OnRow(w, KeyOf(c), c.intent);
  }

  /** The deployment a batch needs: both stores wired, a clock when freshness is on, no dedupe, pins that match. */
  ghost predicate Wired(s: Setup, ops: seq<Operation>) {
    && s.outbox && s.connectors && s.dedupeWindow.None?
    && (forall a: ResolvedAction :: !s.mismatch(a))
    && (s.freshness.Some? ==> forall i | 0 <= i < |ops| :: ops[i].env.now.Some?)
  }

  lemma {:induction false} WiredReaches(w: World, g: Gateway, p: Party, mode: Mode, ops: seq<Operation>,
                                        ds: seq<Decided>, stamps: seq<Option<Stamp>>)
    requires |ops| == |ds| == |stamps| && AllCommittable(ds) && Wired(g.setup, ops)
    requires forall i | 0 <= i < |ds| :: !Refused(ds[i].decision)
    ensures Dangling(w, g, p, mode, ops, ds, stamps) == {}
    decreases |ds|
  {
    if ds != [] {
      var j := JobOf(g, p, ops[0].env, mode, stamps[0]);
      assert !Refused(ds[0].decision);
      WiredReaches(Commit(w, j, ds[0]).0, g, p, mode, ops[1..], ds[1..], stamps[1..]);
    }
  }

  lemma {:induction false} ReserveAllKeepsVerdicts(w: World, g: Gateway, ds: seq<Decided>)
    ensures var pass := ReserveAll(w, g, ds);
      forall i | 0 <= i < |pass.ds| :: pass.ds[i] == ds[i].(claim := pass.ds[i].claim)
    decreases |ds|
  {
    if ds != [] {
      match ClaimPlan(ds[0].gates)
      case None =>
        ReserveAllKeepsVerdicts(w, g, ds[1..]);
        PrependKeeps(ds, ds[0], ReserveAll(w, g, ds[1..]).ds);
      case Some(plan) =>
        var (after, reservation) := ReserveClaim(w, g.setup, g.outside, plan);
        ReserveAllKeepsVerdicts(after, g, ds[1..]);
        if reservation.Held? {
          PrependKeeps(ds, ds[0].(claim := Some(reservation.claim)), ReserveAll(after, g, ds[1..]).ds);
        }
    }
  }

  lemma PrependKeeps(ds: seq<Decided>, first: Decided, rest: seq<Decided>)
    requires ds != [] && |rest| < |ds| && first == ds[0].(claim := first.claim)
    requires forall i | 0 <= i < |rest| :: rest[i] == ds[1..][i].(claim := rest[i].claim)
    ensures var all := [first] + rest; forall i | 0 <= i < |all| :: all[i] == ds[i].(claim := all[i].claim)
  {
    var all := [first] + rest;
    forall i | 0 <= i < |all| ensures all[i] == ds[i].(claim := all[i].claim) {
      if i > 0 { assert all[i] == rest[i - 1] && ds[1..][i - 1] == ds[i]; }
    }
  }

  /** In a wired deployment every batch keeps the accounts. */
  lemma WiredBatchConserves(w: World, g: Gateway, p: Party, ops: seq<Operation>, mode: Mode)
    requires ops != [] && Wired(g.setup, ops)
    ensures BatchDangling(w, g, p, ops, mode) == {}
  {
    var (after, ds) := DecideAll(w, g, p, ops);
    if mode == Enforced && FirstRefusal(ds) == |ds| {
      var pass := ReserveAll(after, g, ds);
      ReserveAllKeepsVerdicts(after, g, ds);
      if pass.refusal.None? {
        WiredReaches(pass.world, g, p, Enforced, ops, pass.ds, NoStamps(|ds|));
      }
    }
  }

  // ---- which batches leak, from what is known before they run --------------------------------------

  /** The wiring and the clock that the commit of a decided operation needs to get as far as its reservation. */
  predicate Placeable(s: Setup, env: RequestEnv, d: Decided)
    requires Committable(d)
  {
    if Refused(d.decision) then false
    else if d.decision == Decision.Hold || d.resolved.value.kind == Effect then
      s.outbox && (s.freshness.None? || env.now.Some?)
    else s.connectors && !s.mismatch(d.resolved.value)
  }

  /** This operation is not answered from the queue: it is no hold, or nothing can be searched for. */
  predicate Unsearched(g: Gateway, env: RequestEnv, d: Decided)
    requires Committable(d)
  {
    d.decision == Decision.Hold ==>
      || g.setup.dedupeWindow.None? || env.now.None?
      || Holds.HoldKey(g.deps.AgentName(), d.resolved.value, d.gates, g.setup.text).None?
  }

  predicate UnsearchedClaims(g: Gateway, ops: seq<Operation>, ds: seq<Decided>)
    requires |ops| == |ds| && AllCommittable(ds)
  {
    forall i | 0 <= i < |ds| && ClaimPlan(ds[i].gates).Some? :: Unsearched(g, ops[i].env, ds[i])
  }

  predicate PlaceableClaims(g: Gateway, ops: seq<Operation>, ds: seq<Decided>)
    requires |ops| == |ds| && AllCommittable(ds)
  {
    forall i | 0 <= i < |ds| && ClaimPlan(ds[i].gates).Some? :: Placeable(g.setup, ops[i].env, ds[i])
  }

  /** Nothing was refused when the batch was decided, and its pre-pass got every reservation. */
  predicate Commits(w: World, g: Gateway, ds: seq<Decided>) {
    FirstRefusal(ds) == |ds| && ReserveAll(w, g, ds).refusal.None?
  }

  /** The guard is necessary for reaching the claim, and enough when the queue is not searched. */
  lemma PlaceableReaches(w: World, g: Gateway, p: Party, env: RequestEnv, mode: Mode, stamp: Option<Stamp>, d: Decided)
    requires Committable(d)
    ensures ReachesClaim(w, JobOf(g, p, env, mode, stamp), d) ==> Placeable(g.setup, env, d)
    ensures Placeable(g.setup, env, d) && Unsearched(g, env, d) ==> ReachesClaim(w, JobOf(g, p, env, mode, stamp), d)
  {
  }

  lemma {:induction false} DanglingExactly(w: World, g: Gateway, p: Party, mode: Mode, ops: seq<Operation>,
                                           ds: seq<Decided>, stamps: seq<Option<Stamp>>)
    requires |ops| == |ds| == |stamps| && AllCommittable(ds)
    ensures Dangling(w, g, p, mode, ops, ds, stamps) == {} ==>
            forall i | 0 <= i < |ds| && ds[i].claim.Some? :: Placeable(g.setup, ops[i].env, ds[i])
    ensures (forall i | 0 <= i < |ds| && ds[i].claim.Some? ::
               Placeable(g.setup, ops[i].env, ds[i]) && Unsearched(g, ops[i].env, ds[i]))
            ==> Dangling(w, g, p, mode, ops, ds, stamps) == {}
    decreases |ds|
  {
    if ds != [] {
      var j := JobOf(g, p, ops[0].env, mode, stamps[0]);
      PlaceableReaches(w, g, p, ops[0].env, mode, stamps[0], ds[0]);
      DanglingExactly(Commit(w, j, ds[0]).0, g, p, mode, ops[1..], ds[1..], stamps[1..]);
      assert forall i | 1 <= i < |ds| :: ds[i] == ds[1..][i - 1] && ops[i] == ops[1..][i - 1];
      assert forall i | 0 <= i < |ds| - 1 :: ds[1..][i] == ds[i + 1] && ops[1..][i] == ops[i + 1];
    }
  }

  /** A pre-pass that was granted puts a claim on exactly the operations that planned one. */
  lemma {:induction false} GrantedClaims(w: World, g: Gateway, ds: seq<Decided>)
    requires Unclaimed(ds) && ReserveAll(w, g, ds).refusal.None?
    ensures var held := ReserveAll(w, g, ds).ds;
      forall i | 0 <= i < |ds| :: held[i].claim.Some? <==> ClaimPlan(ds[i].gates).Some?
    decreases |ds|
  {
    if ds != [] {
      var after := match ClaimPlan(ds[0].gates)
        case None => w
        case Some(plan) => ReserveClaim(w, g.setup, g.outside, plan).0;
      GrantedClaims(after, g, ds[1..]);
      var held := ReserveAll(w, g, ds).ds;
      assert held[1..] == ReserveAll(after, g, ds[1..]).ds;
      forall i | 1 <= i < |ds| ensures held[i].claim.Some? <==> ClaimPlan(ds[i].gates).Some? {
        assert held[i] == held[1..][i - 1] && ds[i] == ds[1..][i - 1];
      }
    }
  }

  /**
   * Which batches leak: those that commit while some operation with a planned claim lacks what its commit needs, the
   * outbox and a clock under freshness for a hold or an effect, a connector and a matching pin for the rest. Only a
   * hold that finds its duplicate in the queue can make another one leak.
   */
  lemma BatchLeaksExactly(w: World, g: Gateway, p: Party, ops: seq<Operation>)
    requires ops != [] && Conserved(w, {})
    ensures var (after, ds) := DecideAll(w, g, p, ops);
      var settled := Conserved(EnforceBatch(w, g, p, ops, Enforced).0, {});
      && (settled ==> Commits(after, g, ds) ==> PlaceableClaims(g, ops, ds))
      && (UnsearchedClaims(g, ops, ds) ==> (settled <==> (Commits(after, g, ds) ==> PlaceableClaims(g, ops, ds))))
  {
    BatchLeaksUnreached(w, g, p, ops, Enforced);
    var (after, ds) := DecideAll(w, g, p, ops);
    DecideAllConserves(w, g, p, ops, {});
    if Commits(after, g, ds) {
      var pass := ReserveAll(after, g, ds);
      ReserveAllKeepsVerdicts(after, g, ds);
      GrantedClaims(after, g, ds);
      KeptGuards(g, ops, ds, pass.ds);
      DanglingExactly(pass.world, g, p, Enforced, ops, pass.ds, NoStamps(|ds|));
    }
  }

  /** Taking the claims changes neither guard. */
  lemma KeptGuards(g: Gateway, ops: seq<Operation>, ds: seq<Decided>, held: seq<Decided>)
    requires |ops| == |ds| == |held| && AllCommittable(ds) && AllCommittable(held)
    requires forall i | 0 <= i < |ds| :: held[i] == ds[i].(claim := held[i].claim)
    requires forall i | 0 <= i < |ds| :: held[i].claim.Some? <==> ClaimPlan(ds[i].gates).Some?
    ensures UnsearchedClaims(g, ops, ds) <==>
            forall i | 0 <= i < |held| && held[i].claim.Some? :: Unsearched(g, ops[i].env, held[i])
    ensures PlaceableClaims(g, ops, ds) <==>
            forall i | 0 <= i < |held| && held[i].claim.Some? :: Placeable(g.setup, ops[i].env, held[i])
  {
    assert forall i | 0 <= i < |ds| :: Unsearched(g, ops[i].env, held[i]) <==> Unsearched(g, ops[i].env, ds[i]);
    assert forall i | 0 <= i < |ds| :: Placeable(g.setup, ops[i].env, held[i]) <==> Placeable(g.setup, ops[i].env, ds[i]);
  }
}
