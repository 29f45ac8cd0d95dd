/** Human release of a held row: crediting identities against its contracts, one call and over whole runs. */
module Release {
  import opened Vocabulary
  import opened Stores

  datatype ReleaseError = NotAwaiting | NoSuchContract | MustNameGate | SelfApproval

  datatype Released = Credited(row: Row) | NotReleased(error: ReleaseError)

  predicate IsApproval(gate: Gate) {
    gate == RequireApproval || gate == DualAuthorization
  }

  predicate HasApproval(cs: seq<ReleaseContract>) {
    exists c :: c in cs && IsApproval(c.gate)
  }

  predicate Names(cs: seq<ReleaseContract>, gate: Gate) {
    exists c :: c in cs && c.gate == gate
  }

  /** Which contracts a call is aimed at; a bare call takes the approval-shaped ones, or the only one there is. */
  predicate Targets(cs: seq<ReleaseContract>, gate: Option<Gate>, c: ReleaseContract) {
    match gate
    case Some(named) => c.gate == named
    case None =>
      if HasApproval(cs) then IsApproval(c.gate) else |cs| == 1 && c.gate == cs[0].gate
  }

  predicate Open(c: ReleaseContract, id: string) {
    !c.Satisfied() && id !in c.satisfiedBy
  }

  predicate Guards(c: ReleaseContract, id: string, actor: string) {
    (c.dualAuth || c.distinctFromActor) && id == actor
  }

  predicate Credits(cs: seq<ReleaseContract>, gate: Option<Gate>, c: ReleaseContract, id: string, actor: string) {
    Targets(cs, gate, c) && Open(c, id) && !Guards(c, id, actor)
  }

  predicate RefusesSelf(cs: seq<ReleaseContract>, gate: Option<Gate>, c: ReleaseContract, id: string, actor: string) {
    Targets(cs, gate, c) && Open(c, id) && Guards(c, id, actor)
  }

  function CreditOne(cs: seq<ReleaseContract>, gate: Option<Gate>, c: ReleaseContract, id: string, actor: string): ReleaseContract {
    if Credits(cs, gate, c, id, actor) then c.(satisfiedBy := c.satisfiedBy + [id]) else c
  }

  /** Every contract after the call, `cs` being all of the row's. */
  function CreditEach(all: seq<ReleaseContract>, cs: seq<ReleaseContract>, gate: Option<Gate>, id: string, actor: string)
    : (r: seq<ReleaseContract>)
    ensures |r| == |cs| && forall i | 0 <= i < |cs| :: r[i] == CreditOne(all, gate, cs[i], id, actor)
  {
    seq(|cs|, i requires 0 <= i < |cs| => CreditOne(all, gate, cs[i], id, actor))
  }

  predicate AllSatisfied(cs: seq<ReleaseContract>) {
    forall c | c in cs :: c.Satisfied()
  }

  predicate SomeCredited(cs: seq<ReleaseContract>, gate: Option<Gate>, id: string, actor: string) {
    exists c :: c in cs && Credits(cs, gate, c, id, actor)
  }

  predicate SomeRefusedSelf(cs: seq<ReleaseContract>, gate: Option<Gate>, id: string, actor: string) {
    exists c :: c in cs && RefusesSelf(cs, gate, c, id, actor)
  }

  /** One release call on a row that carries its contracts. */
  function Apply(row: Row, id: string, gate: Option<Gate>): Released {
    var cs, actor := row.releases, row.actor.id;
    if row.state != PendingApproval then NotReleased(NotAwaiting)
    else if gate.Some? && !Names(cs, gate.value) then NotReleased(NoSuchContract)
    else if gate.None? && !HasApproval(cs) && |cs| != 1 then NotReleased(MustNameGate)
    else if !SomeCredited(cs, gate, id, actor) && SomeRefusedSelf(cs, gate, id, actor) then NotReleased(SelfApproval)
    else
      var updated := CreditEach(cs, cs, gate, id, actor);
      Credited(row.(releases := updated, state := if AllSatisfied(updated) then Pending else PendingApproval))
  }

  /** The gates a call is aimed at; None when it has no unambiguous target. */
  method TargetGates(cs: seq<ReleaseContract>, gate: Option<Gate>) returns (targeted: Option<set<Gate>>)
    ensures targeted.None? <==> (gate.Some? && !Names(cs, gate.value)) || (gate.None? && !HasApproval(cs) && |cs| != 1)
    ensures targeted.Some? ==> forall c | c in cs :: c.gate in targeted.value <==> Targets(cs, gate, c)
  {
    if gate.Some? {
      return if Names(cs, gate.value) then Some({gate.value}) else None;
    }
    var approvals := set c | c in cs && IsApproval(c.gate) :: c.gate;
    if approvals != {} {
      var g :| g in approvals;
      return Some(approvals);
    }
    NoApproval(cs, approvals);
    return if |cs| == 1 then Some({cs[0].gate}) else None;
  }

  /** The pass over the contracts. */
  method CreditLoop(cs: seq<ReleaseContract>, targeted: set<Gate>, gate: Option<Gate>, id: string, actor: string)
    returns (updated: seq<ReleaseContract>, credited: bool, refusedSelf: bool)
    requires forall c | c in cs :: c.gate in targeted <==> Targets(cs, gate, c)
    ensures updated == CreditEach(cs, cs, gate, id, actor)
    ensures credited == SomeCredited(cs, gate, id, actor) && refusedSelf == SomeRefusedSelf(cs, gate, id, actor)
  {
    credited, refusedSelf := false, false;
    updated := [];
    for i := 0 to |cs|
      invariant |updated| == i
      invariant forall k | 0 <= k < i :: updated[k] == CreditOne(cs, gate, cs[k], id, actor)
      invariant credited <==> exists k :: 0 <= k < i && Credits(cs, gate, cs[k], id, actor)
      invariant refusedSelf <==> exists k :: 0 <= k < i && RefusesSelf(cs, gate, cs[k], id, actor)
    {
      var c := cs[i];
      assert c in cs;
      if c.gate !in targeted || c.Satisfied() || id in c.satisfiedBy {
        updated := updated + [c];
      } else if (c.dualAuth || c.distinctFromActor) && id == actor {
        refusedSelf := true;
        updated := updated + [c];
      } else {
        updated := updated + [c.(satisfiedBy := c.satisfiedBy + [id])];
        credited := true;
      }
    }
  }

  /** The call as it runs: the target set first, then one pass over the contracts. */
  method ApplyRelease(row: Row, id: string, gate: Option<Gate>) returns (r: Released)
    ensures r == Apply(row, id, gate)
  {
    if row.state != PendingApproval { return NotReleased(NotAwaiting); }
    var targeted := TargetGates(row.releases, gate);
    if targeted.None? { return NotReleased(if gate.Some? then NoSuchContract else MustNameGate); }
    var updated, credited, refusedSelf := CreditLoop(row.releases, targeted.value, gate, id, row.actor.id);
    if !credited && refusedSelf { return NotReleased(SelfApproval); }
    return Credited(row.(releases := updated, state := if AllSatisfied(updated) then Pending else PendingApproval));
  }

  lemma NoApproval(cs: seq<ReleaseContract>, targeted: set<Gate>)
    requires targeted == set c | c in cs && IsApproval(c.gate) :: c.gate
    ensures targeted == {} ==> !HasApproval(cs)
  {
    if HasApproval(cs) {
      var c :| c in cs && IsApproval(c.gate);
      assert c.gate in targeted;
    }
  }

  // ---- what is still missing ---------------------------------------------------------------------

  function Missing(c: ReleaseContract): nat {
    if c.Satisfied() then 0 else c.quorum - |c.satisfiedBy|
  }

  function TotalMissing(cs: seq<ReleaseContract>): nat {
    if cs == [] then 0 else Missing(cs[0]) + TotalMissing(cs[1..])
  }

  function CreditedCount(all: seq<ReleaseContract>, cs: seq<ReleaseContract>, gate: Option<Gate>, id: string, actor: string): nat {
    if cs == [] then 0
    else (if Credits(all, gate, cs[0], id, actor) then 1 else 0) + CreditedCount(all, cs[1..], gate, id, actor)
  }

  lemma {:induction false} CreditsSubtract(all: seq<ReleaseContract>, cs: seq<ReleaseContract>, gate: Option<Gate>,
                                           id: string, actor: string)
    ensures TotalMissing(CreditEach(all, cs, gate, id, actor)) + CreditedCount(all, cs, gate, id, actor) == TotalMissing(cs)
  {
    if cs != [] {
      CreditsSubtract(all, cs[1..], gate, id, actor);
      assert CreditEach(all, cs, gate, id, actor)[1..] == CreditEach(all, cs[1..], gate, id, actor);
    }
  }

  lemma {:induction false} CountedIsCredited(all: seq<ReleaseContract>, cs: seq<ReleaseContract>, gate: Option<Gate>,
                                             id: string, actor: string)
    ensures CreditedCount(all, cs, gate, id, actor) > 0 <==> exists c :: c in cs && Credits(all, gate, c, id, actor)
  {
    if cs != [] {
      CountedIsCredited(all, cs[1..], gate, id, actor);
      assert forall c :: c in cs <==> c == cs[0] || c in cs[1..];
    }
  }

  lemma {:induction false} NothingMissing(cs: seq<ReleaseContract>)
    ensures TotalMissing(cs) == 0 <==> AllSatisfied(cs)
  {
    if cs != [] {
      NothingMissing(cs[1..]);
      assert forall c :: c in cs <==> c == cs[0] || c in cs[1..];
    }
  }

  /** A call that credits anything brings the row strictly nearer; it is promoted exactly when nothing is missing. */
  lemma ReleaseProgress(row: Row, id: string, gate: Option<Gate>)
    requires Apply(row, id, gate).Credited?
    ensures var after := Apply(row, id, gate).row;
      && (if SomeCredited(row.releases, gate, id, row.actor.id)
          then TotalMissing(after.releases) < TotalMissing(row.releases)
          else after.releases == row.releases)
      && (after.state == Pending <==> TotalMissing(after.releases) == 0)
      && (after.state == Pending || after.state == PendingApproval)
  {
    var cs, actor := row.releases, row.actor.id;
    CreditsSubtract(cs, cs, gate, id, actor);
    CountedIsCredited(cs, cs, gate, id, actor);
    NothingMissing(Apply(row, id, gate).row.releases);
  }

  // ---- one call, contract by contract -----------------------------------------------------------------

  /** The call speaks to this contract: the gate it names, or for a bare call an approval or the only contract there is. */
  ghost predicate Reaches(cs: seq<ReleaseContract>, gate: Option<Gate>, c: ReleaseContract) {
    if gate.Some? then c.gate == gate.value else c.gate == RequireApproval || c.gate == DualAuthorization || |cs| == 1
  }

  ghost predicate Lacks(c: ReleaseContract, id: string) {
    |c.satisfiedBy| < c.quorum && id !in c.satisfiedBy
  }

  /** The contract never takes the acting principal's own word. */
  ghost predicate BarsOwn(row: Row, c: ReleaseContract, id: string) {
    id == row.actor.id && (c.dualAuth || c.distinctFromActor)
  }

  ghost predicate NothingReached(cs: seq<ReleaseContract>, gate: Option<Gate>) {
    forall c | c in cs :: !Reaches(cs, gate, c)
  }

  /** Every contract that still lacks this identity bars it as the actor's own, and one does. */
  ghost predicate OnlyOwnWord(row: Row, id: string, gate: Option<Gate>) {
    && (exists c :: c in row.releases && Reaches(row.releases, gate, c) && Lacks(c, id))
    && (forall c | c in row.releases && Reaches(row.releases, gate, c) && Lacks(c, id) :: BarsOwn(row, c, id))
  }

  lemma ReachedIsTargeted(cs: seq<ReleaseContract>, gate: Option<Gate>)
    ensures NothingReached(cs, gate) <==>
      (gate.Some? && !Names(cs, gate.value)) || (gate.None? && !HasApproval(cs) && |cs| != 1)
    ensures !NothingReached(cs, gate) ==> forall c | c in cs :: Reaches(cs, gate, c) <==> Targets(cs, gate, c)
  {
    if gate.None? && |cs| == 1 {
      assert cs[0] in cs && cs == [cs[0]];
    }
  }

  lemma OwnWordIsRefused(row: Row, id: string, gate: Option<Gate>)
    requires !NothingReached(row.releases, gate)
    ensures OnlyOwnWord(row, id, gate) <==>
      !SomeCredited(row.releases, gate, id, row.actor.id) && SomeRefusedSelf(row.releases, gate, id, row.actor.id)
  {
    var cs, actor := row.releases, row.actor.id;
    ReachedIsTargeted(cs, gate);
    assert forall c | c in cs && Reaches(cs, gate, c) && Lacks(c, id) ::
        Targets(cs, gate, c) && Open(c, id) && (BarsOwn(row, c, id) <==> Guards(c, id, actor));
    if c :| c in cs && RefusesSelf(cs, gate, c, id, actor) {
      assert Reaches(cs, gate, c) && Lacks(c, id);
    }
    if OnlyOwnWord(row, id, gate) {
      var c :| c in cs && Reaches(cs, gate, c) && Lacks(c, id);
      assert RefusesSelf(cs, gate, c, id, actor);
      forall d | d in cs ensures !Credits(cs, gate, d, id, actor) {
        assert Reaches(cs, gate, d) <==> Targets(cs, gate, d);
      }
    } else if !SomeCredited(cs, gate, id, actor) {
      forall d | d in cs && Reaches(cs, gate, d) && Lacks(d, id) ensures BarsOwn(row, d, id) {
        assert !Credits(cs, gate, d, id, actor);
      }
    }
  }

  /** A call is refused for one of four causes, each named; otherwise it is credited. */
  lemma RefusedExactly(row: Row, id: string, gate: Option<Gate>)
    ensures var r := Apply(row, id, gate);
      && (r == NotReleased(NotAwaiting) <==> row.state != PendingApproval)
      && (r == NotReleased(NoSuchContract) <==>
            row.state == PendingApproval && gate.Some? && NothingReached(row.releases, gate))
      && (r == NotReleased(MustNameGate) <==>
            row.state == PendingApproval && gate.None? && NothingReached(row.releases, gate))
      && (r == NotReleased(SelfApproval) <==>
            row.state == PendingApproval && !NothingReached(row.releases, gate) && OnlyOwnWord(row, id, gate))
  {
    ReachedIsTargeted(row.releases, gate);
    if !NothingReached(row.releases, gate) {
      OwnWordIsRefused(row, id, gate);
    }
  }

  /**
   * A credited call adds the identity to exactly the reached contracts that lack it and take its word, keeps all else,
   * and promotes the row exactly when every contract then has its quorum.
   */
  lemma CreditedExactly(row: Row, id: string, gate: Option<Gate>, i: nat)
    requires Apply(row, id, gate).Credited? && i < |row.releases|
    ensures var after := Apply(row, id, gate).row;
      && |after.releases| == |row.releases|
      && after.releases[i] == row.releases[i].(satisfiedBy := row.releases[i].satisfiedBy
           + if Reaches(row.releases, gate, row.releases[i]) && Lacks(row.releases[i], id) && !BarsOwn(row, row.releases[i], id)
             then [id] else [])
      && after == row.(releases := after.releases, state := after.state)
      && after.state == (if forall c | c in after.releases :: |c.satisfiedBy| >= c.quorum then Pending else PendingApproval)
  {
    var c := row.releases[i];
    assert c in row.releases && c == c.(satisfiedBy := c.satisfiedBy + []);
    ReachedIsTargeted(row.releases, gate);
  }

  /** A bare call beside an approval contract credits no check-driven one: that question belongs to another role. */
  lemma BareReleaseStaysWithApprovals(row: Row, id: string, i: nat)
    requires Apply(row, id, None).Credited? && i < |row.releases|
    requires HasApproval(row.releases) && !IsApproval(row.releases[i].gate)
    ensures Apply(row, id, None).row.releases[i] == row.releases[i]
  {
  }

  // ---- runs of release calls ------------------------------------------------------------------------

  datatype Call = Call(id: string, gate: Option<Gate>)

  /** A refused call leaves the row as it was. */
  function After(row: Row, call: Call): Row {
    var r := Apply(row, call.id, call.gate);
    if r.Credited? then r.row else row
  }

  function Run(row: Row, calls: seq<Call>): Row
    decreases |calls|
  {
    if calls == [] then row else Run(After(row, calls[0]), calls[1..])
  }

  /** One contract's own history: the identities that count, in order, until its quorum is reached. */
  function Alone(shape: seq<ReleaseContract>, c: ReleaseContract, calls: seq<Call>, actor: string): ReleaseContract
    decreases |calls|
  {
    if calls == [] then c
    else Alone(shape, CreditOne(shape, calls[0].gate, c, calls[0].id, actor), calls[1..], actor)
  }

  /** Two contract lists that differ at most in who has been credited. */
  ghost predicate SameShape(a: seq<ReleaseContract>, b: seq<ReleaseContract>) {
    |a| == |b| && forall i | 0 <= i < |a| :: a[i].gate == b[i].gate
  }

  lemma ShapeDecidesTargets(a: seq<ReleaseContract>, b: seq<ReleaseContract>, gate: Option<Gate>, c: ReleaseContract)
    requires SameShape(a, b)
    ensures Targets(a, gate, c) == Targets(b, gate, c)
    ensures forall g :: Names(a, g) == Names(b, g)
    ensures HasApproval(a) == HasApproval(b)
  {
    forall g ensures Names(a, g) == Names(b, g) {
      if Names(a, g) { var x :| x in a && x.gate == g; var i :| 0 <= i < |a| && a[i] == x; assert b[i] in b; }
      if Names(b, g) { var x :| x in b && x.gate == g; var i :| 0 <= i < |b| && b[i] == x; assert a[i] in a; }
    }
    assert HasApproval(a) <==> Names(a, RequireApproval) || Names(a, DualAuthorization);
    assert HasApproval(b) <==> Names(b, RequireApproval) || Names(b, DualAuthorization);
  }

  /** A call changes each contract as if it were alone, whether the row accepts the call or refuses it. */
  lemma AfterIsPointwise(row: Row, shape: seq<ReleaseContract>, call: Call)
    requires SameShape(shape, row.releases) && (row.state == PendingApproval || AllSatisfied(row.releases))
    ensures var after := After(row, call);
      && SameShape(shape, after.releases) && after.actor == row.actor
      && (after.state == PendingApproval || AllSatisfied(after.releases))
      && forall i | 0 <= i < |row.releases| ::
           after.releases[i] == CreditOne(shape, call.gate, row.releases[i], call.id, row.actor.id)
  {
    var cs, actor := row.releases, row.actor.id;
    forall i | 0 <= i < |cs|
      ensures After(row, call).releases[i] == CreditOne(shape, call.gate, cs[i], call.id, actor)
    {
      ShapeDecidesTargets(shape, cs, call.gate, cs[i]);
      assert cs[i] in cs;
    }
  }

  /**
   * The run of a held row is the runs of its contracts side by side: whatever calls arrive in whatever order, each
   * contract ends as its own history says, and the row's acceptance of a call never depends on another contract.
   */
  lemma {:induction false} RunDecomposes(row: Row, shape: seq<ReleaseContract>, calls: seq<Call>, i: nat)
    requires SameShape(shape, row.releases) && (row.state == PendingApproval || AllSatisfied(row.releases))
    requires i < |row.releases|
    ensures |Run(row, calls).releases| == |row.releases|
    ensures Run(row, calls).releases[i] == Alone(shape, row.releases[i], calls, row.actor.id)
    decreases |calls|
  {
    if calls != [] {
      AfterIsPointwise(row, shape, calls[0]);
      RunDecomposes(After(row, calls[0]), shape, calls[1..], i);
    }
  }

  ghost predicate NoDuplicates(ids: seq<string>) {
    forall i, j | 0 <= i < j < |ids| :: ids[i] != ids[j]
  }

  /** What a contract's credits keep: each identity once, never beyond the quorum, the actor never where guarded. */
  ghost predicate Proper(c: ReleaseContract, actor: string) {
    && NoDuplicates(c.satisfiedBy)
    && (c.satisfiedBy == [] || |c.satisfiedBy| <= c.quorum)
    && ((c.dualAuth || c.distinctFromActor) ==> actor !in c.satisfiedBy)
  }

  lemma {:induction false} AloneStaysProper(shape: seq<ReleaseContract>, c: ReleaseContract, calls: seq<Call>, actor: string)
    requires Proper(c, actor)
    ensures Proper(Alone(shape, c, calls, actor), actor)
    ensures c.satisfiedBy <= Alone(shape, c, calls, actor).satisfiedBy
    decreases |calls|
  {
    if calls != [] {
      AloneStaysProper(shape, CreditOne(shape, calls[0].gate, c, calls[0].id, actor), calls[1..], actor);
    }
  }

  ghost predicate Fresh(row: Row) {
    row.state == PendingApproval && forall c | c in row.releases :: c.satisfiedBy == []
  }

  /** The call has an unambiguous target among these contracts. */
  predicate Aimed(cs: seq<ReleaseContract>, call: Call) {
    if call.gate.Some? then Names(cs, call.gate.value) else HasApproval(cs) || |cs| == 1
  }

  ghost predicate SomeAimed(cs: seq<ReleaseContract>, calls: seq<Call>) {
    exists k :: 0 <= k < |calls| && Aimed(cs, calls[k])
  }

  /**
   * From a fresh held row, after any run: every contract proper, credits only appended, and the row pending exactly
   * when nothing is missing; a row whose quorums are all zero also takes a call with a target, which credits nobody.
   */
  lemma ReleaseSafety(row: Row, calls: seq<Call>)
    requires Fresh(row)
    ensures var after := Run(row, calls);
      && (forall c | c in after.releases :: Proper(c, row.actor.id))
      && (after.state == Pending <==>
            TotalMissing(after.releases) == 0 && (TotalMissing(row.releases) > 0 || SomeAimed(row.releases, calls)))
      && TotalMissing(after.releases) <= TotalMissing(row.releases)
  {
    var after := Run(row, calls);
    if TotalMissing(row.releases) > 0 {
      StateFollowsSum(row, calls);
    } else {
      NothingAsked(row, calls);
    }
    forall c | c in after.releases ensures Proper(c, row.actor.id) {
      var i :| 0 <= i < |after.releases| && after.releases[i] == c;
      LengthKept(row, calls);
      assert row.releases[i] in row.releases;
      RunDecomposes(row, row.releases, calls, i);
      AloneStaysProper(row.releases, row.releases[i], calls, row.actor.id);
    }
  }

  lemma {:induction false} LengthKept(row: Row, calls: seq<Call>)
    ensures |Run(row, calls).releases| == |row.releases|
    decreases |calls|
  {
    if calls != [] {
      LengthKept(After(row, calls[0]), calls[1..]);
    }
  }

  ghost predicate InStep(row: Row) {
    (row.state == PendingApproval && TotalMissing(row.releases) > 0) || (row.state == Pending && TotalMissing(row.releases) == 0)
  }

  lemma {:induction false} StateFollowsSum(row: Row, calls: seq<Call>)
    requires InStep(row)
    ensures InStep(Run(row, calls)) && TotalMissing(Run(row, calls).releases) <= TotalMissing(row.releases)
    decreases |calls|
  {
    if calls != [] {
      if Apply(row, calls[0].id, calls[0].gate).Credited? {
        ReleaseProgress(row, calls[0].id, calls[0].gate);
      }
      StateFollowsSum(After(row, calls[0]), calls[1..]);
    }
  }

  /** With nothing missing from the start, the first call that has a target promotes the row as it is. */
  lemma {:induction false} NothingAsked(row: Row, calls: seq<Call>)
    requires row.state == PendingApproval && TotalMissing(row.releases) == 0
    ensures Run(row, calls) == row.(state := if SomeAimed(row.releases, calls) then Pending else PendingApproval)
    decreases |calls|
  {
    NothingMissing(row.releases);
    if calls != [] {
      if Aimed(row.releases, calls[0]) {
        assert CreditEach(row.releases, row.releases, calls[0].gate, calls[0].id, row.actor.id) == row.releases;
        SettledStays(row.(state := Pending), calls[1..]);
      } else {
        NothingAsked(row, calls[1..]);
        assert forall k | 1 <= k < |calls| :: calls[k] == calls[1..][k - 1];
        assert forall k | 0 <= k < |calls| - 1 :: calls[1..][k] == calls[k + 1];
      }
    }
  }

  lemma {:induction false} SettledStays(row: Row, calls: seq<Call>)
    requires row.state != PendingApproval
    ensures Run(row, calls) == row
    decreases |calls|
  {
    if calls != [] {
      SettledStays(row, calls[1..]);
    }
  }

  /** A row is not promoted before every contract has its quorum of distinct identities, none of them a guarded actor. */
  lemma PromotionNeedsEveryQuorum(row: Row, calls: seq<Call>, i: nat)
    requires Fresh(row) && i < |row.releases|
    requires Run(row, calls).state == Pending
    ensures |Run(row, calls).releases| == |row.releases|
    ensures var c := Run(row, calls).releases[i];
      && |c.satisfiedBy| >= row.releases[i].quorum && NoDuplicates(c.satisfiedBy)
      && (row.releases[i].dualAuth || row.releases[i].distinctFromActor ==> row.actor.id !in c.satisfiedBy)
      && forall id | id in c.satisfiedBy ::
           exists k :: 0 <= k < |calls| && calls[k].id == id && Targets(row.releases, calls[k].gate, row.releases[i])
  {
    ReleaseSafety(row, calls);
    LengthKept(row, calls);
    RunDecomposes(row, row.releases, calls, i);
    var after := Run(row, calls);
    NothingMissing(after.releases);
    assert after.releases[i] in after.releases && row.releases[i] in row.releases;
    AloneKeepsTerms(row.releases, row.releases[i], calls, row.actor.id);
    forall id | id in after.releases[i].satisfiedBy
      ensures exists k :: 0 <= k < |calls| && calls[k].id == id && Targets(row.releases, calls[k].gate, row.releases[i])
    {
      CreditsComeFromCalls(row.releases, row.releases[i], calls, row.actor.id, id);
    }
  }

  lemma {:induction false} AloneKeepsTerms(shape: seq<ReleaseContract>, c: ReleaseContract, calls: seq<Call>, actor: string)
    ensures Alone(shape, c, calls, actor) == c.(satisfiedBy := Alone(shape, c, calls, actor).satisfiedBy)
    decreases |calls|
  {
    if calls != [] {
      AloneKeepsTerms(shape, CreditOne(shape, calls[0].gate, c, calls[0].id, actor), calls[1..], actor);
    }
  }

  lemma {:induction false} CreditsComeFromCalls(shape: seq<ReleaseContract>, c: ReleaseContract, calls: seq<Call>,
                                                actor: string, id: string)
    requires id in Alone(shape, c, calls, actor).satisfiedBy && id !in c.satisfiedBy
    ensures exists k :: 0 <= k < |calls| && calls[k].id == id && Targets(shape, calls[k].gate, c)
    decreases |calls|
  {
    if calls != [] {
      var next := CreditOne(shape, calls[0].gate, c, calls[0].id, actor);
      if id !in next.satisfiedBy {
        CreditsComeFromCalls(shape, next, calls[1..], actor, id);
        var k :| 0 <= k < |calls| - 1 && calls[1..][k].id == id && Targets(shape, calls[1..][k].gate, next);
        assert calls[k + 1].id == id && Targets(shape, calls[k + 1].gate, c);
      } else {
        assert calls[0].id == id && Targets(shape, calls[0].gate, c);
      }
    }
  }

  // ---- exactly when a row is promoted -------------------------------------------------------------------

  /** The identities a run offers a contract: aimed at it, and not a guarded actor. */
  ghost function Eligible(shape: seq<ReleaseContract>, c: ReleaseContract, calls: seq<Call>, actor: string): set<string> {
    set k | 0 <= k < |calls| && Targets(shape, calls[k].gate, c) && !Guards(c, calls[k].id, actor) :: calls[k].id
  }

  /** A contract still short of its quorum has credited every identity it was offered. */
  lemma {:induction false} ShortHasCreditedAll(shape: seq<ReleaseContract>, c: ReleaseContract, calls: seq<Call>, actor: string)
    requires !Alone(shape, c, calls, actor).Satisfied()
    ensures forall k | 0 <= k < |calls| && Targets(shape, calls[k].gate, c) && !Guards(c, calls[k].id, actor) ::
      calls[k].id in Alone(shape, c, calls, actor).satisfiedBy
    ensures c.satisfiedBy <= Alone(shape, c, calls, actor).satisfiedBy
    decreases |calls|
  {
    if calls != [] {
      var next := CreditOne(shape, calls[0].gate, c, calls[0].id, actor);
      ShortHasCreditedAll(shape, next, calls[1..], actor);
      AloneKeepsTerms(shape, next, calls[1..], actor);
      var last := Alone(shape, next, calls[1..], actor).satisfiedBy;
      assert next.satisfiedBy <= last;
      assert forall id | id in next.satisfiedBy :: id in last;
      forall k | 0 <= k < |calls| && Targets(shape, calls[k].gate, c) && !Guards(c, calls[k].id, actor)
        ensures calls[k].id in last
      {
        if k > 0 {
          assert calls[1..][k - 1] == calls[k];
        }
      }
    }
  }

  ghost function Members(ids: seq<string>): set<string> {
    set id | id in ids
  }

  lemma {:induction false} DistinctCount(ids: seq<string>)
    requires NoDuplicates(ids)
    ensures |Members(ids)| == |ids|
  {
    if ids != [] {
      var init, last := ids[..|ids| - 1], ids[|ids| - 1];
      DistinctCount(init);
      assert last !in init;
      assert Members(ids) == Members(init) + {last};
    }
  }

  lemma SubsetIsSmaller(a: set<string>, b: set<string>)
    requires a <= b
    ensures |a| <= |b|
  {
    assert b == a + (b - a);
  }

  /** A contract nobody has credited yet ends satisfied exactly when the run offers it a quorum of identities. */
  lemma SatisfiedExactly(shape: seq<ReleaseContract>, c: ReleaseContract, calls: seq<Call>, actor: string)
    requires c.satisfiedBy == []
    ensures Alone(shape, c, calls, actor).Satisfied() <==> |Eligible(shape, c, calls, actor)| >= c.quorum
  {
    var last, offered := Alone(shape, c, calls, actor), Eligible(shape, c, calls, actor);
    AloneStaysProper(shape, c, calls, actor);
    AloneKeepsTerms(shape, c, calls, actor);
    DistinctCount(last.satisfiedBy);
    if last.Satisfied() {
      forall id | id in Members(last.satisfiedBy) ensures id in offered {
        CreditsComeFromCalls(shape, c, calls, actor, id);
      }
      SubsetIsSmaller(Members(last.satisfiedBy), offered);
    } else {
      ShortHasCreditedAll(shape, c, calls, actor);
      forall id | id in offered ensures id in Members(last.satisfiedBy) {
      }
      SubsetIsSmaller(offered, Members(last.satisfiedBy));
    }
  }

  /**
   * Whatever the order of the calls, a fresh row is promoted exactly when every contract was offered its quorum; one
   * that asks for nobody still needs a call with a target.
   */
  lemma PromotedExactly(row: Row, calls: seq<Call>)
    requires Fresh(row)
    ensures Run(row, calls).state == Pending <==>
      && (TotalMissing(row.releases) > 0 || SomeAimed(row.releases, calls))
      && forall i | 0 <= i < |row.releases| ::
           |Eligible(row.releases, row.releases[i], calls, row.actor.id)| >= row.releases[i].quorum
  {
    var after := Run(row, calls);
    ReleaseSafety(row, calls);
    NothingMissing(after.releases);
    LengthKept(row, calls);
    forall i | 0 <= i < |row.releases|
      ensures after.releases[i] in after.releases
      ensures after.releases[i].Satisfied() <==>
        |Eligible(row.releases, row.releases[i], calls, row.actor.id)| >= row.releases[i].quorum
    {
      assert row.releases[i] in row.releases;
      RunDecomposes(row, row.releases, calls, i);
      SatisfiedExactly(row.releases, row.releases[i], calls, row.actor.id);
    }
  }
}
