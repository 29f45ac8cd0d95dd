/** Which batches strand a claim when holds are searched for in the queue, and a batch that does. */
module CollapsedClaims {
  import opened Vocabulary
  import opened Stores
  import opened Holds
  import opened Pipeline
  import opened Enforcement
  import opened Conservation
  import opened ReservationRuns
  import opened HoldDedupe
  import opened BatchLeak

  // ---- what the queue has been asked --------------------------------------------------

  /** An open row inside the window asks this question. */
  ghost predicate Asks(rows: seq<Row>, key: DedupeKey, now: int, window: int, text: Rendering) {
    exists i :: 0 <= i < |rows| && AskedBy(rows[i], key, now, window, text)
  }

  ghost predicate AskedBy(row: Row, key: DedupeKey, now: int, window: int, text: Rendering) {
    OpenHold(row) && Duplicates(row, key, now, window, text)
  }

  /** What a held operation asks; None for any other, and for a hold without a reason code. */
  function QuestionOf(g: Gateway, d: Decided): Option<DedupeKey> {
    if d.decision == Decision.Hold && d.resolved.Some?
    then HoldKey(g.deps.AgentName(), d.resolved.value, d.gates, g.setup.text) else None
  }

  ghost predicate Ticketed(w: World) {
    && (forall i | 0 <= i < |w.rows| :: w.rows[i].ticket < w.nextId)
    && (forall i, j | 0 <= i < j < |w.rows| :: w.rows[i].ticket != w.rows[j].ticket)
  }

  /** A deployment that searches within the window, at this time, with stores that all answer. */
  ghost predicate Searching(g: Gateway, env: RequestEnv, now: int, window: int) {
    Deployed(g, window) && 0 <= window && env.now == Some(now)
  }

  lemma SearchFinds(w: World, j: Job, d: Decided, now: int, window: int)
    requires d.resolved.Some? && Dependable(j, window) && j.env.now == Some(now)
    ensures
      var key := HoldKey(j.agent, d.resolved.value, d.gates, j.setup.text);
      var (listed, duplicate) := FindDuplicate(w, j, d);
      && listed.rows == w.rows && listed.nextId == w.nextId
      && (duplicate.Some? <==> key.Some? && Asks(w.rows, key.value, now, window, j.setup.text))
      && (duplicate.Some? ==> exists i :: 0 <= i < |w.rows| && OpenHold(w.rows[i]) && w.rows[i].ticket == duplicate.value)
  {
    var key := HoldKey(j.agent, d.resolved.value, d.gates, j.setup.text);
    if key.Some? {
      var held := HeldRows(w.rows);
      HeldRowsAre(w.rows);
      var found := FirstDuplicate(held, key.value, now, window, j.setup.text);
      if found.Some? {
        var i :| 0 <= i < |w.rows| && w.rows[i] == found.value;
        assert AskedBy(w.rows[i], key.value, now, window, j.setup.text);
      } else {
        forall i | 0 <= i < |w.rows| ensures !AskedBy(w.rows[i], key.value, now, window, j.setup.text) {
          assert w.rows[i] in w.rows;
        }
      }
    }
  }

  /** An open row that is found can be bumped. */
  lemma BumpAnswers(w: World, outside: Outside, ticket: nat)
    requires Ticketed(w) && outside.fault(w.calls) == Answers
    requires exists i :: 0 <= i < |w.rows| && OpenHold(w.rows[i]) && w.rows[i].ticket == ticket
    ensures var (w', ok) := BumpAttempts(w, outside, ticket);
      ok && SameButAttempts(w.rows, w'.rows) && w'.nextId == w.nextId
  {
    var i :| 0 <= i < |w.rows| && OpenHold(w.rows[i]) && w.rows[i].ticket == ticket;
    assert RowIndex(w.rows, ticket) == i;
  }

  // ---- what one commit adds ----------------------------------------------------------

  /** The rows a commit leaves: the same but for attempts, or one more. */
  ghost predicate Left(w: World, w': World, staged: Option<Row>) {
    && w.nextId <= w'.nextId
    && match staged
       case None => SameButAttempts(w.rows, w'.rows)
       case Some(row) => w'.rows == w.rows + [row] && w.nextId <= row.ticket < w'.nextId
  }

  lemma LeftAsks(w: World, w': World, staged: Option<Row>, key: DedupeKey, now: int, window: int, text: Rendering)
    requires Left(w, w', staged)
    ensures Asks(w'.rows, key, now, window, text) <==>
            Asks(w.rows, key, now, window, text) || (staged.Some? && AskedBy(staged.value, key, now, window, text))
  {
    match staged
    case None =>
      forall i | 0 <= i < |w.rows|
        ensures AskedBy(w'.rows[i], key, now, window, text) <==> AskedBy(w.rows[i], key, now, window, text)
      {
        assert w'.rows[i] == w.rows[i].(attempts := w'.rows[i].attempts);
      }
    case Some(row) =>
      assert w'.rows[|w.rows|] == row;
      assert forall i | 0 <= i < |w.rows| :: w'.rows[i] == w.rows[i];
  }

  lemma LeftTicketed(w: World, w': World, staged: Option<Row>)
    requires Ticketed(w) && Left(w, w', staged)
    ensures Ticketed(w')
  {
    if staged.Some? {
      assert w'.rows[|w.rows|] == staged.value;
      assert forall i | 0 <= i < |w.rows| :: w'.rows[i] == w.rows[i];
    } else {
      assert forall i | 0 <= i < |w.rows| :: w'.rows[i].ticket == w.rows[i].ticket;
    }
  }

  /** With its claim in hand, or none planned, a staging that is timed and answered leaves its row. */
  lemma StagingLeaves(w: World, j: Job, d: Decided, state: RowState, now: int, window: int) returns (row: Row)
    requires d.resolved.Some? && Dependable(j, window) && j.env.now == Some(now)
    requires d.claim.Some? || ClaimPlan(d.gates).None?
    ensures Left(w, StageRow(w, j, d, state).0, Some(row))
    ensures row.state == state && row.createdAt == now
    ensures RowKey(row, j.setup.text) == HoldKey(j.agent, d.resolved.value, d.gates, j.setup.text)
  {
    var expiry := StagingExpiry(j, d.resolved.value);
    var claim := ClaimOf(ClaimFor(w, j, d).1);
    row := RowFor(w, j, d, state, expiry, claim).(ticket := w.nextId);
    assert StageRow(w, j, d, state) == StageClaimed(w, j, d, state, expiry, claim);
  }

  lemma HoldLeaves(w: World, j: Job, d: Decided, now: int, window: int) returns (staged: Option<Row>)
    requires Ticketed(w) && d.resolved.Some? && Dependable(j, window) && j.env.now == Some(now)
    requires d.claim.Some? || ClaimPlan(d.gates).None?
    ensures var key := HoldKey(j.agent, d.resolved.value, d.gates, j.setup.text);
      && Left(w, CommitHold(w, j, d).0, staged)
      && (Collapses(w, j, d) <==> key.Some? && Asks(w.rows, key.value, now, window, j.setup.text))
      && (staged.None? <==> Collapses(w, j, d))
      && (staged.Some? ==>
            staged.value.state == PendingApproval && staged.value.createdAt == now && RowKey(staged.value, j.setup.text) == key)
  {
    var (listed, duplicate) := FindDuplicate(w, j, d);
    SearchFinds(w, j, d, now, window);
    if duplicate.Some? {
      BumpAnswers(listed, j.outside, duplicate.value);
      staged := None;
    } else {
      var row := StagingLeaves(listed, j, d, PendingApproval, now, window);
      staged := Some(row);
    }
  }

  /** One commit of a batch: it reaches its claim unless it collapses, and then its question has been asked. */
  lemma CommitAsks(w: World, g: Gateway, p: Party, env: RequestEnv, stamp: Option<Stamp>, d: Decided, now: int, window: int)
    requires Ticketed(w) && Searching(g, env, now, window) && Committable(d) && !Refused(d.decision)
    requires d.claim.Some? || ClaimPlan(d.gates).None?
    ensures var j := JobOf(g, p, env, Enforced, stamp);
      var w' := Commit(w, j, d).0;
      && Ticketed(w')
      && (ReachesClaim(w, j, d) <==>
            Placeable(g.setup, env, d)
            && !(QuestionOf(g, d).Some? && Asks(w.rows, QuestionOf(g, d).value, now, window, g.setup.text)))
      && forall key :: Asks(w'.rows, key, now, window, g.setup.text) <==>
                       Asks(w.rows, key, now, window, g.setup.text) || QuestionOf(g, d) == Some(key)
  {
    var j := JobOf(g, p, env, Enforced, stamp);
    var w' := Commit(w, j, d).0;
    var staged: Option<Row> := None;
    if d.decision == Decision.Hold {
      staged := HoldLeaves(w, j, d, now, window);
    } else if d.resolved.value.kind == Effect {
      var row := StagingLeaves(w, j, d, Pending, now, window);
      staged := Some(row);
    } else {
      InlineRows(w, j, d);
    }
    assert Left(w, w', staged);
    LeftTicketed(w, w', staged);
    forall key
      ensures Asks(w'.rows, key, now, window, g.setup.text) <==>
              Asks(w.rows, key, now, window, g.setup.text) || QuestionOf(g, d) == Some(key)
    {
      LeftAsks(w, w', staged, key, now, window, g.setup.text);
    }
  }

  // ---- the batch ------------------------------------------------------------------------

  /** The i-th operation's question was open in the queue, or was asked by an earlier operation. */
  ghost predicate Repeated(rows: seq<Row>, g: Gateway, ds: seq<Decided>, i: nat, now: int, window: int)
    requires i < |ds|
  {
    var question := QuestionOf(g, ds[i]);
    question.Some? &&
      (Asks(rows, question.value, now, window, g.setup.text)
       || exists k :: 0 <= k < i && QuestionOf(g, ds[k]) == question)
  }

  lemma RepeatedOnward(rows: seq<Row>, rows': seq<Row>, g: Gateway, ds: seq<Decided>, i: nat, now: int, window: int)
    requires 0 < i < |ds|
    requires forall key :: Asks(rows', key, now, window, g.setup.text) <==>
                           Asks(rows, key, now, window, g.setup.text) || QuestionOf(g, ds[0]) == Some(key)
    ensures Repeated(rows', g, ds[1..], i - 1, now, window) <==> Repeated(rows, g, ds, i, now, window)
  {
    var question := QuestionOf(g, ds[i]);
    assert ds[1..][i - 1] == ds[i];
    if k :| 0 <= k < i - 1 && QuestionOf(g, ds[1..][k]) == question {
      assert QuestionOf(g, ds[k + 1]) == question;
    }
    if k :| 0 < k < i && QuestionOf(g, ds[k]) == question {
      assert QuestionOf(g, ds[1..][k - 1]) == question;
    }
  }

  /** It gets its claim placed: its commit has what it needs, and no one asked its question before. */
  ghost predicate Placed(rows: seq<Row>, g: Gateway, ops: seq<Operation>, ds: seq<Decided>, i: nat, now: int, window: int)
    requires i < |ds| == |ops| && AllCommittable(ds)
  {
    Placeable(g.setup, ops[i].env, ds[i]) && !Repeated(rows, g, ds, i, now, window)
  }

  /** Every operation is timed alike, none was refused, and every planned claim is in hand. */
  ghost predicate Prepared(g: Gateway, ops: seq<Operation>, ds: seq<Decided>, now: int, window: int) {
    && |ops| == |ds| && AllCommittable(ds)
    && forall i | 0 <= i < |ds| ::
         && Searching(g, ops[i].env, now, window) && !Refused(ds[i].decision)
         && (ds[i].claim.Some? || ClaimPlan(ds[i].gates).None?)
  }

  ghost predicate ClaimsPlaced(rows: seq<Row>, g: Gateway, ops: seq<Operation>, ds: seq<Decided>, now: int, window: int)
    requires |ops| == |ds| && AllCommittable(ds)
  {
    forall i | 0 <= i < |ds| && ds[i].claim.Some? :: Placed(rows, g, ops, ds, i, now, window)
  }

  lemma PlacedOnward(rows: seq<Row>, rows': seq<Row>, g: Gateway, ops: seq<Operation>, ds: seq<Decided>, now: int, window: int)
    requires |ops| == |ds| && AllCommittable(ds) && ds != []
    requires forall key :: Asks(rows', key, now, window, g.setup.text) <==>
                           Asks(rows, key, now, window, g.setup.text) || QuestionOf(g, ds[0]) == Some(key)
    ensures ClaimsPlaced(rows, g, ops, ds, now, window) <==>
            (ds[0].claim.Some? ==> Placed(rows, g, ops, ds, 0, now, window))
            && ClaimsPlaced(rows', g, ops[1..], ds[1..], now, window)
  {
    forall i | 0 <= i < |ds| - 1
      ensures ds[1..][i] == ds[i + 1]
      ensures Placed(rows', g, ops[1..], ds[1..], i, now, window) <==> Placed(rows, g, ops, ds, i + 1, now, window)
    {
      RepeatedOnward(rows, rows', g, ds, i + 1, now, window);
    }
    if ClaimsPlaced(rows', g, ops[1..], ds[1..], now, window) {
      forall i | 1 <= i < |ds| && ds[i].claim.Some? ensures Placed(rows, g, ops, ds, i, now, window) {
        assert ds[1..][i - 1] == ds[i] && Placed(rows', g, ops[1..], ds[1..], i - 1, now, window);
      }
    }
  }

  lemma DanglingStep(w: World, g: Gateway, p: Party, ops: seq<Operation>, ds: seq<Decided>, stamps: seq<Option<Stamp>>,
                     j: Job, m: World)
    requires |ops| == |ds| == |stamps| && AllCommittable(ds) && ds != []
    requires j == JobOf(g, p, ops[0].env, Enforced, stamps[0]) && m == Commit(w, j, ds[0]).0
    ensures Dangling(w, g, p, Enforced, ops, ds, stamps) == {} <==>
            (ds[0].claim.Some? ==> ReachesClaim(w, j, ds[0]))
            && Dangling(m, g, p, Enforced, ops[1..], ds[1..], stamps[1..]) == {}
  {
    if ds[0].claim.Some? {
      assert ds[0].claim.value in ClaimsOf(ds[0]);
    }
  }

  lemma FirstPlaced(w: World, g: Gateway, p: Party, ops: seq<Operation>, ds: seq<Decided>, stamp: Option<Stamp>, now: int,
                    window: int)
    requires Ticketed(w) && Prepared(g, ops, ds, now, window) && ds != []
    ensures var j := JobOf(g, p, ops[0].env, Enforced, stamp);
      && (ReachesClaim(w, j, ds[0]) <==> Placed(w.rows, g, ops, ds, 0, now, window))
      && Ticketed(Commit(w, j, ds[0]).0)
      && forall key :: Asks(Commit(w, j, ds[0]).0.rows, key, now, window, g.setup.text) <==>
                       Asks(w.rows, key, now, window, g.setup.text) || QuestionOf(g, ds[0]) == Some(key)
  {
    CommitAsks(w, g, p, ops[0].env, stamp, ds[0], now, window);
  }

  lemma {:induction false} DanglingWhenSearched(w: World, g: Gateway, p: Party, ops: seq<Operation>, ds: seq<Decided>,
                                                stamps: seq<Option<Stamp>>, now: int, window: int)
    requires Ticketed(w) && Prepared(g, ops, ds, now, window) && |stamps| == |ds|
    ensures Dangling(w, g, p, Enforced, ops, ds, stamps) == {} <==> ClaimsPlaced(w.rows, g, ops, ds, now, window)
    decreases |ds|
  {
    if ds != [] {
      var j := JobOf(g, p, ops[0].env, Enforced, stamps[0]);
      var m := Commit(w, j, ds[0]).0;
      FirstPlaced(w, g, p, ops, ds, stamps[0], now, window);
      DanglingStep(w, g, p, ops, ds, stamps, j, m);
      DanglingWhenSearched(m, g, p, ops[1..], ds[1..], stamps[1..], now, window);
      PlacedOnward(w.rows, m.rows, g, ops, ds, now, window);
    }
  }

  /** Claims put on the operations change neither what they need nor what they ask. */
  lemma ClaimsAside(rows: seq<Row>, g: Gateway, ops: seq<Operation>, ds: seq<Decided>, held: seq<Decided>, i: nat, now: int,
                    window: int)
    requires |ops| == |ds| == |held| && AllCommittable(ds) && AllCommittable(held) && i < |ds|
    requires forall k | 0 <= k < |ds| :: held[k] == ds[k].(claim := held[k].claim)
    ensures Placed(rows, g, ops, held, i, now, window) <==> Placed(rows, g, ops, ds, i, now, window)
  {
    assert forall k | 0 <= k < |ds| :: QuestionOf(g, held[k]) == QuestionOf(g, ds[k]);
  }

  /** Every planned claim is placed. */
  ghost predicate AllPlaced(rows: seq<Row>, g: Gateway, ops: seq<Operation>, ds: seq<Decided>, now: int, window: int)
    requires |ops| == |ds| && AllCommittable(ds)
  {
    forall i | 0 <= i < |ds| && ClaimPlan(ds[i].gates).Some? :: Placed(rows, g, ops, ds, i, now, window)
  }

  /** The granted pre-pass puts exactly the planned claims in hand, so those are the ones the commits must place. */
  lemma PassPlaces(w: World, g: Gateway, p: Party, ops: seq<Operation>, ds: seq<Decided>, now: int, window: int)
    requires |ops| == |ds| && AllCommittable(ds) && Unclaimed(ds) && Commits(w, g, ds) && Ticketed(w)
    requires forall i | 0 <= i < |ops| :: Searching(g, ops[i].env, now, window)
    ensures var pass := ReserveAll(w, g, ds);
      Dangling(pass.world, g, p, Enforced, ops, pass.ds, NoStamps(|ds|)) == {} <==> AllPlaced(w.rows, g, ops, ds, now, window)
  {
    var pass := ReserveAll(w, g, ds);
    ReserveAllKeepsVerdicts(w, g, ds);
    ReserveAllRows(w, g, ds);
    GrantedClaims(w, g, ds);
    DanglingWhenSearched(pass.world, g, p, ops, pass.ds, NoStamps(|ds|), now, window);
    forall i | 0 <= i < |ds|
      ensures pass.ds[i].claim.Some? <==> ClaimPlan(ds[i].gates).Some?
      ensures Placed(w.rows, g, ops, pass.ds, i, now, window) <==> Placed(w.rows, g, ops, ds, i, now, window)
    {
      ClaimsAside(w.rows, g, ops, ds, pass.ds, i, now, window);
    }
  }

  /**
   * In a deployment that searches, with one time for the batch: it keeps the accounts unless it commits while some
   * operation with a planned claim lacks what its commit needs, or asks a question that is open in the queue inside the
   * window or that an earlier operation of the batch asks as well.
   */
  lemma SearchedBatchLeaksExactly(w: World, g: Gateway, p: Party, ops: seq<Operation>, now: int, window: int)
    requires ops != [] && Conserved(w, {}) && forall i | 0 <= i < |ops| :: Searching(g, ops[i].env, now, window)
    ensures var (after, ds) := DecideAll(w, g, p, ops);
      Conserved(EnforceBatch(w, g, p, ops, Enforced).0, {}) <==>
        (Commits(after, g, ds) ==> AllPlaced(w.rows, g, ops, ds, now, window))
  {
    BatchLeaksUnreached(w, g, p, ops, Enforced);
    var (after, ds) := DecideAll(w, g, p, ops);
    DecideAllConserves(w, g, p, ops, {});
    DecideAllRows(w, g, p, ops);
    if Commits(after, g, ds) {
      PassPlaces(after, g, p, ops, ds, now, window);
    }
  }

  // ---- a batch that does ----------------------------------------------------

  const REVIEW := GateResult(ContentCheck, Outcome.Hold, "review", "", None, None, [])

  const ASKED := ReleaseContract(ContentCheck, "", 1, false, false, ["clerk"], None, "deny", "review", None, [])

  function Number(data: Payload): string {
    if "po" in data && data["po"].Str? then data["po"].s else ""
  }

  function Reviewed(resolved: ResolvedAction): GateOutcome {
    var matched := MATCHED.(evidence := Some(
      Match("po", [Number(resolved.data)], 1, Some(ConsumePlan(Path("amount"), Transactional)))));
    GateOutcome(Outcome.Hold, [matched, REVIEW], Some(GateRule(ContentCheck)), [ASKED])
  }

  /** Every payment is put to the clerk; questions are deduped within the hour, and nothing fails. */
  function Desk(): Gateway {
    Gateway(
      Deps(
        (call: RawCall) => Some(PAYMENT.(data := call.data)),
        Some(Policy("agent", Closed, resolved => Authorization(true, AllowRule), resolved => Code)),
        "agent",
        Some((at: nat, resolved, actor, session, env, history) => Reviewed(resolved)),
        None, None, None,
        (name, target) => None),
      Setup(true, true, resolved => false, None, Some({"po"}), Some(3600),
            Rendering(value => "", evidence => ""), (scope, row, actor) => None, 0),
      Outside((n: nat) => Answers, (n: nat, resolved, scope) => Null, (n: nat) => 0))
  }

  function Order(number: string): Operation {
    Operation(RawCall("po", Some("pay"), map["po" := Str(number)]), RequestEnv(map[], map[], Some(100)))
  }

  function Question(number: string): Decided {
    var op := Order(number);
    var resolved := PAYMENT.(data := op.call.data);
    Decided(op.call, Some(resolved), Decision.Hold, GateRule(ContentCheck), NotExecuted, Reviewed(resolved).results, [ASKED],
            None, [], None, Code, None)
  }

  const ORDERS := [Order("4711"), Order("4712")]

  const QUESTIONS := [Question("4711"), Question("4712")]

  const BOTH_DECIDED := EMPTY.(calls := 2 * DECIDE_CALLS)

  lemma DeskDecides(p: Party, number: string, w: World)
    ensures DecideIn(w, Desk(), Order(number).call, p, Order(number).env) == (w.(calls := w.calls + DECIDE_CALLS), Question(number))
  {
    assert Decide(Desk().deps, Order(number).call, p, Order(number).env, w.calls, w.audit) == Question(number);
  }

  lemma DecideFirst(w: World, g: Gateway, p: Party, ops: seq<Operation>, m: World, d: Decided)
    requires ops != [] && (m, d) == DecideIn(w, g, ops[0].call, p, ops[0].env)
    ensures var rest := DecideAll(m, g, p, ops[1..]); DecideAll(w, g, p, ops) == (rest.0, [d] + rest.1)
  {
  }

  lemma DecideTwo(w: World, g: Gateway, p: Party, ops: seq<Operation>, m: World, done: World, ds: seq<Decided>)
    requires |ops| == |ds| == 2
    requires (m, ds[0]) == DecideIn(w, g, ops[0].call, p, ops[0].env)
    requires (done, ds[1]) == DecideIn(m, g, ops[1].call, p, ops[1].env)
    ensures DecideAll(w, g, p, ops) == (done, ds)
  {
    DecideFirst(w, g, p, ops, m, ds[0]);
    DecideFirst(m, g, p, ops[1..], done, ds[1]);
    assert ops[1..][1..] == [] && DecideAll(done, g, p, []) == (done, []);
    assert [ds[0]] + ([ds[1]] + []) == ds;
  }

  lemma DeskDecidesBoth(p: Party, g: Gateway, ops: seq<Operation>)
    requires g == Desk() && ops == ORDERS
    ensures DecideAll(EMPTY, g, p, ops) == (BOTH_DECIDED, QUESTIONS)
  {
    var first := EMPTY.(calls := DECIDE_CALLS);
    DeskDecides(p, "4711", EMPTY);
    DeskDecides(p, "4712", first);
    DecideTwo(EMPTY, g, p, ops, first, BOTH_DECIDED, QUESTIONS);
  }

  lemma DeskReserves(number: string, w: World, g: Gateway)
    requires LineAt(w, Key("po", number)) == Free && g == Desk()
    ensures ClaimPlan(Question(number).gates) == Some(("po", number, ConsumePlan(Path("amount"), Transactional)))
    ensures var (w', r) := ReserveClaim(w, g.setup, g.outside, ("po", number, ConsumePlan(Path("amount"), Transactional)));
      r.Held? && w'.lines == w.lines[Key("po", number) := Reserved(w.nextId)]
  {
  }

  lemma DeskReservesBoth(g: Gateway, ds: seq<Decided>)
    requires g == Desk() && ds == QUESTIONS
    ensures Commits(BOTH_DECIDED, g, ds)
  {
    var plan := ("po", "4711", ConsumePlan(Path("amount"), Transactional));
    DeskReserves("4711", BOTH_DECIDED, g);
    var first := ReserveClaim(BOTH_DECIDED, g.setup, g.outside, plan).0;
    DeskReserves("4712", first, g);
    assert ds[1..] == [Question("4712")] && ds[1..][1..] == [];
  }

  lemma OneQuestion(number: string, g: Gateway)
    requires g == Desk()
    ensures QuestionOf(g, Question(number))
         == Some(DedupeKey("agent", HoldQuestion("po", Some("pay"), [HoldFacet(ContentCheck, "review", "", [])])))
  {
    var d, text := Question(number), g.setup.text;
    assert Facets(d.resolved.value, [], text) == [];
    assert d.gates[1..] == [REVIEW] && [REVIEW][1..] == [];
    var facet := Facet(d.resolved.value, REVIEW, text);
    assert facet == HoldFacet(ContentCheck, "review", "", []);
    assert Facets(d.resolved.value, d.gates, text) == [facet];
    assert facet in [facet];
  }

  lemma EmptyIsConserved()
    ensures Conserved(EMPTY, {}) && EMPTY.rows == []
  {
  }

  lemma LeaksUnlessPlaced(w: World, g: Gateway, p: Party, ops: seq<Operation>, after: World, ds: seq<Decided>, now: int,
                          window: int)
    requires ops != [] && Conserved(w, {}) && forall i | 0 <= i < |ops| :: Searching(g, ops[i].env, now, window)
    requires (after, ds) == DecideAll(w, g, p, ops) && Commits(after, g, ds)
    requires !AllPlaced(w.rows, g, ops, ds, now, window)
    ensures !Conserved(EnforceBatch(w, g, p, ops, Enforced).0, {})
  {
    SearchedBatchLeaksExactly(w, g, p, ops, now, window);
  }

  /** Neither the matched order nor the amount is part of the question. */
  lemma OneForBoth(g: Gateway)
    requires g == Desk()
    ensures QuestionOf(g, Question("4711")).Some? && QuestionOf(g, Question("4711")) == QuestionOf(g, Question("4712"))
  {
    OneQuestion("4711", g);
    OneQuestion("4712", g);
  }

  lemma SecondNotPlaced(g: Gateway, ops: seq<Operation>, ds: seq<Decided>)
    requires |ops| == |ds| == 2 && AllCommittable(ds) && ClaimPlan(ds[1].gates).Some?
    requires QuestionOf(g, ds[1]).Some? && QuestionOf(g, ds[0]) == QuestionOf(g, ds[1])
    ensures !AllPlaced([], g, ops, ds, 100, 3600)
  {
    assert Repeated([], g, ds, 1, 100, 3600);
    assert !Placed([], g, ops, ds, 1, 100, 3600);
  }

  lemma DeskSearches(g: Gateway, ops: seq<Operation>)
    requires g == Desk() && ops == ORDERS
    ensures ops != [] && forall i | 0 <= i < |ops| :: Searching(g, ops[i].env, 100, 3600)
  {
  }

  /** The batch commits, and every commit has the stores and the clock it needs; only the second question is a repeat. */
  lemma DeskCommits(p: Party, g: Gateway, ops: seq<Operation>) returns (after: World, ds: seq<Decided>)
    requires g == Desk() && ops == ORDERS
    ensures (after, ds) == DecideAll(EMPTY, g, p, ops)
    ensures Commits(after, g, ds) && PlaceableClaims(g, ops, ds) && !AllPlaced([], g, ops, ds, 100, 3600)
  {
    after, ds := BOTH_DECIDED, QUESTIONS;
    DeskDecidesBoth(p, g, ops);
    DeskReservesBoth(g, ds);
    DeskReserves("4712", EMPTY, g);
    OneForBoth(g);
    SecondNotPlaced(g, ops, ds);
  }

  /**
   * Two payments that match different orders ask the clerk one question. No call fails, and the second hold is
   * collapsed into the first one's row: its claim is left behind.
   */
  lemma CollapsedClaimLeftBehind(p: Party, g: Gateway, ops: seq<Operation>, w: World, done: World)
    requires g == Desk() && ops == ORDERS && w == EMPTY && done == EnforceBatch(w, g, p, ops, Enforced).0
    ensures Conserved(w, {}) && !Conserved(done, {})
  {
    var after, ds := DeskCommits(p, g, ops);
    DeskSearches(g, ops);
    EmptyIsConserved();
    LeaksUnlessPlaced(w, g, p, ops, after, ds, 100, 3600);
  }
}
