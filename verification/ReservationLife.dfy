/** The staged rows' later life, and reservation safety over whole runs. */
module ReservationLife {
  import opened Vocabulary
  import opened Stores
  import opened Pipeline
  import opened Enforcement
  import opened Conservation
  import opened ReservationRuns

  // ---- the staged rows' later life -------------------------------------------------------

  /** What releases, the dispatch worker and its sweeps do to one staged row. */
  datatype Life = Move(ticket: nat, to: RowState) | Settle(ticket: nat) | Sweep(ticket: nat)

  predicate Legal(from: RowState, to: RowState) {
    || (from == PendingApproval && (to == Pending || to == Cancelled))
    || (from == Pending && (to == Dispatching || to == Cancelled))
    || (from == Dispatching && (to == Failed || to == Cancelled))
  }

  function WithState(w: World, at: nat, to: RowState): World
    requires at < |w.rows|
  {
    w.(rows := w.rows[at := w.rows[at].(state := to)])
  }

  /** The record a settled row writes: the spending of its claim, if it has one. */
  function SettleRecord(row: Row, consumption: Option<Consumption>): AuditRecord {
    AuditRecord(
      Subject(row.agent, row.actor.id, RunKey(row.session), Some(row.resolved.kind), row.resolved.resource,
              row.resolved.action, row.resolved.data),
      Finding(Decision.Allow, AllowRule, Reason(NoCode, None), row.gates, [], Succeeded, None, consumption, None),
      Label(row.enforcement, None, Judged, None, None))
  }

  /** Without an adapter the call cannot be made, and the line is left to its registry's own expiry. */
  function WorkerConsume(w: World, g: Gateway, claim: Option<Claim>): (World, Option<Consumption>) {
    var (after, note) := ConsumeClaim(w, g.setup, g.outside, claim);
    (NoteMissing(after, g, claim), note)
  }

  function WorkerRelease(w: World, g: Gateway, claim: Option<Claim>): World {
    NoteMissing(ReleaseClaim(w, g.setup, g.outside, claim), g, claim)
  }

  function NoteMissing(w: World, g: Gateway, claim: Option<Claim>): World {
    if claim.Some? && (g.setup.adapters.None? || claim.value.registry !in g.setup.adapters.value)
    then w.(orphans := w.orphans + {claim.value.intent})
    else w
  }

  function Discharge(w: World, at: nat, to: RowState): World
    requires at < |w.rows|
  {
    WithState(w, at, to).(discharged := w.discharged + {w.rows[at].ticket})
  }

  /** One life step; a row already discharged is past its dispatch. */
  function Later(w: World, g: Gateway, step: Life): World {
    var at := RowIndex(w.rows, step.ticket);
    if at == |w.rows| then w
    else
      var row := w.rows[at];
      match step
      case Move(_, to) => if Legal(row.state, to) then WithState(w, at, to) else w
      case Settle(_) =>
        if row.state != Dispatching || row.ticket in w.discharged then w
        else
          var (spent, consumption) := WorkerConsume(Discharge(w, at, Done), g, row.obligation);
          Write(spent, SettleRecord(row, consumption))
      case Sweep(_) =>
        if (row.state != Cancelled && row.state != Failed) || row.ticket in w.discharged then w
        else WorkerRelease(Discharge(w, at, row.state), g, row.obligation)
  }

  // ---- settling keeps the accounts ----------------------------------------------------------

  /** `w'` differs from `w` in one row's state and discharge and, at most, in what its claim did to its line. */
  ghost predicate RowSettled(w: World, w': World, at: nat) {
    && at < |w.rows| && |w'.rows| == |w.rows| && w.rows[at].ticket !in w.discharged
    && (forall i | 0 <= i < |w.rows| ::
          w'.rows[i].ticket == w.rows[i].ticket && w'.rows[i].obligation == w.rows[i].obligation)
    && w'.discharged == w.discharged + {w.rows[at].ticket}
    && w'.lost == w.lost && w'.audit == w.audit && w'.nextId == w.nextId
    && if w.rows[at].obligation.None? then
         w'.orphans == w.orphans && forall key :: LineAt(w', key) == LineAt(w, key)
       else
         var c := w.rows[at].obligation.value;
         var line, line' := LineAt(w, KeyOf(c)), LineAt(w', KeyOf(c));
         && (forall key | key != KeyOf(c) :: LineAt(w', key) == LineAt(w, key))
         && (w'.orphans == w.orphans || w'.orphans == w.orphans + {c.intent})
         && (line' == line || ((line == Free || line == Reserved(c.intent)) && (line' == Free || line' == Consumed(c.intent))))
         && (line == Reserved(c.intent) && line' == line ==> c.intent in w'.orphans)
  }

  lemma SettledConserves(w: World, w': World, at: nat, hand: set<Claim>)
    requires Conserved(w, hand) && RowSettled(w, w', at)
    ensures Conserved(w', hand)
  {
    SettledLive(w, w', at, hand);
    SettledOwned(w, w', at, hand);
    SettledSpent(w, w', at, hand);
    SettledDistinct(w, w', at, hand);
  }

  lemma SettledDistinct(w: World, w': World, at: nat, hand: set<Claim>)
    requires Conserved(w, hand) && RowSettled(w, w', at)
    ensures Distinct(w', hand) && Apart(w', hand)
  {
    assert forall i :: HasClaim(w', i) <==> HasClaim(w, i);
    assert forall i | HasClaim(w, i) :: ClaimAt(w', i) == ClaimAt(w, i);
    assert forall i :: Keeps(w', i) ==> Keeps(w, i);
  }

  lemma SettledSpent(w: World, w': World, at: nat, hand: set<Claim>)
    requires Conserved(w, hand) && RowSettled(w, w', at)
    ensures SpentOnce(w')
  {
  }

  lemma SettledOwned(w: World, w': World, at: nat, hand: set<Claim>)
    requires Conserved(w, hand) && RowSettled(w, w', at)
    ensures Owned(w', hand)
  {
    assert forall i | HasClaim(w, i) :: ClaimAt(w', i) == ClaimAt(w, i);
    assert forall i :: Keeps(w', i) <==> Keeps(w, i) && i != at;
    forall key | LineAt(w', key).Reserved?
      ensures var n := LineAt(w', key).intent;
        n < w'.nextId && (n in w'.orphans || InHand(hand, key, n) || OnRow(w', key, n))
    {
      assert LineAt(w, key) == LineAt(w', key);
      var n := LineAt(w, key).intent;
      if OnRow(w, key, n) {
        var i :| Keeps(w, i) && KeyOf(ClaimAt(w, i)) == key && ClaimAt(w, i).intent == n;
        if i != at { assert Keeps(w', i); }
      }
    }
  }

  lemma SettledLive(w: World, w': World, at: nat, hand: set<Claim>)
    requires Conserved(w, hand) && RowSettled(w, w', at)
    ensures Live(w', hand)
  {
    assert forall i :: HasClaim(w', i) <==> HasClaim(w, i);
    assert forall i | HasClaim(w, i) :: ClaimAt(w', i) == ClaimAt(w, i);
    assert forall i :: Keeps(w', i) <==> Keeps(w, i) && i != at;
    if HasClaim(w, at) {
      var c := ClaimAt(w, at);
      forall e | e in hand ensures e.intent != c.intent && (KeyOf(e) == KeyOf(c) ==> LineAt(w', KeyOf(c)) == LineAt(w, KeyOf(c))) {
        assert LineAt(w, KeyOf(e)) == Reserved(e.intent);
      }
      forall i | Keeps(w, i) && i != at
        ensures ClaimAt(w, i).intent != c.intent
        ensures KeyOf(ClaimAt(w, i)) == KeyOf(c) ==> LineAt(w', KeyOf(c)) == LineAt(w, KeyOf(c))
      {
        assert LineAt(w, KeyOf(ClaimAt(w, i))) == Reserved(ClaimAt(w, i).intent);
      }
    }
  }

  lemma ReleaseSettles(w: World, g: Gateway, at: nat, to: RowState)
    requires at < |w.rows| && w.rows[at].ticket !in w.discharged
    ensures RowSettled(w, WorkerRelease(Discharge(w, at, to), g, w.rows[at].obligation), at)
  {
  }

  lemma ConsumeSettles(w: World, g: Gateway, at: nat, to: RowState)
    requires at < |w.rows| && w.rows[at].ticket !in w.discharged
    ensures var (spent, note) := WorkerConsume(Discharge(w, at, to), g, w.rows[at].obligation);
      && RowSettled(w, spent, at)
      && (note.Some? && note.value.state == ClaimConsumed ==>
            && w.rows[at].obligation == Some(note.value.claim)
            && LineAt(spent, KeyOf(note.value.claim)) == Consumed(note.value.claim.intent)
            && (LineAt(w, KeyOf(note.value.claim)) == Free
                || LineAt(w, KeyOf(note.value.claim)).Reserved?
                || LineAt(w, KeyOf(note.value.claim)) == Consumed(note.value.claim.intent)))
  {
  }

  lemma LaterConserves(w: World, g: Gateway, step: Life, hand: set<Claim>)
    requires Conserved(w, hand)
    ensures Conserved(Later(w, g, step), hand)
  {
    var at := RowIndex(w.rows, step.ticket);
    if at < |w.rows| {
      var row := w.rows[at];
      match step
      case Move(_, to) => if Legal(row.state, to) { RowsMoved(w, WithState(w, at, to), hand); }
      case Settle(_) => if row.state == Dispatching && row.ticket !in w.discharged { SettleConserves(w, g, at, hand); }
      case Sweep(_) =>
        if (row.state == Cancelled || row.state == Failed) && row.ticket !in w.discharged {
          SweepConserves(w, g, at, hand);
        }
    }
  }

  lemma SweepConserves(w: World, g: Gateway, at: nat, hand: set<Claim>)
    requires Conserved(w, hand) && at < |w.rows| && w.rows[at].ticket !in w.discharged
    ensures Conserved(WorkerRelease(Discharge(w, at, w.rows[at].state), g, w.rows[at].obligation), hand)
  {
    ReleaseSettles(w, g, at, w.rows[at].state);
    SettledConserves(w, WorkerRelease(Discharge(w, at, w.rows[at].state), g, w.rows[at].obligation), at, hand);
  }

  lemma SettleConserves(w: World, g: Gateway, at: nat, hand: set<Claim>)
    requires Conserved(w, hand) && at < |w.rows| && w.rows[at].ticket !in w.discharged
    ensures
      var (spent, consumption) := WorkerConsume(Discharge(w, at, Done), g, w.rows[at].obligation);
      Conserved(Write(spent, SettleRecord(w.rows[at], consumption)), hand)
  {
    var (spent, note) := WorkerConsume(Discharge(w, at, Done), g, w.rows[at].obligation);
    ConsumeSettles(w, g, at, Done);
    SettledConserves(w, spent, at, hand);
    SettleRecordConserves(w, spent, note, at, hand);
  }

  /** The settling record may report the line consumed: no earlier record did. */
  lemma SettleRecordConserves(w: World, spent: World, note: Option<Consumption>, at: nat, hand: set<Claim>)
    requires Conserved(w, hand) && Conserved(spent, hand) && at < |w.rows| && w.rows[at].ticket !in w.discharged
    requires spent.audit == w.audit
    requires note.Some? && note.value.state == ClaimConsumed ==>
      && w.rows[at].obligation == Some(note.value.claim)
      && LineAt(spent, KeyOf(note.value.claim)) == Consumed(note.value.claim.intent)
      && (LineAt(w, KeyOf(note.value.claim)).Consumed? ==>
            LineAt(w, KeyOf(note.value.claim)) == Consumed(note.value.claim.intent))
    ensures Conserved(Write(spent, SettleRecord(w.rows[at], note)), hand)
  {
    if note.Some? && note.value.state == ClaimConsumed {
      var key := KeyOf(note.value.claim);
      assert HasClaim(w, at) && ClaimAt(w, at) == note.value.claim;
      assert !LineAt(w, key).Consumed?;
      assert Unspent(spent, key);
    }
    RecordAppended(spent, Write(spent, SettleRecord(w.rows[at], note)), hand);
  }

  // ---- whole runs --------------------------------------------------------------------------------

  datatype Step =
    | Call(attempt: Attempt, mode: Mode)
    | Batch(party: Party, ops: seq<Operation>, mode: Mode)
    | OfRow(life: Life)

  function Apply(w: World, g: Gateway, step: Step): World {
    match step
    case Call(a, mode) => Enforce(w, g, a, mode).0
    case Batch(p, ops, mode) => if ops == [] then w else EnforceBatch(w, g, p, ops, mode).0
    case OfRow(life) => Later(w, g, life)
  }

  function Run(w: World, g: Gateway, steps: seq<Step>): World
    decreases |steps|
  {
    if steps == [] then w else Run(Apply(w, g, steps[0]), g, steps[1..])
  }

  ghost function StepDangling(w: World, g: Gateway, step: Step): set<Claim> {
    if step.Batch? && step.ops != [] then BatchDangling(w, g, step.party, step.ops, step.mode) else {}
  }

  ghost function RunDangling(w: World, g: Gateway, steps: seq<Step>): set<Claim>
    decreases |steps|
  {
    if steps == [] then {}
    else StepDangling(w, g, steps[0]) + RunDangling(Apply(w, g, steps[0]), g, steps[1..])
  }

  lemma StepConserves(w: World, g: Gateway, step: Step, hand: set<Claim>) returns (hand': set<Claim>)
    requires Conserved(w, hand) && Backed(g.setup, hand)
    ensures hand' == hand + StepDangling(w, g, step)
    ensures Conserved(Apply(w, g, step), hand') && Backed(g.setup, hand')
  {
    hand' := hand + StepDangling(w, g, step);
    match step
    case Call(a, mode) =>
      assert hand' == hand;
      EnforceConserves(w, g, a, mode, hand);
    case Batch(p, ops, mode) =>
      if ops == [] {
        assert hand' == hand;
      } else {
        BatchConserves(w, g, p, ops, mode, hand);
      }
    case OfRow(life) =>
      assert hand' == hand;
      LaterConserves(w, g, life, hand);
  }

  /** Over any run, what is reserved beyond the rows' and the unanswered calls' is what batches left dangling. */
  lemma {:induction false} RunConserves(w: World, g: Gateway, steps: seq<Step>, hand: set<Claim>)
    returns (hand': set<Claim>)
    requires Conserved(w, hand) && Backed(g.setup, hand)
    ensures hand' == hand + RunDangling(w, g, steps)
    ensures Conserved(Run(w, g, steps), hand')
    decreases |steps|
  {
    if steps == [] {
      hand' := hand;
    } else {
      var more := StepConserves(w, g, steps[0], hand);
      hand' := RunConserves(Apply(w, g, steps[0]), g, steps[1..], more);
      UnionIsAssociative(hand, StepDangling(w, g, steps[0]), RunDangling(Apply(w, g, steps[0]), g, steps[1..]));
    }
  }

  /** Before anything ran: no rows, no records, no line reserved. */
  ghost predicate Initial(w: World) {
    && w.rows == [] && w.audit == [] && w.orphans == {} && w.lost == {} && w.discharged == {}
    && forall key :: !LineAt(w, key).Reserved?
  }

  ghost predicate AllWired(g: Gateway, steps: seq<Step>) {
    forall i | 0 <= i < |steps| && steps[i].Batch? && steps[i].mode == Enforced :: Wired(g.setup, steps[i].ops)
  }

  lemma {:induction false} WiredRunDanglesNone(w: World, g: Gateway, steps: seq<Step>)
    requires AllWired(g, steps)
    ensures RunDangling(w, g, steps) == {}
    decreases |steps|
  {
    if steps != [] {
      assert AllWired(g, steps[1..]) by {
        assert forall i | 0 <= i < |steps| - 1 :: steps[1..][i] == steps[i + 1];
      }
      WiredRunDanglesNone(Apply(w, g, steps[0]), g, steps[1..]);
      if steps[0].Batch? && steps[0].ops != [] && steps[0].mode == Enforced {
        WiredBatchConserves(w, g, steps[0].party, steps[0].ops, steps[0].mode);
      }
    }
  }

  /**
   * After any run of calls, batches and row life steps whose enforced batches are wired: every reserved line
   * is on exactly one row still answering for it, or its adapter call went unanswered; and no line is
   * reported consumed twice.
   */
  lemma ReservationSafety(w: World, g: Gateway, steps: seq<Step>, key: Key)
    requires Initial(w) && AllWired(g, steps)
    ensures var w' := Run(w, g, steps);
      && (LineAt(w', key).Reserved? && LineAt(w', key).intent !in w'.orphans ==>
            exists i :: (
              && Keeps(w', i) && KeyOf(ClaimAt(w', i)) == key && ClaimAt(w', i).intent == LineAt(w', key).intent
              && forall j | Keeps(w', j) && KeyOf(ClaimAt(w', j)) == key :: j == i))
      && SpentOnce(w')
  {
    assert Conserved(w, {});
    var left := RunConserves(w, g, steps, {});
    WiredRunDanglesNone(w, g, steps);
    assert left == {};
    var w' := Run(w, g, steps);
    if LineAt(w', key).Reserved? && LineAt(w', key).intent !in w'.orphans {
      ReservedMeansHeld(w', key);
    }
  }
}
