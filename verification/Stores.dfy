/**
 * The injected stores as one value, and what each store call does to it.
 *
 * Every call to a dependency takes the next index of an arbitrary fault schedule, so a theorem about
 * these functions holds for every pattern of outages. A call may answer, fail before it took effect, or
 * take effect and lose its answer.
 */
module Stores {
  import opened Vocabulary

  datatype Fault = Answers | FailsBefore | LosesAnswer

  datatype Outside = Outside(
    fault: nat -> Fault,                              // how the n-th dependency call behaves
    output: (nat, ResolvedAction, Option<string>) -> Value,  // what a connector returns: rows as a list, or a receipt
    wall: nat -> int)                                 // the outbox's own clock

  // ---- obligation registries -------------------------------------------------

  datatype Key = Key(registry: string, ref: string)

  datatype Line = Free | Reserved(intent: nat) | Consumed(intent: nat)

  function KeyOf(claim: Claim): Key {
    Key(claim.registry, claim.ref)
  }

  // ---- the outbox ------------------------------------------------------------

  datatype RowState = PendingApproval | Pending | Dispatching | Done | Failed | Cancelled

  datatype Row = Row(
    ticket: nat,
    state: RowState,
    agent: string,
    resolved: ResolvedAction,
    actor: Actor,
    session: Session,
    gates: seq<GateResult>,
    releases: seq<ReleaseContract>,
    obligation: Option<Claim>,
    expiresAt: Option<int>,
    createdAt: int,
    attempts: nat,
    enforcement: Mode)

  datatype Execution = Execution(resolved: ResolvedAction, scope: Option<string>, actor: Actor)

  /**
   * `orphans`, `lost` and `discharged` are accounts no store keeps: the intents whose reserve, release or
   * consume call was not answered, the tickets whose staging took effect without an answer, and the tickets
   * whose reservation the dispatch worker has already consumed or released.
   */
  datatype World = World(
    rows: seq<Row>,
    lines: map<Key, Line>,
    executed: seq<Execution>,
    audit: seq<AuditRecord>,
    calls: nat,
    nextId: nat,
    orphans: set<nat>,
    lost: set<nat>,
    discharged: set<nat>)

  function LineAt(w: World, key: Key): Line {
    if key in w.lines then w.lines[key] else Free
  }

  function Tick(w: World): World {
    w.(calls := w.calls + 1)
  }

  function Write(w: World, record: AuditRecord): World {
    w.(audit := w.audit + [record])
  }

  // ---- reserve / release / consume: idempotent per (ref, intent) -------------

  /** The adapter's own transition; RESERVED exactly when the line ends up held by `intent`. */
  function ReserveLine(line: Line, intent: nat): (Line, bool) {
    match line
    case Free => (Reserved(intent), true)
    case Reserved(holder) => (line, holder == intent)
    case Consumed(_) => (line, false)
  }

  function ReleaseLine(line: Line, intent: nat): Line {
    if line == Reserved(intent) then Free else line
  }

  function ConsumeLine(line: Line, intent: nat): (Line, bool) {
    match line
    case Free => (Consumed(intent), true)
    case Reserved(holder) => if holder == intent then (Consumed(intent), true) else (line, false)
    case Consumed(spender) => (line, spender == intent)
  }

  /** How the adapter answered; `Unanswered` is an exception at the caller. */
  datatype Answer = Granted | Declined | Unanswered

  function AdapterReserve(w: World, outside: Outside, key: Key, intent: nat): (World, Answer) {
    var fault := outside.fault(w.calls);
    var (line, granted) := ReserveLine(LineAt(w, key), intent);
    if fault == FailsBefore then (Tick(w).(orphans := w.orphans + {intent}), Unanswered)
    else if fault == LosesAnswer then
      (Tick(w).(lines := w.lines[key := line], orphans := w.orphans + {intent}), Unanswered)
    else (Tick(w).(lines := w.lines[key := line]), if granted then Granted else Declined)
  }

  function AdapterRelease(w: World, outside: Outside, key: Key, intent: nat): World {
    var fault := outside.fault(w.calls);
    var line := ReleaseLine(LineAt(w, key), intent);
    if fault == FailsBefore then Tick(w).(orphans := w.orphans + {intent})
    else if fault == LosesAnswer then
      Tick(w).(lines := w.lines[key := line], orphans := w.orphans + {intent})
    else Tick(w).(lines := w.lines[key := line])
  }

  function AdapterConsume(w: World, outside: Outside, key: Key, intent: nat): (World, Answer) {
    var fault := outside.fault(w.calls);
    var (line, granted) := ConsumeLine(LineAt(w, key), intent);
    if fault == FailsBefore then (Tick(w).(orphans := w.orphans + {intent}), Unanswered)
    else if fault == LosesAnswer then
      (Tick(w).(lines := w.lines[key := line], orphans := w.orphans + {intent}), Unanswered)
    else (Tick(w).(lines := w.lines[key := line]), if granted then Granted else Declined)
  }

  // ---- the outbox ------------------------------------------------------------

  /** Persist a row under a fresh ticket; None when the call raised. */
  function Stage(w: World, outside: Outside, row: Row): (World, Option<nat>) {
    var fault := outside.fault(w.calls);
    var ticket := w.nextId;
    var staged := Tick(w).(rows := w.rows + [row.(ticket := ticket)], nextId := ticket + 1);
    if fault == FailsBefore then (Tick(w), None)
    else if fault == LosesAnswer then (staged.(lost := w.lost + {ticket}), None)
    else (staged, Some(ticket))
  }

  /** The held rows in stage order; None when the call raised. */
  function ListHeld(w: World, outside: Outside): (World, Option<seq<Row>>) {
    (Tick(w), if outside.fault(w.calls) == Answers then Some(HeldRows(w.rows)) else None)
  }

  function HeldRows(rows: seq<Row>): seq<Row> {
    if rows == [] then []
    else (if rows[0].state == PendingApproval then [rows[0]] else []) + HeldRows(rows[1..])
  }

  /** One more attempt on an open held row; false when the row has settled meanwhile or the call raised. */
  function BumpAttempts(w: World, outside: Outside, ticket: nat): (World, bool) {
    var fault := outside.fault(w.calls);
    var at := RowIndex(w.rows, ticket);
    if fault == FailsBefore || at == |w.rows| || w.rows[at].state != PendingApproval then (Tick(w), false)
    else
      var bumped := w.rows[at].(attempts := w.rows[at].attempts + 1);
      (Tick(w).(rows := w.rows[at := bumped]), fault == Answers)
  }

  /** The position of the row with this ticket, or the number of rows. */
  function RowIndex(rows: seq<Row>, ticket: nat): (at: nat)
    ensures at <= |rows|
    ensures at < |rows| ==> rows[at].ticket == ticket
    ensures at == |rows| ==> forall i | 0 <= i < |rows| :: rows[i].ticket != ticket
    ensures forall i | 0 <= i < at :: rows[i].ticket != ticket
  {
    if rows == [] then 0
    else if rows[0].ticket == ticket then 0
    else 1 + RowIndex(rows[1..], ticket)
  }

  // ---- the connector ---------------------------------------------------------

  /** Run a read or write; None when the call raised (its effect may have landed all the same). */
  function Execute(w: World, outside: Outside, run: Execution): (World, Option<Value>) {
    var fault := outside.fault(w.calls);
    var ran := Tick(w).(executed := w.executed + [run]);
    if fault == FailsBefore then (Tick(w), None)
    else if fault == LosesAnswer then (ran, None)
    else (ran, Some(outside.output(w.calls, run.resolved, run.scope)))
  }
}
