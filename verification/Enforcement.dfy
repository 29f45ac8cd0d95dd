/** The three entry paths over decided operations: one operation, an item fan-out, an atomic batch. */
module Enforcement {
  import opened Vocabulary
  import opened Stores
  import opened Holds
  import opened Pipeline

  // ---- translating a verdict for a deployment that does not enforce ------------

  /** A HALT from a matched order or an unreadable kill store, which no mode translates. */
  predicate KillCaused(rule: Rule) {
    rule.KillOrder? || rule == KillUnavailable
  }

  /** A dependency's failure rather than a judgement: the rules spelled with the suffix "-unavailable". */
  predicate UnavailableRule(rule: Rule) {
    match rule
    case ScopeUnavailable | KillUnavailable | FreshnessUnavailable | OutboxUnavailable
       | ReservationUnavailable | ConnectorUnavailable => true
    case _ => false
  }

  function Unscoped(d: Decided, cap: nat): Decided {
    match d.scope
    case None => d
    case Some(scope) =>
      var shown := if d.scopeApplied != [] then Some(d.scopeApplied[0]) else None;
      d.(scope := None, scopeApplied := [], measure := Some(ScopeMeasure(scope, shown, cap)))
  }

  datatype Advised = Advised(decided: Decided, advice: Option<Advice>, coverage: Coverage)

  function AdviceFor(d: Decided, text: Rendering): Advice {
    var question :=
      if d.decision == Decision.Hold && d.resolved.Some?
      then HoldIdentity(d.resolved.value, d.gates, text) else None;
    Advice(d.decision, d.rule, Classify(d.decision, d.rule, d.gates), question)
  }

  function AsAdvised(d: Decided, s: Setup): (r: Advised)
    ensures Committable(d) ==> Committable(r.decided)
  {
    if d.decision == Decision.Allow then Advised(Unscoped(d, s.measureCap), None, Judged)
    else if d.decision == Decision.Halt && KillCaused(d.rule) then Advised(d, None, Judged)
    else if d.resolved.None? then Advised(d, None, Unjudged)
    else
      var coverage := if UnavailableRule(d.rule) then Unjudged else Judged;
      var allowed := d.(decision := Decision.Allow, rule := AdvisoryRule, outcome := NotExecuted, releases := []);
      Advised(Unscoped(allowed, s.measureCap), Some(AdviceFor(d, s.text)), coverage)
  }

  // ---- the gateway and one attempt ---------------------------------------------

  datatype Gateway = Gateway(deps: Deps, setup: Setup, outside: Outside)

  datatype Attempt = Attempt(call: RawCall, party: Party, env: RequestEnv)

  function JobOf(g: Gateway, p: Party, env: RequestEnv, mode: Mode, stamp: Option<Stamp>): Job {
    Job(p, env, g.deps.AgentName(), g.deps.FailureModeOf(), g.setup, g.outside, mode, stamp)
  }

  /** The decide phase as it runs against the current world. */
  function DecideIn(w: World, g: Gateway, call: RawCall, p: Party, env: RequestEnv): (r: (World, Decided))
    ensures Committable(r.1)
  {
    DecideCommittable(g.deps, call, p, env, w.calls, w.audit);
    (w.(calls := w.calls + DECIDE_CALLS), Decide(g.deps, call, p, env, w.calls, w.audit))
  }

  lemma DecideCommittable(d: Deps, call: RawCall, p: Party, env: RequestEnv, at: nat, history: seq<AuditRecord>)
    ensures Committable(Decide(d, call, p, env, at, history))
    ensures Decide(d, call, p, env, at, history).claim.None?
    ensures Decide(d, call, p, env, at, history).call == call
    ensures Decide(d, call, p, env, at, history).resolved == d.resolve(call)
    ensures Decide(d, call, p, env, at, history).measure.None?
  {
  }

  /** Decide and commit the call as one unit. */
  function EnforceWhole(w: World, g: Gateway, a: Attempt, mode: Mode): (World, EvalResult) {
    var (after, decided) := DecideIn(w, g, a.call, a.party, a.env);
    if mode == Enforced then
      var (w', r) := Commit(after, JobOf(g, a.party, a.env, Enforced, None), decided);
      (w', WithFeedback(r, decided))
    else
      var advised := AsAdvised(decided, g.setup);
      var stamp := Stamp(advised.advice, advised.coverage, None, None);
      var (w', r) := Commit(after, JobOf(g, a.party, a.env, Advisory, Some(stamp)), advised.decided);
      (w', WithFeedback(r, advised.decided))
  }

  function Enforce(w: World, g: Gateway, a: Attempt, mode: Mode): (World, EvalResult) {
    match ItemsDeclaration(g.deps, a.call)
    case None => EnforceWhole(w, g, a, mode)
    case Some(def) => EnforcePerItem(w, g, a, def, mode)
  }

  // ---- item-bearing actions --------------------------------------------------------

  /** The declared items of a call with at least two of them. */
  function ItemsDeclaration(d: Deps, call: RawCall): (def: Option<ItemsDef>)
    ensures def.Some? ==> |ItemValues(call, def.value)| >= 2
  {
    match d.resolve(call)
    case None => None
    case Some(resolved) =>
      if resolved.items.None? || !resolved.items.value.independent then None
      else if |ItemValues(call, resolved.items.value)| < 2 then None
      else resolved.items
  }

  function ItemValues(call: RawCall, def: ItemsDef): seq<Value> {
    if def.field in call.data && call.data[def.field].List? then call.data[def.field].items else []
  }

  function ItemName(value: Value, def: ItemsDef, text: Rendering): string {
    if def.key != "" && value.Rec? then
      if def.key in value.fields then text.show(value.fields[def.key]) else ""
    else text.show(value)
  }

  function WithItems(data: Payload, def: ItemsDef, values: seq<Value>): Payload {
    data[def.field := List(values)]
  }

  function ItemCall(call: RawCall, def: ItemsDef, values: seq<Value>): RawCall {
    call.(data := WithItems(call.data, def, values))
  }

  predicate AllCommittable(ds: seq<Decided>) {
    forall i | 0 <= i < |ds| :: Committable(ds[i])
  }

  predicate ItemsCommittable(items: seq<Advised>) {
    forall i | 0 <= i < |items| :: Committable(items[i].decided)
  }

  /** Decide every item, in order. */
  function DecideItems(w: World, g: Gateway, a: Attempt, def: ItemsDef, values: seq<Value>): (r: (World, seq<Decided>))
    ensures |r.1| == |values| && AllCommittable(r.1)
    decreases |values|
  {
    if values == [] then (w, [])
    else
      var (after, first) := DecideIn(w, g, ItemCall(a.call, def, [values[0]]), a.party, a.env);
      var (done, rest) := DecideItems(after, g, a, def, values[1..]);
      (done, [first] + rest)
  }

  function Translate(ds: seq<Decided>, s: Setup, mode: Mode): (r: seq<Advised>)
    ensures |r| == |ds|
    ensures forall i | 0 <= i < |ds| :: r[i] == TranslateOne(ds[i], s, mode)
    ensures AllCommittable(ds) ==> ItemsCommittable(r)
  {
    seq(|ds|, i requires 0 <= i < |ds| => TranslateOne(ds[i], s, mode))
  }

  function TranslateOne(d: Decided, s: Setup, mode: Mode): Advised {
    if mode == Advisory then AsAdvised(d, s) else Advised(d, None, Judged)
  }

  function StampFor(mode: Mode, advised: Advised): Option<Stamp> {
    if mode == Advisory then Some(Stamp(advised.advice, advised.coverage, None, None)) else None
  }

  /** Refuse or hold one item on its own; an allowed one waits for the merged call. */
  function SettleItem(w: World, g: Gateway, a: Attempt, mode: Mode, item: Advised): (World, Option<EvalResult>)
    requires Committable(item.decided)
  {
    var d := item.decided;
    var j := JobOf(g, a.party, a.env, mode, StampFor(mode, item));
    if Refused(d.decision) then
      var (w', r) := Finish(w, j, d, Close(d.decision, d.rule, d.outcome));
      (w', Some(r))
    else if d.decision == Decision.Hold then
      var (w', r) := Commit(w, j, d);
      (w', Some(WithFeedback(r, d)))
    else (w, None)
  }

  function VerdictOf(name: string, d: Decided, settled: Option<EvalResult>): ItemVerdict {
    match settled
    case None => ItemVerdict(name, Decision.Allow, d.rule, Reason(NoCode, None), None)
    case Some(r) => ItemVerdict(name, r.decision, r.rule, r.reason, r.ticket)
  }

  function SettleItems(w: World, g: Gateway, a: Attempt, mode: Mode, names: seq<string>, items: seq<Advised>)
    : (r: (World, seq<ItemVerdict>))
    requires |names| == |items| && ItemsCommittable(items)
    ensures |r.1| == |items|
    ensures forall i | 0 <= i < |items| :: r.1[i].item == names[i]
    decreases |items|
  {
    if items == [] then (w, [])
    else
      var (after, settled) := SettleItem(w, g, a, mode, items[0]);
      var (done, rest) := SettleItems(after, g, a, mode, names[1..], items[1..]);
      (done, [VerdictOf(names[0], items[0].decided, settled)] + rest)
  }

  predicate IsAllowed(item: Advised) {
    item.decided.decision == Decision.Allow
  }

  /** The values of the allowed items, in order. */
  function AllowedValues(values: seq<Value>, items: seq<Advised>): seq<Value>
    requires |values| == |items|
  {
    if items == [] then []
    else (if IsAllowed(items[0]) then [values[0]] else []) + AllowedValues(values[1..], items[1..])
  }

  function AllowedNames(names: seq<string>, items: seq<Advised>): seq<string>
    requires |names| == |items|
  {
    if items == [] then []
    else (if IsAllowed(items[0]) then [names[0]] else []) + AllowedNames(names[1..], items[1..])
  }

  function FirstAllowed(items: seq<Advised>): (r: Option<Advised>)
    ensures r.Some? ==> r.value in items && IsAllowed(r.value)
    ensures r.None? ==> forall i | 0 <= i < |items| :: !IsAllowed(items[i])
  {
    if items == [] then None
    else if IsAllowed(items[0]) then Some(items[0])
    else FirstAllowed(items[1..])
  }

  /** Prefer an allowed item enforcement would have allowed too; under enforcement that is the first one. */
  function Template(items: seq<Advised>): (r: Option<Advised>)
    ensures r.Some? ==> r.value in items && IsAllowed(r.value)
    ensures r.None? ==> forall i | 0 <= i < |items| :: !IsAllowed(items[i])
  {
    var undiverged := FirstAllowed(Undiverged(items));
    if undiverged.Some? then undiverged else FirstAllowed(items)
  }

  function Undiverged(items: seq<Advised>): (r: seq<Advised>)
    ensures forall item | item in r :: item in items && item.advice.None?
  {
    if items == [] then []
    else (if items[0].advice.None? then [items[0]] else []) + Undiverged(items[1..])
  }

  function MergedDecided(template: Decided, call: RawCall, def: ItemsDef, subset: seq<Value>): Decided {
    template.(
      call := ItemCall(call, def, subset),
      resolved := if template.resolved.None? then None
                  else Some(template.resolved.value.(data := WithItems(template.resolved.value.data, def, subset))))
  }

  /** HALT outranks DENY outranks HOLD; ALLOW only when every verdict is. */
  function Worst(decisions: seq<Decision>): Decision {
    if Decision.Halt in decisions then Decision.Halt
    else if Decision.Deny in decisions then Decision.Deny
    else if Decision.Hold in decisions then Decision.Hold
    else Decision.Allow
  }

  function DecisionsOf(verdicts: seq<ItemVerdict>): (r: seq<Decision>)
    ensures |r| == |verdicts| && forall i | 0 <= i < |r| :: r[i] == verdicts[i].decision
  {
    seq(|verdicts|, i requires 0 <= i < |verdicts| => verdicts[i].decision)
  }

  /** The divergent allowed items, each with its advice and coverage. */
  function Divergent(names: seq<string>, items: seq<Advised>): seq<ItemAdviceEntry>
    requires |names| == |items|
  {
    if items == [] then []
    else
      (if IsAllowed(items[0]) && items[0].advice.Some?
       then [ItemAdviceEntry(names[0], items[0].advice.value, items[0].coverage)] else [])
      + Divergent(names[1..], items[1..])
  }

  function WorstEntry(entries: seq<ItemAdviceEntry>, worst: Decision): Option<Advice> {
    if entries == [] then None
    else if entries[0].advice.decision == worst then Some(entries[0].advice)
    else WorstEntry(entries[1..], worst)
  }

  function AdvisedDecisions(entries: seq<ItemAdviceEntry>): seq<Decision> {
    seq(|entries|, i requires 0 <= i < |entries| => entries[i].advice.decision)
  }

  predicate SomeUnjudged(items: seq<Advised>) {
    exists i :: 0 <= i < |items| && IsAllowed(items[i]) && items[i].coverage == Unjudged
  }

  /** The stamp of the one record an advised item-bearing call writes. */
  function CallStamp(mode: Mode, names: seq<string>, items: seq<Advised>): Option<Stamp>
    requires |names| == |items|
  {
    if mode == Enforced then None
    else
      var entries := Divergent(names, items);
      var coverage := if SomeUnjudged(items) then Unjudged else Judged;
      if entries == [] then Some(Stamp(None, coverage, None, None))
      else
        var allowed := |AllowedNames(names, items)|;
        Some(Stamp(WorstEntry(entries, Worst(AdvisedDecisions(entries))), coverage, None,
                   Some(ItemAdvice(allowed - |entries|, |entries|, entries))))
  }

  /** Apply the allowed subset as one call. */
  function CommitMerged(w: World, g: Gateway, a: Attempt, def: ItemsDef, mode: Mode,
                        names: seq<string>, values: seq<Value>, items: seq<Advised>): (World, Option<EvalResult>)
    requires |names| == |values| == |items| && ItemsCommittable(items)
  {
    match Template(items)
    case None => (w, None)
    case Some(template) =>
      var merged := MergedDecided(template.decided, a.call, def, AllowedValues(values, items));
      var j := JobOf(g, a.party, a.env, mode, CallStamp(mode, names, items));
      var (w', r) := Commit(w, j, merged);
      (w', Some(WithFeedback(r, template.decided)))
  }

  /** Items keep their own verdict; the allowed ones take the merged call's answer. */
  function Reconcile(verdicts: seq<ItemVerdict>, merged: Option<EvalResult>, mode: Mode): (r: seq<ItemVerdict>)
    ensures |r| == |verdicts|
    ensures forall i | 0 <= i < |r| :: r[i] == ReconcileOne(verdicts[i], merged, mode)
  {
    seq(|verdicts|, i requires 0 <= i < |verdicts| => ReconcileOne(verdicts[i], merged, mode))
  }

  function ReconcileOne(v: ItemVerdict, merged: Option<EvalResult>, mode: Mode): ItemVerdict {
    if merged.None? || v.decision != Decision.Allow then v
    else if merged.value.decision != Decision.Allow then
      ItemVerdict(v.item, merged.value.decision, merged.value.rule, merged.value.reason,
                  merged.value.ticket)
    else if mode == Advisory then v.(rule := merged.value.rule)
    else v
  }

  function FirstWith(verdicts: seq<ItemVerdict>, decision: Decision): Option<ItemVerdict> {
    if verdicts == [] then None
    else if verdicts[0].decision == decision then Some(verdicts[0])
    else FirstWith(verdicts[1..], decision)
  }

  function Envelope(verdicts: seq<ItemVerdict>, applied: seq<string>, merged: Option<EvalResult>, feedback: Feedback): EvalResult {
    var overall := Worst(DecisionsOf(verdicts));
    var worst := if overall == Decision.Allow then None else FirstWith(verdicts, overall);
    EvalResult(
      overall,
      if worst.Some? then worst.value.rule else if merged.Some? then merged.value.rule else AllowRule,
      if merged.Some? then merged.value.gates else [],
      if worst.Some? then worst.value.reason else Reason(NoCode, None),
      if merged.Some? then merged.value.feedback else feedback,
      if merged.Some? then merged.value.ticket else None,
      if merged.Some? then merged.value.output else None,
      if merged.Some? then merged.value.scopeApplied else [],
      verdicts,
      applied)
  }

  predicate OverCeiling(def: ItemsDef, values: seq<Value>) {
    def.maxItems.Some? && |values| > def.maxItems.value
  }

  function EnforcePerItem(w: World, g: Gateway, a: Attempt, def: ItemsDef, mode: Mode): (World, EvalResult)
    requires |ItemValues(a.call, def)| >= 2
  {
    var values := ItemValues(a.call, def);
    if OverCeiling(def, values) then EnforceOverCeiling(w, g, a, mode)
    else FanOut(w, g, a, def, values, mode)
  }

  function EnforceOverCeiling(w: World, g: Gateway, a: Attempt, mode: Mode): (World, EvalResult) {
    if mode == Enforced then
      var refusal := Verdict(a.call, None, Decision.Deny, ItemsOverCeiling);
      Finish(w, JobOf(g, a.party, a.env, Enforced, None), refusal,
               Close(Decision.Deny, ItemsOverCeiling, NotExecuted))
    else
      var (after, whole) := DecideIn(w, g, a.call, a.party, a.env);
      var forwarded := AsAdvised(whole, g.setup);
      var j := JobOf(g, a.party, a.env, Advisory, Some(CeilingStamp(forwarded)));
      var (w', r) := Commit(after, j, forwarded.decided);
      (w', WithFeedback(r, forwarded.decided))
  }

  /** What the record of a forwarded over-ceiling call advises: the ceiling refusal, unless it was refused anyway. */
  function CeilingStamp(forwarded: Advised): Stamp {
    if forwarded.decided.decision == Decision.Allow then
      var reason := Classify(Decision.Deny, ItemsOverCeiling, []);
      Stamp(Some(Advice(Decision.Deny, ItemsOverCeiling, reason, None)), Unjudged, None, None)
    else Stamp(None, forwarded.coverage, None, None)
  }

  function ItemNames(values: seq<Value>, def: ItemsDef, text: Rendering): (r: seq<string>)
    ensures |r| == |values| && forall i | 0 <= i < |r| :: r[i] == ItemName(values[i], def, text)
  {
    seq(|values|, i requires 0 <= i < |values| => ItemName(values[i], def, text))
  }

  function FanOut(w: World, g: Gateway, a: Attempt, def: ItemsDef, values: seq<Value>, mode: Mode): (World, EvalResult)
    requires values != []
  {
    var names := ItemNames(values, def, g.setup.text);
    var (decidedIn, ds) := DecideItems(w, g, a, def, values);
    var items := Translate(ds, g.setup, mode);
    var (settledIn, verdicts) := SettleItems(decidedIn, g, a, mode, names, items);
    var (done, merged) := CommitMerged(settledIn, g, a, def, mode, names, values, items);
    var applied :=
      if merged.Some? && merged.value.decision == Decision.Allow then AllowedNames(names, items) else [];
    (done, Envelope(Reconcile(verdicts, merged, mode), applied, merged, items[0].decided.feedback))
  }

  // ---- batches ----------------------------------------------------------------------

  datatype Operation = Operation(call: RawCall, env: RequestEnv)

  function DecideAll(w: World, g: Gateway, p: Party, ops: seq<Operation>): (r: (World, seq<Decided>))
    ensures |r.1| == |ops| && AllCommittable(r.1)
    decreases |ops|
  {
    if ops == [] then (w, [])
    else
      var (after, first) := DecideIn(w, g, ops[0].call, p, ops[0].env);
      var (done, rest) := DecideAll(after, g, p, ops[1..]);
      (done, [first] + rest)
  }

  /** The index of the first DENY or HALT, or the length. */
  function FirstRefusal(ds: seq<Decided>): (at: nat)
    ensures at <= |ds|
    ensures at < |ds| ==> Refused(ds[at].decision)
    ensures forall i | 0 <= i < at :: !Refused(ds[i].decision)
  {
    if ds == [] || Refused(ds[0].decision) then 0 else 1 + FirstRefusal(ds[1..])
  }

  function FirstKill(ds: seq<Decided>): (at: nat)
    ensures at <= |ds|
    ensures at < |ds| ==> ds[at].decision == Decision.Halt && KillCaused(ds[at].rule)
    ensures forall i | 0 <= i < at :: !(ds[i].decision == Decision.Halt && KillCaused(ds[i].rule))
  {
    if ds == [] || (ds[0].decision == Decision.Halt && KillCaused(ds[0].rule)) then 0
    else 1 + FirstKill(ds[1..])
  }

  /** How each operation of a refused batch is recorded. */
  function BatchClosing(d: Decided): Closing {
    if Refused(d.decision) then Close(d.decision, d.rule, d.outcome)
    else Close(d.decision, d.rule, BatchRefused)
  }

  /** Record the whole refused batch; `reservedOut` is the operation whose reservation was refused, if any. */
  function RefuseAll(w: World, g: Gateway, p: Party, ops: seq<Operation>, ds: seq<Decided>,
                     stamp: Option<Stamp>, closings: seq<Closing>): (r: (World, seq<EvalResult>))
    requires |ops| == |ds| == |closings|
    ensures |r.1| == |ds|
    decreases |ds|
  {
    if ds == [] then (w, [])
    else
      var (after, first) := Finish(w, JobOf(g, p, ops[0].env, Enforced, stamp), ds[0], closings[0]);
      var (done, rest) := RefuseAll(after, g, p, ops[1..], ds[1..], stamp, closings[1..]);
      (done, [WithFeedback(first, ds[0])] + rest)
  }

  function RefusalClosings(ds: seq<Decided>): (r: seq<Closing>)
    ensures |r| == |ds| && forall i | 0 <= i < |r| :: r[i] == BatchClosing(ds[i])
  {
    seq(|ds|, i requires 0 <= i < |ds| => BatchClosing(ds[i]))
  }

  function ReservationClosings(ds: seq<Decided>, failing: nat, rule: Rule): (r: seq<Closing>)
    ensures |r| == |ds|
    ensures forall i | 0 <= i < |r| ::
      r[i] == if i == failing then Close(Decision.Deny, rule, NotExecuted)
              else Close(ds[i].decision, ds[i].rule, BatchRefused)
  {
    seq(|ds|, i requires 0 <= i < |ds| =>
      if i == failing then Close(Decision.Deny, rule, NotExecuted)
      else Close(ds[i].decision, ds[i].rule, BatchRefused))
  }

  datatype PrePass = PrePass(
    world: World,
    ds: seq<Decided>,              // with the claims taken so far put on them
    refusal: Option<Rule>)       // the rule of the refused reservation

  /** Reserve for every operation in order, stopping at the first refusal; `|ds|` of the result tells where. */
  function ReserveAll(w: World, g: Gateway, ds: seq<Decided>): (r: PrePass)
    ensures |r.ds| <= |ds|
    ensures r.refusal.None? ==> |r.ds| == |ds|
    ensures r.refusal.Some? ==> |r.ds| < |ds|
    ensures AllCommittable(ds) ==> AllCommittable(r.ds)
    decreases |ds|
  {
    if ds == [] then PrePass(w, [], None)
    else
      match ClaimPlan(ds[0].gates)
      case None =>
        var rest := ReserveAll(w, g, ds[1..]);
        rest.(ds := [ds[0]] + rest.ds)
      case Some(plan) =>
        var (after, reservation) := ReserveClaim(w, g.setup, g.outside, plan);
        if reservation.Rejected? then PrePass(after, [], Some(reservation.rule))
        else
          var rest := ReserveAll(after, g, ds[1..]);
          rest.(ds := [ds[0].(claim := Some(reservation.claim))] + rest.ds)
  }

  /** Give back every reservation the pre-pass took, in order. */
  function ReleaseAll(w: World, g: Gateway, ds: seq<Decided>): World
    decreases |ds|
  {
    if ds == [] then w
    else ReleaseAll(ReleaseClaim(w, g.setup, g.outside, ds[0].claim), g, ds[1..])
  }

  /** Commit every operation in submission order. */
  function CommitAll(w: World, g: Gateway, p: Party, mode: Mode, ops: seq<Operation>, ds: seq<Decided>,
                     stamps: seq<Option<Stamp>>): (r: (World, seq<EvalResult>))
    requires |ops| == |ds| == |stamps|
    requires AllCommittable(ds)
    ensures |r.1| == |ds|
    decreases |ds|
  {
    if ds == [] then (w, [])
    else
      var (after, first) := Commit(w, JobOf(g, p, ops[0].env, mode, stamps[0]), ds[0]);
      var (done, rest) := CommitAll(after, g, p, mode, ops[1..], ds[1..], stamps[1..]);
      (done, [WithFeedback(first, ds[0])] + rest)
  }

  function FirstFailed(results: seq<EvalResult>): (at: nat)
    ensures at <= |results|
    ensures at < |results| ==> Refused(results[at].decision)
    ensures forall i | 0 <= i < at :: !Refused(results[i].decision)
  {
    if results == [] || Refused(results[0].decision) then 0 else 1 + FirstFailed(results[1..])
  }

  function Summary(results: seq<EvalResult>): BatchResult {
    var failed := FirstFailed(results);
    if failed < |results| then BatchResult(results[failed].decision, Some(failed), results)
    else if exists r :: r in results && r.decision == Decision.Hold then BatchResult(Decision.Hold, None, results)
    else BatchResult(Decision.Allow, None, results)
  }

  function EnforceBatch(w: World, g: Gateway, p: Party, ops: seq<Operation>, mode: Mode): (World, BatchResult)
    requires ops != []
  {
    var (after, ds) := DecideAll(w, g, p, ops);
    if mode == Advisory then AdviseBatch(after, g, p, ops, ds)
    else if FirstRefusal(ds) < |ds| then RefuseBatch(after, g, p, ops, ds, FirstRefusal(ds), None)
    else CommitBatch(after, g, p, ops, ds)
  }

  function RefuseBatch(w: World, g: Gateway, p: Party, ops: seq<Operation>, ds: seq<Decided>, failing: nat,
                       stamp: Option<Stamp>): (World, BatchResult)
    requires |ops| == |ds| && failing < |ds|
  {
    var (done, results) := RefuseAll(w, g, p, ops, ds, stamp, RefusalClosings(ds));
    (done, BatchResult(ds[failing].decision, Some(failing), results))
  }

  function NoStamps(n: nat): (r: seq<Option<Stamp>>)
    ensures |r| == n && forall i | 0 <= i < n :: r[i] == None
  {
    seq(n, i => None)
  }

  function CommitBatch(w: World, g: Gateway, p: Party, ops: seq<Operation>, ds: seq<Decided>): (World, BatchResult)
    requires |ops| == |ds| && AllCommittable(ds)
  {
    var pass := ReserveAll(w, g, ds);
    if pass.refusal.Some? then
      var released := ReleaseAll(pass.world, g, pass.ds);
      var failing := |pass.ds|;
      var held := pass.ds + ds[failing..];
      var (done, results) :=
        RefuseAll(released, g, p, ops, held, None, ReservationClosings(held, failing, pass.refusal.value));
      (done, BatchResult(Decision.Deny, Some(failing), results))
    else
      var (done, results) := CommitAll(pass.world, g, p, Enforced, ops, pass.ds, NoStamps(|ds|));
      (done, Summary(results))
  }

  // ---- an advisory batch ---------------------------------------------------------------

  function AdviseBatch(w: World, g: Gateway, p: Party, ops: seq<Operation>, ds: seq<Decided>): (World, BatchResult)
    requires |ops| == |ds| && AllCommittable(ds)
  {
    var killed := FirstKill(ds);
    if killed < |ds| then RefuseBatch(w, g, p, ops, ds, killed, Some(Stamp(None, Judged, None, None)))
    else
      var failing := FirstRefusal(ds);
      var note := if failing < |ds| then Some(BatchAdvice(failing, ds[failing].decision)) else None;
      var items := Translate(ds, g.setup, Advisory);
      var translated := seq(|ds|, i requires 0 <= i < |ds| => items[i].decided);
      var stamps := seq(|ds|, i requires 0 <= i < |ds| =>
        Some(Stamp(items[i].advice, items[i].coverage, note, None)));
      var (done, results) := CommitAll(w, g, p, Advisory, ops, translated, stamps);
      (done, Summary(results))
  }
}
