# Stonefold: a verified model of the gateway

Stonefold decides every action an agent attempts, stages or executes what it allowed, and audits all of it. This
project models its decision kernel in Dafny and proves what the kernel promises: nothing happens without a record, no
reservation is left behind or spent twice, a batch is all or nothing, an item-bearing call is partitioned exactly, an
advisory deployment computes the verdicts an enforcing one does, a refused run is not closed as done, a held question
is released only by everyone it was put to, and the policy language means what its text says.

`dafny verify dfyconfig.toml` checks the whole project.

## How the model is put together

- `Vocabulary`, `Stores`, `Holds`, `Kill`: the value types; the outbox, connector, obligation registries and audit as
  one value with one step per store call; the identity of a held question; kill orders. Every store call takes the next
  turn of an arbitrary fault schedule: it answers, fails before it took effect, or takes effect and loses its answer
  (`Faults` says what each call then does).
  All theorems hold for every schedule unless they say otherwise. Fresh identifiers come from a counter.
- `Pipeline`, `Enforcement`: the specification. Deciding, committing, and the three entry paths (one operation, an item
  fan-out, an atomic batch), in both modes.
- `StoreObjects`, `Deployment`, `DeploymentRuns`: the same as objects. The stores, the audit sink and the advisory
  wrapper are classes with mutable fields; the deployment's methods loop, reassign and append where the source does.
  Each method's postcondition is that it returns what the specification computes and leaves the stores in exactly the
  world it computes, so every theorem about the specification is a theorem about the objects.
- `Verdicts`, `AuthorizedWork`, `Translations`: what every decision depends on, that nothing unauthorized is ever staged
  or executed, and what an advisory deployment makes of a verdict.
- `StagedRows`, `HeldTerms`, `Questions`, `Records`, `RefusedBatches`, `Envelopes`: the row a commit stages, the
  contracts behind every HOLD and who can release them, what makes two holds one question, and what records and answers
  say.
- `Conservation`, `ReservationRuns`, `ReservationLife`, `BatchLeak`, `CollapsedClaims`: who holds each reserved
  obligation, over commits, calls, batches and whole runs with the staged rows' later life.
- `RowLives`: the later life of a staged row.
- `AuditTotality`, `FanOutPartition`, `BatchAtomicity`, `AdvisoryMode`, `AdvisedPaths`, `ModesAgree`, `KillSafety`,
  `HoldDedupe`, `HoldAnswers`, `Marks`: the remaining theorems about the pipeline.
- `GateEngine`, `GateContracts`, `Closure`, `Checks`, `ClosureSafety`: the gate engine and what its holds demand, named
  checks and the closure check, and its run theorem.
- `Syntax`, `Tokenizer`, `Parser`, `RoundTrip`, `Evaluation`, `Text`: the condition language. The tokenizer is a method
  with loops and the parser an object with a position, each proved against a recursive reference.
- `Lookahead`, `ParseErrors`: what the parser has read does not depend on what it has not reached, and which texts
  make it raise the error it should not.
- `Meaning`: what conditions mean: comparisons, connectives, membership, paths and literals, each in terms of the values
  and not of the evaluator.
- `Validator`: the static check of conditions, and what passing it means for evaluation.
- `RequireMatch`, `MatchSoundness`, `MatchVerdicts`: the match gate, its agreement with the registry's own filter, and its
  answer to every answer of the registry.
- `Release`: crediting release identities against a held row's contracts.
- `Compiler`, `Loader`, `Linter`: the indexed matcher, gate merging, fragment merging and the load-time facts.
- `MemoryConnector`, `DdlSplitter`: idempotent dispatch, and the column splitter.

Parameters stand for what the kernel does not compute: name resolution, the compiled policy's answers, scope
predicates, probes, other gates, host functions of conditions, digests, clocks, `str`, `float`, `json.dumps` and regular
expressions. They are functions, so asking twice gives one answer; the pipeline's dependencies are additionally asked
with the index of the call, so they may change between calls.

## What was found

- A committed batch can leave a reservation behind, in two ways. With freshness configured and no clock in the request,
  the pre-pass reserves, the staging refuses before it looks at the reservation, and nobody releases it
  (`ReservationLeftBehind` is such a batch). And a hold that finds its question open in the queue is collapsed into that
  row, which carries another claim or none; what a gate that passed matched is no part of the question, so two
  operations of one batch are enough (`CollapsedClaimLeftBehind`). `BatchLeaksExactly` and `SearchedBatchLeaksExactly`
  say which batches do, from the wiring, the clocks, the decided verdicts and the open questions. The batch's
  documentation says no partial claim survives a refused batch; the first of these two is refused at commit.
- The advised batch has no reservation pre-pass. Two operations that match one obligation are refused as a batch when
  enforced; advised, the first is staged, and no record advises a refusal (`ReservingBatchDiffers`). Where nothing is
  planned to be reserved, allowed batches do run alike (`AllowedBatchAlike`).
- The linter reads an allow-list token as a resource whenever a resource has that name; the matcher also tries it as an
  action name. With one name used for both, an irreversible action can be allowed in open mode without a finding
  (`ShadowedActionSlipsThrough`). `OpenNeverAuthorizesIrreversible` says exactly when a policy that passed the check
  is safe: when its deny rules cover the irreversible actions its own tokens hide.
- `1.2.3` is one number token whose conversion raises a plain `ValueError`, and so does that of a literal without a dot
  of more than 4300 digits, by the interpreter's default limit. `parse` then raises an error that is not the language's
  own (`OneTwoThreeEscapes`, `LongLiteralRaises`), and the linter's check of a condition crashes where it promises a
  report. Of ASCII texts, `RaisesExactly` says which do it: those with a number that does not convert where the tokens
  before it want a number. A call as a list item is read before it is refused, so `x in [f(1.2.3` raises although
  nothing could complete it (`CallInListRaises`).
- `exists` of a single word always passes the static check, and holds in some request only if the word is a namespace
  (`AcceptedExistsCanHold`); any other is false in every request (`WordNeverExists`).
- An action-class kill order with no facet matches the unresolved pre-check target (`PreCheckActionClass`), although the
  comment there says action-class orders wait for step 5. The constructor `for_action_class` refuses to build such a
  scope; only a `KillScope` built directly can be one.
- A failing match clause's evidence carries the consumption plan (`FailureCarriesPlan`); the comment beside it says only
  a pass does. No reservation is made from it (`PlanMeansOneCandidate`).

## Model

| member | source | states |
|---|---|---|
| Verdicts.AllowedExactly | src/stonefold_core/pipeline.py:1068-1208 | a call is decided ALLOW iff it resolves, no order matches it early, the policy authorizes it, an effect under a scope has its target in sight (or open mode admits the outage), the gates are absent or pass, and neither an order nor an unreadable kill store stops it late |
| Verdicts.HeldExactly | src/stonefold_core/pipeline.py:1068-1172 | HOLD iff all of that up to the gates holds and the gates hold; the kill switch is not asked again |
| Verdicts.HaltedExactly | src/stonefold_core/pipeline.py:1095-1203 | HALT iff the kill switch stops it, before the policy or after the gates passed |
| Verdicts.RefusedEarly | src/stonefold_core/pipeline.py:1089-1113 | an unknown name, an early order and a missing policy each refuse under their own rule, the order being the first that matches |
| Verdicts.RefusedByPolicy | src/stonefold_core/pipeline.py:1119-1152 | without authorization the answer is DENY under the rule the policy gives; without sight of the target, under the scope rule of the probe |
| Verdicts.RuleFromGates | src/stonefold_core/pipeline.py:1154-1208 | from the gates on: the reason the gates give or the default, the name of the first matching order, an unreadable store, or the rule that authorized |
| Verdicts.VerdictTrace | src/stonefold_core/pipeline.py:1154-1208 | the verdict carries the whole gate trace iff the gates were reached |
| Verdicts.VerdictContracts | src/stonefold_core/pipeline.py:1166-1172 | and their release contracts iff they held |
| Verdicts.VerdictScope | src/stonefold_core/pipeline.py:1124-1152 | it narrows by the scope iff it got past it, and notes it from authorization on |
| Verdicts.VerdictFeedback | src/stonefold_core/pipeline.py:1115-1117 | and answers at the level of the policy once the policy was consulted |
| AuthorizedWork.CallUnpermitted | src/stonefold_core/pipeline.py:356-424 | enforced, a call the policy does not authorize is refused and stages, executes and reserves nothing, as one unit or item by item |
| AuthorizedWork.BatchUnpermitted | src/stonefold_core/pipeline.py:836-916 | one such operation refuses its whole batch before anything is reserved |
| AuthorizedWork.CompiledGoesByName | src/stonefold_core/compiler.py:114-130 | a compiled policy authorizes by kind, resource and action alone |
| AuthorizedWork.AuthorizedOverRuns | src/stonefold_core/pipeline.py:1119-1122 | over any enforced traffic and whatever later becomes of the rows, every staged row and every execution is of an authorized action |
| Faults.ReserveTells | src/stonefold_core/obligation.py:133-145 | down every way the call can go: it takes a free line and no other, and is granted iff the intent then holds it |
| Faults.ReleaseTells | src/stonefold_core/obligation.py:133-145 | it frees the line of its holder only |
| Faults.ConsumeTells | src/stonefold_core/obligation.py:133-145 | it spends a line that is free or its own, and is granted iff the intent then has spent it |
| Faults.StageTells | src/stonefold_core/outbox.py:343-369 | the row comes last under a fresh ticket, answered or not, unless the call failed before it took effect |
| Faults.ListTells | src/stonefold_core/outbox.py:373-373 | the listing shows the rows awaiting approval in the order they were staged |
| Faults.BumpTells | src/stonefold_core/outbox.py:414-418 | one attempt more on the row of that ticket while it awaits approval, and nothing else |
| Conservation.OneRowPerRef | src/stonefold_core/obligation.py:133-145 | two rows that still hold their reservations never claim one obligation |
| Conservation.ReservedMeansHeld | src/stonefold_core/obligation.py:133-145 | with no commit under way, a reserved line is held by exactly one row, unless an adapter call for it went unanswered |
| Conservation.ReserveConserves | src/stonefold_core/pipeline.py:1520-1555 | a reservation that is granted puts one fresh claim in hand; one that is refused or unanswered changes no account |
| Conservation.ConsumeAccounts | src/stonefold_core/pipeline.py:1576-1595 | spending takes the claim out of hand, is never refused to its holder, and its line was not reported consumed before |
| Conservation.CommitConserves | src/stonefold_core/pipeline.py:1211-1484 | a claim taken before the commit ends on a row, spent or given back exactly when the commit gets as far as a reservation; one the commit takes itself never stays behind |
| ReservationRuns.EnforceConserves | src/stonefold_core/pipeline.py:356-424 | every call, in either mode and down every path, leaves the reservation accounts settled |
| ReservationRuns.BatchConserves | src/stonefold_core/pipeline.py:781-1001 | a batch leaves the accounts settled but for the claims of operations whose commit stopped short of them |
| ReservationRuns.BatchLeaksUnreached | src/stonefold_core/pipeline.py:918-1001 | the accounts fail after a batch if and only if some operation's commit stopped short of a claim the pre-pass took |
| ReservationRuns.BatchLeaksExactly | src/stonefold_core/pipeline.py:918-1001 | a batch that commits settles its claims only if every operation with a planned claim has the outbox and, under freshness, a clock (a hold or an effect) or a connector and a matching pin (the rest); and exactly then, unless a hold among them is searched for in the queue |
| CollapsedClaims.SearchedBatchLeaksExactly | src/stonefold_core/pipeline.py:918-1001 | where holds are searched for, the stores answer and the batch has one time, it settles its claims iff, if it commits, every operation with a planned claim has what its commit needs and asks a question neither open in the queue inside the window nor asked earlier in the batch |
| CollapsedClaims.CollapsedClaimLeftBehind | src/stonefold_core/pipeline.py:1254-1285 | two payments matching different orders, one question: no call fails and the second line's claim is left behind |
| CollapsedClaims.CommitAsks | src/stonefold_core/pipeline.py:1254-1345 | a commit stops short of its claim exactly if it lacks what it needs or its question is open, and afterwards exactly one more question is open, its own |
| ReservationRuns.WiredBatchConserves | src/stonefold_core/pipeline.py:918-1001 | with both stores wired, a clock whenever freshness is on, no dedupe and no digest mismatch, no batch leaves a claim behind |
| ReservationLife.LaterConserves | src/stonefold_core/outbox.py:375-398 | release, claim, settle and sweep of a staged row keep the accounts |
| ReservationLife.RunConserves | src/stonefold_core/pipeline.py:1248-1479 | over any run of calls, batches and row steps, what is reserved beyond the rows and the unanswered calls is what batches left |
| ReservationLife.ReservationSafety | src/stonefold_core/pipeline.py:1520-1595 | from an empty deployment, after any run whose enforced batches are wired: each reserved line is on exactly one row or its call went unanswered, and no line is reported consumed twice |
| RowLives.MoveTells | src/stonefold_core/outbox.py:375-412 | a row moves along the six moves there are and no other |
| RowLives.SettleTells | src/stonefold_core/outbox.py:386-398 | a row is settled once, from dispatch: done, its claim spent and its own record written |
| RowLives.SweepTells | src/stonefold_core/outbox.py:299-336 | a cancelled or failed row is swept once and then no longer holds its line, if its registry can be asked and the call took effect |
| RowLives.NoRowGoesBack | src/stonefold_core/outbox.py:375-412 | over any run no row is lost, changed but for its attempts and state, or taken back to an earlier state |
| BatchLeak.ReservationLeftBehind | src/stonefold_core/pipeline.py:1607-1625 | a one-operation batch without a clock is denied with nothing staged, no call failed, and its line still reserved |
| BatchLeak.RefusedWithoutClock | src/stonefold_core/pipeline.py:1349-1358 | under freshness and without a clock an effect is refused before its claim is looked at, leaving every line as it was |
| AuditTotality.CommitAudits | src/stonefold_core/pipeline.py:1211-1484 | every commit appends exactly one record, of the returned decision, and nothing is staged or executed without it |
| AuditTotality.WholeAudits | src/stonefold_core/pipeline.py:356-424 | every call decided as one unit ends in exactly one record of its result, in both modes, whatever is wired and whatever fails |
| AuditTotality.EnforceAudits | src/stonefold_core/pipeline.py:356-424 | the same for every call that is not fanned out, an over-ceiling one included |
| Records.CommitTells | src/stonefold_core/pipeline.py:1211-1484 | the one record of a commit, field by field, names the actor, run and action, agrees with the answer, and tells how the commit ended: staged under its ticket with its reservation, answered from the queue, refused by a store, degraded, or executed once under the scope in force with what was spent |
| Records.FinishTells | src/stonefold_core/pipeline.py:1661-1711 | a terminal path writes one record and returns the answer the record describes; an advised ALLOW is recorded under the rule enforcement would have named |
| Records.ReasonExactly | src/stonefold_core/reasons.py:79-112 | the reason: none with ALLOW, the code and class of the last unpassed result of the deciding gate, else the rule and its class |
| Records.MeasureExactly | src/stonefold_core/pipeline.py:123-160 | the scope measurement counts exactly the rows the predicate removes among those looked at, or names the first row that stands in the way |
| FanOutPartition.AllowedValuesInOrder | src/stonefold_core/pipeline.py:684-724 | the merged call carries exactly the allowed items' values, each once and in order |
| FanOutPartition.SettleAll | src/stonefold_core/pipeline.py:646-683 | one verdict per item in order; one record per refusal and per hold; nothing executes, and the rows staged are held items' own, each once at most and in their order |
| FanOutPartition.FanOutIsPartition | src/stonefold_core/pipeline.py:623-778 | one verdict per item, ALLOW iff every item was applied, nothing listed as applied when the merged commit refuses, records = refused + held + merged; beyond the held items' rows nothing is staged or executed when no item is allowed, and otherwise at most one row or execution, of the merged action with exactly the allowed values |
| Envelopes.FanOutAnswersWorst | src/stonefold_core/pipeline.py:757-778 | a fanned-out call answers HALT before DENY before HOLD, by the first item that earned it, ALLOW iff every item was; the rest is the answer of the merged call |
| Envelopes.FansOutExactly | src/stonefold_core/pipeline.py:428-448 | a call is decided item by item iff its action takes independent items and it brings a list of at least two |
| Envelopes.ThreeWays | src/stonefold_core/pipeline.py:356-621 | a call without items is one unit; one with more than declared is refused touching nothing, or forwarded as one unit under advisory; any other is fanned out |
| Envelopes.ItemsAreNamed | src/stonefold_core/pipeline.py:451-461 | a scalar item names itself, a record its declared key |
| Envelopes.TemplateTells | src/stonefold_core/pipeline.py:684-724 | the merged call speaks as its first item allowed without advice, else as the first it forwards |
| Envelopes.MergedTells | src/stonefold_core/pipeline.py:684-724 | the merged call is the verdict of the template with the applied values in place of the items |
| Envelopes.ReconciledTells | src/stonefold_core/pipeline.py:736-756 | an item allowed by its own verdict takes the answer of the merged call, any other keeps its own |
| Envelopes.CommittedBatchIsSummarised | src/stonefold_core/pipeline.py:986-1001 | a committed batch answers as its first refused operation and names its index, otherwise HOLD iff some operation is held |
| FanOutPartition.CommitWork | src/stonefold_core/pipeline.py:1211-1484 | a commit stages or executes at most once, its own resolved action, through the store wired for its kind, and not at all when it was refused; earlier rows stay |
| FanOutPartition.AllowedWork | src/stonefold_core/pipeline.py:1349-1479 | an allowed effect that answers ALLOW with an outbox has its row under the returned ticket, a refused one only by a lost answer; an inline ALLOW with a connector executed unless failureMode let an outage through |
| BatchAtomicity.DecidedRefusalIsAtomic | src/stonefold_core/pipeline.py:836-916 | any DENY or HALT refuses the whole batch: outbox, connector and registries unchanged, one record per operation in order, the first refusal named |
| BatchAtomicity.RefusedReservationIsAtomic | src/stonefold_core/pipeline.py:918-963 | a refused reservation returns every reservation taken for the batch, stages and executes nothing, records each operation in order, and names the refused one |
| RefusedBatches.RefusedBatchTells | src/stonefold_core/pipeline.py:884-916 | of a refused batch every operation is recorded and answered by its own verdict, the refused as decided and the others as refused with their batch |
| RefusedBatches.UnreservedBatchTells | src/stonefold_core/pipeline.py:918-963 | refused for a reservation, that operation is denied under the rule of the reservation and every other recorded as refused with it |
| BatchAtomicity.AnsweredMeansRestored | src/stonefold_core/pipeline.py:935-937 | when every adapter call was answered, every obligation line is as it was before the batch |
| AdvisoryMode.ModeIsALabel | src/stonefold_core/pipeline.py:1226-1236 | the commit phase never reads the mode or the records: from stores equal up to those labels, the same answer, stores equal up to them, the same findings |
| AdvisoryMode.AllowedRunsAlike | src/stonefold_core/pipeline.py:197-271 | where the policy allows and no scope narrows, a call decided as one unit is answered alike in both modes and leaves the same stores up to the labels |
| AdvisoryMode.AdviceIsTheVerdict | src/stonefold_core/pipeline.py:197-271 | the advisory record advises exactly when a verdict was translated, with the decision, rule and reason the enforcing run answers with, a hold refused by a store excepted |
| Translations.TranslationTells | src/stonefold_core/pipeline.py:177-271 | every verdict is let through with its scope measured instead of applied, but kill-switch halts and unresolvable names, which stand; a translated one carries no contract |
| Translations.AdviceTells | src/stonefold_core/pipeline.py:197-271 | advice is given iff the deployment does other than the verdict said, and says its decision, rule, reason and question; unjudged iff unresolvable or decided by a failed dependency |
| Translations.CeilingTells | src/stonefold_core/pipeline.py:579-621 | over the ceiling the forwarded call is recorded unjudged, advising the refusal, unless it is refused anyway |
| Translations.CallCoverageTells | src/stonefold_core/pipeline.py:480-507 | the record of an advised call with items is unjudged iff some item it forwards is |
| Translations.CommitsUnderThePolicy | src/stonefold_core/pipeline.py:356-424 | a commit runs as the agent of the policy under its failure mode, and fails closed without a policy |
| Translations.UnitAnswersAtItsLevel | src/stonefold_core/pipeline.py:1598-1604 | a call answers at the feedback level of its verdict, in either mode |
| Translations.BatchAnswersAtItsLevels | src/stonefold_core/pipeline.py:1598-1604 | each operation of a batch at its own, refused, committed or advised |
| AdvisoryMode.AdvisoryRefusals | src/stonefold_core/pipeline.py:405-424 | an advisory call decided as one unit is never held, and refused only by the kill switch, for an unresolvable name, or by a store at commit |
| ModesAgree.AllowedCallsAlike | src/stonefold_core/pipeline.py:356-424 | any call within its item ceiling whose every verdict is an unscoped ALLOW, fanned out or not, is answered alike in both modes but for the rules beside its items, and leaves the same stores up to the labels |
| ModesAgree.AllowedFanOutAlike | src/stonefold_core/pipeline.py:684-778 | of a fan-out: the whole answer is the same when the items were allowed under one rule |
| ModesAgree.AllowedBatchAlike | src/stonefold_core/pipeline.py:974-1065 | a batch of unscoped ALLOWs that plan no reservation gives the same results and the same stores up to the labels |
| ModesAgree.ReservingBatchDiffers | src/stonefold_core/pipeline.py:842-934 | two allowed effects matching one free obligation: the enforced batch is refused and stages nothing, the advised one stages and advises no refusal |
| ModesAgree.AdvisedCallStops | src/stonefold_core/pipeline.py:405-424 | down every path, over the ceiling and item by item included, an advisory answer is never a HOLD and refuses only as above; a fanned-out call that is not allowed answers with an item's decision and rule |
| ModesAgree.AdvisedBatchStops | src/stonefold_core/pipeline.py:842-889 | an advised batch is never held; a kill halts it at the first halted operation, and otherwise every operation is refused only as above and the batch with one of them |
| Marks.EverythingIsMarked | src/stonefold_core/pipeline.py:274-320 | over any traffic of one deployment every row and every record bears its mode |
| AdvisoryMode.UnresolvedIsDenied | src/stonefold_core/pipeline.py:1087-1110 | an unresolvable name is always denied as unknown, and every decided HALT is kill-caused |
| AdvisedPaths.AdvisedBatchNamesTheRefusal | src/stonefold_core/pipeline.py:1004-1065 | an advised batch leaves one record per operation in order, advising its decided verdict, and the batch's advice is the enforced batch's failing index and decision, present iff some operation was decided a refusal |
| AdvisedPaths.KilledBatchIsRefusedAlike | src/stonefold_core/pipeline.py:836-889 | under a kill order the advised batch is refused with the enforced batch's answers and neither touches outbox or connector |
| AdvisedPaths.AdvisedFanOutRecord | src/stonefold_core/pipeline.py:684-735 | the last record of an advised call that forwards items is theirs, under the call's stamp |
| AdvisedPaths.CallStampAdvises | src/stonefold_core/pipeline.py:480-507 | that stamp lists, in order, exactly the forwarded items not decided ALLOW, each with its decided verdict, counts both kinds, and advises the worst of them |
| AdvisedPaths.ItemAdviceIsTheVerdict | src/stonefold_core/pipeline.py:623-683 | exactly the items halted or unresolvable are not forwarded, and each advised verdict is the enforced call's own on that item, a hold refused by a store excepted |
| Kill.FirstMatchIsFirst | src/stonefold_core/kill.py:170-207 | an order halts the target iff the scan finds one, and it finds the earliest |
| Kill.PreCheckActionClass | src/stonefold_core/kill.py:170-189 | an action-class order matches the unresolved target exactly when it fixes no facet |
| Kill.ScopeOnResolved | src/stonefold_core/kill.py:170-189 | on a resolved target a scope matches iff no facet it fixes disagrees |
| Kill.OrderExactly | src/stonefold_core/kill.py:192-207 | an order halts iff active, in scope, and its predicate is absent, true or unevaluable |
| KillSafety.CallsStop | src/stonefold_core/pipeline.py:1095-1110 | while a predicate-free global, agent or session order stands, no call in either mode stages, executes or reserves anything, and each is refused |
| KillSafety.BatchesStop | src/stonefold_core/pipeline.py:836-889 | nor does any batch, in either mode |
| Holds.IdentityNeedsCode | src/stonefold_core/outbox.py:151-198 | a hold has a dedupe identity exactly when some holding gate gave a reason code |
| Questions.QuestionTells | src/stonefold_core/outbox.py:151-198 | the question of a hold is its action and, for every holding gate in order, the gate, its code, its evidence and the values of the intent at the paths it compared |
| Questions.SearchTells | src/stonefold_core/pipeline.py:1487-1517 | the duplicate is the first held row inside the window of the same agent and question |
| HoldDedupe.SearchIsExact | src/stonefold_core/pipeline.py:1487-1517 | the search names an open row asking this very question, or there is none inside the window |
| HoldDedupe.HoldKeepsQueue | src/stonefold_core/pipeline.py:1254-1336 | one commit: a HOLD answers with the ticket of an open row of its own key; without a reason code that row is new |
| StagedRows.CommitStages | src/stonefold_core/pipeline.py:1286-1336 | a commit stages at most its own row: this actor, session and agent, its gates and, held, its contracts; created at the time of the request when it has one, lapsing by its kind, under a fresh ticket, holding the claim of its batch or of its first consumable match |
| HeldTerms.CallBehind | src/stonefold_core/pipeline.py:1254-1336 | behind every HOLD of an enforced call or item is its own row with the contracts of its verdict, or an open row that asks the same |
| HeldTerms.BatchBehind | src/stonefold_core/pipeline.py:1254-1336 | and behind every HOLD of a committed batch |
| HeldTerms.PromotedByItsGates | src/stonefold_core/outbox.py:219-283 | a row a hold staged is promoted only after, for every gate that held it, distinct identities met the quorum and guards of that gate |
| HeldTerms.DualNeedsTwoOthers | src/stonefold_gates/engine.py:227-260 | held under dual authorization, only after two distinct identities other than its actor released it |
| HeldTerms.HeldCallIsReleasedByItsGates | src/stonefold_core/pipeline.py:1254-1336 | so a held call has behind its ticket an open duplicate or a row only its own gates promote |
| HoldAnswers.CallAnswered | src/stonefold_core/pipeline.py:356-424 | every HOLD a call answers, its own or an item's, names a row open after the call that asks just this, a new one when there is no reason code |
| HoldAnswers.BatchAnswered | src/stonefold_core/pipeline.py:781-1001 | so does every HOLD of a batch that commits; a batch refused as a whole stages nothing and gives no ticket |
| HoldDedupe.RunKeepsQueue | src/stonefold_core/pipeline.py:1254-1336 | under any interleaving of calls, batches and row closures, open rows of one key were created more than the window apart |
| GateEngine.SortedIsStable | src/stonefold_gates/engine.py:191-191 | sorting by cost keeps the entries and the declared order among equals |
| GateEngine.VerdictIsConjunction | src/stonefold_gates/engine.py:172-225 | FAIL iff some gate fails or a holding gate has no contract, else HOLD iff some gate holds, else PASS |
| GateEngine.OrderDoesNotMatter | src/stonefold_gates/engine.py:172-225 | the order in which a policy lists its gates never changes the verdict |
| GateEngine.FailTrace | src/stonefold_gates/engine.py:194-200 | on a failure the trace is the cost-sorted prefix ending at the first failure |
| GateEngine.HoldCarriesEveryContract | src/stonefold_gates/engine.py:203-224 | a HOLD ran every gate and carries one fresh contract per holding gate, in order; `GateContracts.HoldDemands` says what each demands |
| GateContracts.ContractDemands | src/stonefold_gates/engine.py:227-260 | dual authorization demands two identities other than the actor; an approval the configured number, one by default; any other gate one resolver, named, else by default, else its approvers, with the code and evidence of the check |
| GateContracts.HoldDemands | src/stonefold_gates/engine.py:203-260 | every holding gate put just its own demand on the row, and every contract is the demand of some holding gate |
| GateContracts.VerdictInTerms | src/stonefold_gates/engine.py:172-225 | FAIL iff a gate fails or a question nobody is named to answer is held; HOLD iff neither and some gate holds; else PASS |
| GateContracts.UnresolvableExactly | src/stonefold_gates/engine.py:203-224 | refused as unresolvable iff none fails and some holding precondition or coded check has no resolver and no default |
| GateContracts.HoldReason | src/stonefold_gates/engine.py:203-224 | the reason of a hold is the first holding gate in the order they ran |
| GateContracts.TraceFollowsTiers | src/stonefold_gates/engine.py:52-72 | the trace meets the tiers of the table in order, so nobody is asked before a cheaper gate has spoken |
| GateEngine.Run | src/stonefold_gates/engine.py:172-225 | the engine's loops compute that verdict |
| Closure.ChecksVerdict | src/stonefold_gates/gates.py:152-220 | a failing check outranks every holding one wherever it stands; otherwise the first hold decides |
| Closure.RunChecksLoop | src/stonefold_gates/gates.py:152-220 | the loop over named checks computes the reference |
| Checks.ChecksTell | src/stonefold_gates/gates.py:152-220 | the gate tells the first refusing check with its code and class, else the first question with its evidence, else passes; a crash, an uncoded hold and an undeclared hold refuse as the failure mode says |
| Checks.ClosureTells | src/stonefold_gates/closure.py:66-144 | every answer of the closure check by its cause, its two codes, and the configurations on which it crashes |
| Checks.WhenDecides | src/stonefold_gates/engine.py:337-349 | a gate whose condition is false passes, and one whose condition cannot be evaluated refuses for good |
| Checks.StatesDecide | src/stonefold_gates/gates.py:123-132 | a state requirement passes iff the current state is one of those listed |
| Checks.ChecksDecide | src/stonefold_gates/engine.py:337-360 | otherwise the gate answers as its checks or its own evaluator do |
| Closure.RefusalsAreExact | src/stonefold_gates/closure.py:77-87 | the history answers exactly the deny, halt and hold records of this actor and run |
| Closure.ClosurePassesExactly | src/stonefold_gates/closure.py:90-144 | a disposition passes iff it is in the vocabulary and, if it claims completion, the record holds no refusal; otherwise it is held with a code |
| Closure.FalseClosureNeverPasses | src/stonefold_gates/closure.py:90-144 | with a refusal on record the gates never pass an unconditional completion claim, whatever else is configured |
| ClosureSafety.RunGrows | src/stonefold_core/audit.py:50-65 | no step of any run removes or changes an earlier record |
| ClosureSafety.AllowNeedsPass | src/stonefold_core/pipeline.py:1154-1173 | a call the gates did not pass is never decided ALLOW |
| ClosureSafety.ClosureSafetyOverRuns | src/stonefold_gates/closure.py:66-144 | once a refusal is recorded, after any run, no enforced completion claim by the same actor in the same run is allowed: as a call, item by item, or inside a batch |
| ClosureSafety.RefusalIsRemembered | src/stonefold_core/audit.py:93-150 | every enforced answer other than ALLOW, of a call, fanned out or not, and of an operation in a batch, is itself such a record under its actor and run |
| Tokenizer.Tokenize | src/stonefold_core/condition.py:132-198 | the character loop reads exactly the reference token list, or raises where it does |
| Tokenizer.ReadNumber | src/stonefold_core/condition.py:170-186 | a number, or a duration when one unit letter ends the word |
| Tokenizer.LayoutReadsBack | src/stonefold_core/condition.py:132-198 | every well-formed token list, under every layout with white space where neighbours would run together, is read back |
| Tokenizer.LexedTokensAreGood | src/stonefold_core/condition.py:132-198 | every token read from any text is well-formed |
| Parser.RecursiveDescent.ParseAll | src/stonefold_core/condition.py:229-233 | from any token list the parser object terminates with the reference's answer; its position never passes the end token |
| Parser.RecursiveDescent.OrExpr | src/stonefold_core/condition.py:235-240 | the `or` loop reads what the reference reads and stops where it stops |
| Parser.RecursiveDescent.AndExpr | src/stonefold_core/condition.py:242-247 | the `and` loop likewise |
| Parser.RecursiveDescent.Unary | src/stonefold_core/condition.py:249-258 | negation and parentheses likewise |
| Parser.RecursiveDescent.Comparison | src/stonefold_core/condition.py:260-286 | comparisons, `in`, `not in` and `exists` likewise |
| Parser.RecursiveDescent.AnOperand | src/stonefold_core/condition.py:288-309 | operands likewise, a number that does not convert included |
| Parser.RecursiveDescent.FuncBody | src/stonefold_core/condition.py:311-320 | call arguments likewise |
| Parser.RecursiveDescent.PathBody | src/stonefold_core/condition.py:322-329 | dotted paths likewise |
| Parser.RecursiveDescent.ListBody | src/stonefold_core/condition.py:331-340 | list literals likewise |
| Parser.RecursiveDescent.Item | src/stonefold_core/condition.py:342-349 | list items: a literal, or a bare name standing for one |
| Parser.RecursiveDescent.Advance | src/stonefold_core/condition.py:212-215 | one token on, and never past the end token |
| Parser.ParseText | src/stonefold_core/condition.py:352-354 | tokenizing and parsing any text gives the reference's answer |
| RoundTrip.RoundTrip | src/stonefold_core/condition.py:204-354 | any well-formed tree, written with minimal parentheses under any layout, parses to itself |
| RoundTrip.ParsedExactlyGood | src/stonefold_core/condition.py:204-354 | the well-formed trees are exactly what parsing some text yields |
| RoundTrip.WrittenIsShortest | src/stonefold_core/condition.py:204-354 | no text that parses to a tree has fewer tokens than the tree written out |
| RoundTrip.NormalForm | src/stonefold_core/condition.py:204-354 | for every text that parses, writing the tree out and reading it again changes nothing |
| Lookahead.OrWithin | src/stonefold_core/condition.py:229-258 | what parsing finished within the first tokens of one list it finishes in any list with the same first tokens and an end that looks alike one token ahead |
| ParseErrors.OrRaises | src/stonefold_core/condition.py:229-258 | what reads a number at a place raises when an operand there raises |
| ParseErrors.OrCompletes | src/stonefold_core/condition.py:229-258 | what raised was wanting a number: the tokens before the faulty one can be completed, an item of a list in which a call stands excepted |
| ParseErrors.RaisesExactly | src/stonefold_core/condition.py:352-354 | `parse` raises a plain ValueError iff the text tokenizes and some number that does not convert stands where the tokens before it open a condition, or operands in it, and want a number |
| ParseErrors.NumberAloneRaises | src/stonefold_core/condition.py:293-295 | a number alone is such a text iff it does not convert |
| ParseErrors.LongLiteralRaises | src/stonefold_core/condition.py:293-295 | n digits alone, signed or not, are such a text iff n is more than 4300 |
| ParseErrors.OneTwoThreeEscapes | src/stonefold_core/condition.py:293-295 | `1.2.3` is one |
| ParseErrors.CallInListRaises | src/stonefold_core/condition.py:342-349 | so is such a number in a call in a list, although nothing completes the tokens before it |
| Validator.ValidatesExactly | src/stonefold_core/condition.py:360-411 | a policy's conditions all pass the static check iff one request of a deployment with those namespaces and functions resolves everything in all of them |
| Validator.RejectedNeverAnswers | src/stonefold_core/condition.py:360-396 | a comparison or membership test that was complained about answers in no request |
| Validator.AcceptedExistsCanHold | src/stonefold_core/condition.py:360-411 | an `exists` passes the check iff it is one word or starts at a namespace, and some request makes it true iff it starts at a namespace |
| Validator.ParseAndValidate | src/stonefold_core/condition.py:414-425 | crashes exactly on the texts above, reports the others that do not parse as one problem, and reports nothing iff some request resolves everything in the text |
| Evaluation.Walk | src/stonefold_core/condition.py:503-513 | the lookup loop descends part by part and misses where any part is absent |
| Meaning.OrderingIsNumeric | src/stonefold_core/condition.py:603-621 | an ordering of two resolved operands answers by the sign of the difference of their numbers, and fails closed when a side is no number |
| Meaning.EqualityIsNumeric | src/stonefold_core/condition.py:596-611 | two numbers are equal iff neither is ahead, whatever they are written as; `!=` is always the other answer |
| Meaning.EqualityByKind | src/stonefold_core/condition.py:583-600 | a truth value equals the number it stands for, and otherwise only like equals like |
| Meaning.EqualityOfContainers | src/stonefold_core/condition.py:596-600 | lists place by place, records key by key |
| Meaning.MatchesSearches | src/stonefold_core/condition.py:603-621 | `matches` searches the pattern of the right side in the text of the left |
| Meaning.UnresolvedDecides | src/stonefold_core/condition.py:529-547 | an operand that does not resolve decides, the left one first |
| Meaning.CallsAskTheHost | src/stonefold_core/condition.py:522-574 | a call is answered by the host from the values of its arguments; the first that has none decides instead |
| Meaning.ConnectivesAreBoolean | src/stonefold_core/condition.py:529-547 | the truth tables of `and`, `or` and `not`, and where they stop |
| Meaning.MembershipIsPositional | src/stonefold_core/condition.py:624-632 | `in` iff some position of the list, stretch of the text or moment of the interval; `not in` the opposite |
| Meaning.ExistsFollowsThePath | src/stonefold_core/condition.py:515-520 | `exists` iff the path leads anywhere from its namespace |
| Meaning.PathsAreFollowed | src/stonefold_core/condition.py:503-574 | a single word is itself unless it names a namespace; any other path is followed part by part, and fails closed where it stops |
| Meaning.DecimalOfDigits | src/stonefold_core/condition.py:293-295 | figure by figure, what a literal denotes |
| Meaning.DecimalOfFraction | src/stonefold_core/condition.py:293-295 | and what follows its dot |
| Meaning.LiteralsAreCompared | src/stonefold_core/condition.py:352-354 | the text of a comparison of two literals is answered by their numbers in every request |
| Meaning.WordsAreRead | src/stonefold_core/condition.py:132-198 | each word of the language is read as its own token |
| Meaning.AndBindsTighter | src/stonefold_core/condition.py:235-258 | `and` binds tighter than `or` on either side of it |
| Meaning.EqualsGroupLeft | src/stonefold_core/condition.py:235-247 | equals group from the left |
| Meaning.NotAndParentheses | src/stonefold_core/condition.py:249-258 | `not` takes the next condition only, and parentheses what they enclose |
| Evaluation.EqualityAgrees | src/stonefold_core/obligation.py:51-72 | the registry's equality and the evaluator's are one relation |
| Evaluation.EqualSymmetric | src/stonefold_core/condition.py:596-600 | the evaluator's equality is symmetric, booleans and nested containers included |
| Evaluation.ResolveFrame | src/stonefold_core/condition.py:563-574 | adding or replacing a namespace changes no operand that does not name it |
| Evaluation.EvaluateFrame | src/stonefold_core/condition.py:529-547 | nor any condition that does not name it; what a condition answers is said by the rows of `Meaning` |
| Text.SplitJoin | src/stonefold_core/obligation.py:39-48 | joining a path's parts with dots and splitting the text again loses nothing |
| RequireMatch.Verify | src/stonefold_gates/gates.py:608-752 | the gate, its loops included, computes the reference verdict |
| RequireMatch.CollectPaths | src/stonefold_gates/gates.py:475-494 | the stack walk gathers a condition's paths, a right branch before a left one |
| RequireMatch.BuildSelector | src/stonefold_gates/gates.py:654-670 | the selector is the selecting clauses in order, each with its intent side resolved now |
| RequireMatch.CheckEach | src/stonefold_gates/gates.py:720-752 | the first clause that fails or raises decides |
| MatchSoundness.ToleranceExact | src/stonefold_gates/gates.py:572-605 | a tolerance is met iff both numbers exist and 100 times their difference is at most the percentage of the amount of the record, or the difference at most the absolute bound, or, with neither, they are equal |
| MatchSoundness.PassWithEvidence | src/stonefold_gates/gates.py:608-752 | PASS with evidence iff the registry answered exactly one candidate and every clause and tolerance holds of it; the evidence names it |
| MatchSoundness.PassIsDeclared | src/stonefold_gates/gates.py:527-752 | PASS with evidence iff the configuration can be acted on and the whole answer of the registry is one record of which every declared clause is true, its text and bounds as written |
| MatchSoundness.HoldsAsDeclared | src/stonefold_gates/gates.py:706-752 | of a record that is the whole answer, the verdict is that of the declared clauses |
| MatchSoundness.SelectorPartTells | src/stonefold_gates/gates.py:527-560 | a clause asks the registry iff it equates a field of the record with a side that does not mention the record |
| MatchVerdicts.SelectorTells | src/stonefold_gates/gates.py:654-670 | the registry is asked for one equality per such clause of the match, in order, provenance never; the first side that does not resolve refuses |
| MatchVerdicts.UnmatchedTells | src/stonefold_gates/gates.py:675-704 | without exactly one record nothing is chosen: refused or held as configured, naming every record found |
| MatchVerdicts.MatchedTells | src/stonefold_gates/gates.py:706-752 | of the one record the first false clause decides, by its kind, with the code and class of a tolerance, a match or a provenance clause |
| MatchVerdicts.GateTells | src/stonefold_gates/gates.py:608-673 | an unresolved side refuses, and a registry that cannot be asked passes only as the failure mode admits |
| MatchVerdicts.AllFieldsTell | src/stonefold_gates/gates.py:644-653 | a refusal for want of one record names every compared path once |
| Meaning.ClauseComparesAmounts | src/stonefold_gates/gates.py:527-560 | a declared ordering between a field of the record and one of the intent holds iff the two numbers stand so |
| MatchSoundness.PassWithoutEvidence | src/stonefold_gates/gates.py:563-569 | PASS without evidence iff the registry could not be asked, failureMode is open, and the action is not an irreversible effect |
| MatchSoundness.PassReservesTheMatch | src/stonefold_core/obligation.py:193-211 | what the commit then reserves is the matched ref, and nothing for a pure verification |
| MatchSoundness.PlanMeansOneCandidate | src/stonefold_gates/gates.py:706-752 | the evidence carries the consumption plan iff exactly one candidate was answered, whatever the clauses say of it; only a PASS reserves from it |
| MatchSoundness.FailureCarriesPlan | src/stonefold_gates/gates.py:706-752 | a clause failing on the one candidate leaves a failing result with the plan in its evidence |
| MatchSoundness.RecheckIsTheFilter | src/stonefold_gates/gates.py:527-547 | re-evaluated on a record, a selecting clause says exactly whether the adapter's own equality keeps it |
| MatchSoundness.SelectorNeverFails | src/stonefold_gates/gates.py:654-751 | with an adapter that returns only records satisfying the selector, no selecting clause fails or raises; the remaining clauses decide |
| Release.ApplyRelease | src/stonefold_core/outbox.py:219-283 | one release call: its target set, its pass over the contracts, and its refusals |
| Release.RefusedExactly | src/stonefold_core/outbox.py:243-276 | each of the four refusals iff its cause: not awaiting, no contract of that gate, no unambiguous target, only the word of the actor |
| Release.CreditedExactly | src/stonefold_core/outbox.py:264-283 | otherwise the identity is added to exactly the reached contracts that lack it and take its word, nothing else changes, and the row is promoted iff every quorum is then met |
| Release.ReleaseProgress | src/stonefold_core/outbox.py:219-283 | a crediting call strictly lowers what is missing, any other changes no contract, and the row is PENDING iff nothing is missing |
| Release.BareReleaseStaysWithApprovals | src/stonefold_core/outbox.py:245-256 | a bare release beside an approval contract credits no check-driven one |
| Release.RunDecomposes | src/stonefold_core/outbox.py:219-283 | over any calls, each contract ends as its own history alone would make it |
| Release.AloneStaysProper | src/stonefold_core/outbox.py:264-275 | credits are append-only, duplicate-free, within quorum, and never the actor under dual authorization or distinctness |
| Release.ReleaseSafety | src/stonefold_core/outbox.py:219-283 | over any run from a fresh held row every contract stays proper and the row is PENDING iff nothing is missing, one that asked for nobody also needing a call with a target |
| Release.PromotionNeedsEveryQuorum | src/stonefold_core/outbox.py:219-283 | a promoted row has every quorum filled by distinct identities that released that contract, no guarded actor among them |
| Release.PromotedExactly | src/stonefold_core/outbox.py:219-283 | whatever the order of calls, a fresh row is promoted iff every contract was offered a quorum of distinct eligible identities, and some call had a target if nobody was asked for |
| Compiler.KindMatcher.Add | src/stonefold_core/compiler.py:49-57 | adding a rule keeps the index the union of the rules of each kind |
| Compiler.KindMatcher.Match | src/stonefold_core/compiler.py:59-77 | the indexed answer is the scan of all rules |
| Compiler.ScanIsTheMaximum | src/stonefold_core/compiler.py:59-83 | the scan is the maximum specificity of any rule, attained by one |
| Compiler.SameRulesSameAnswer | src/stonefold_core/compiler.py:43-83 | rules in any order, repeated or not, give one answer |
| Compiler.CompiledPolicy.Verdict | src/stonefold_core/compiler.py:114-130 | default deny, deny wins, most specific allow, on the policy the object was built from |
| Compiler.LintedGatesAreRun | src/stonefold_core/compiler.py:132-158 | the gates the linter merges are the ones the runtime evaluates, in the same order |
| Compiler.MostSpecificGoverns | src/stonefold_core/compiler.py:132-158 | a gate is configured by the most specific key that declares it |
| Compiler.NarrowerKeyGoverns | src/stonefold_core/compiler.py:132-158 | a gate of a named action is configured by the key of resource and action, else of the action, else of the kind, else by the wildcard |
| Compiler.KindGovernsUnnamed | src/stonefold_core/compiler.py:132-158 | and of an unnamed one by the kind, else by the wildcard |
| Compiler.Merge | src/stonefold_core/compiler.py:150-158 | the merging loops compute the gate set |
| Loader.MergeChain | src/stonefold_core/loader.py:40-73 | the nested loops flatten the chain as specified |
| Loader.ChainDecides | src/stonefold_core/loader.py:40-86 | a merged chain denies iff any document's deny matches, and otherwise allows iff any document's allow matches |
| Loader.DenySurvives | src/stonefold_core/loader.py:40-86 | no document added later undoes a fragment's deny |
| Loader.LastDocumentConfigures | src/stonefold_core/loader.py:60-66 | a gate under a key is configured by the last document that configures it |
| Loader.LastEntryStands | src/stonefold_core/loader.py:60-66 | the entry of the last document that has one under the key is the entry the policy ends up with |
| Loader.LastDocumentSets | src/stonefold_core/loader.py:55-68 | each key of the scope, and each other top-level key, comes from the last document that sets it |
| Loader.StandingIsAll | src/stonefold_core/loader.py:53-54 | no standing grant is lost, and they keep their order |
| Linter.AllowedActions | src/stonefold_core/linter.py:105-139 | the enumeration lists exactly the declared actions its reading of the allow rules covers |
| Linter.ListingCoversExactly | src/stonefold_core/linter.py:105-139 | it covers everything the matcher can allow iff no token hides an action behind a resource of the same name |
| Linter.DisjointNamesHaveNoBlindSpot | src/stonefold_core/linter.py:105-139 | with resource and action names apart nothing is hidden, so both conditions hold |
| Linter.OpenNeverAuthorizesIrreversible | src/stonefold_core/linter.py:776-795 | a policy in open mode that passes the check never authorizes an irreversible action iff a deny rule matches each irreversible action its allow tokens hide behind a resource of the same name |
| Linter.ShadowedActionSlipsThrough | src/stonefold_core/linter.py:776-795 | and a policy that passes it while authorizing one, when something is |
| MemoryConnector.InMemoryConnector.Send | src/stonefold_connectors/memory.py:90-113 | dispatch: idempotent on the key, and refused when the named target left the scope |
| MemoryConnector.InMemoryConnector.Run | src/stonefold_connectors/memory.py:48-74 | reads, records, transitions and recorded effects |
| MemoryConnector.InMemoryConnector.Find | src/stonefold_connectors/memory.py:120-131 | the search loop |
| MemoryConnector.FoundIsExact | src/stonefold_connectors/memory.py:120-131 | the search succeeds iff the first row of that id is in scope |
| MemoryConnector.TargetIsTheFirstKey | src/stonefold_connectors/memory.py:16-25 | the first target key the action carries names its row, unless it carries null |
| MemoryConnector.ReadShows | src/stonefold_connectors/memory.py:51-55 | a read shows the rows in scope in their order |
| MemoryConnector.RowShows | src/stonefold_connectors/memory.py:51-55 | each shown iff there is no scope or it matches |
| MemoryConnector.RecordIsAppended | src/stonefold_connectors/memory.py:56-61 | a record becomes the last row of its table and changes nothing else |
| MemoryConnector.TransitionIsExact | src/stonefold_connectors/memory.py:62-69 | a transition changes the state of the first row of its id, if in scope, to the one asked for or its own name, and changes nothing else; without such a row it changes nothing |
| MemoryConnector.RunKeeps | src/stonefold_connectors/memory.py:90-113 | over any run keyed effects have distinct keys, exactly the dispatched ones |
| MemoryConnector.FirstDispatchWins | src/stonefold_connectors/memory.py:90-113 | over any run, a new key's effects are exactly the first dispatch under it that was not refused |
| MemoryConnector.RepeatIsTheFirst | src/stonefold_connectors/memory.py:90-113 | a repeat returns the first result and changes nothing |
| MemoryConnector.ScopedDispatchIsExact | src/stonefold_connectors/memory.py:81-113 | a fresh scoped dispatch naming a target is sent iff that row is in scope now; refused, it changes nothing |
| DdlSplitter.TableBlock | src/stonefold_registry_gen/sql.py:40-50 | the block ends at the matching parenthesis, or is the rest when there is none |
| DdlSplitter.MatchIsUnique | src/stonefold_registry_gen/sql.py:40-50 | a parenthesis has at most one match |
| DdlSplitter.RawParts | src/stonefold_registry_gen/sql.py:53-69 | the raw parts with their commas put back are the block, a last empty one dropped; none has a top-level comma, and all but the last are depth zero |
| DdlSplitter.PartsBalanced | src/stonefold_registry_gen/sql.py:53-69 | a block is paren-balanced iff every raw part of it is |
| DdlSplitter.TableColumns | src/stonefold_registry_gen/sql.py:105-107 | the columns of a table: of a block that was closed every part is balanced |
| DdlSplitter.SplitIsUnique | src/stonefold_registry_gen/sql.py:53-69 | only one splitting has those properties |
| DdlSplitter.SplitColumns | src/stonefold_registry_gen/sql.py:53-70 | strip and filter of that splitting |
| DdlSplitter.StripTakesTheFrame | src/stonefold_registry_gen/sql.py:53-70 | stripping takes the blanks at both ends and nothing else |
| DdlSplitter.PartsAreCleanedInOrder | src/stonefold_registry_gen/sql.py:53-70 | the columns are the stripped parts in order |
| DdlSplitter.ReadTable | src/stonefold_registry_gen/sql.py:40-70 | a table written out, whatever stands around it, gives back its columns whole and in order |
| StoreObjects.Outbox.Stage | src/stonefold_core/outbox.py:343-369 | a staged row gets a fresh ticket; a failed call stages nothing, a lost answer stages it unseen |
| StoreObjects.Outbox.ListHeld | src/stonefold_core/outbox.py:373-373 | the held rows in stage order |
| StoreObjects.Outbox.BumpAttempts | src/stonefold_core/outbox.py:414-418 | one more attempt on an open held row, and nothing on a settled one |
| StoreObjects.ObligationStore.Reserve | src/stonefold_core/obligation.py:133-145 | reserve, idempotent per ref and intent |
| StoreObjects.ObligationStore.Release | src/stonefold_core/obligation.py:133-145 | release frees the holder's own reservation and nothing else |
| StoreObjects.ObligationStore.Consume | src/stonefold_core/obligation.py:133-145 | consume, idempotent per ref and intent, refused to any other |
| StoreObjects.AuditSink.Write | src/stonefold_core/audit.py:50-65 | the sink appends |
| StoreObjects.AdvisoryAudit.Write | src/stonefold_core/pipeline.py:274-320 | the wrapper stamps its current fields on every record it passes on |
| StoreObjects.StampedOnTheWay | src/stonefold_core/pipeline.py:274-320 | a record stamped on its way is the one the specification writes |
| Deployments.Deployment.Terminal | src/stonefold_core/pipeline.py:1661-1711 | one record and one result, as specified |
| Deployments.Deployment.ClaimEvidence | src/stonefold_core/obligation.py:193-211 | the first consumable match in the trace |
| Deployments.Deployment.Reserve | src/stonefold_core/pipeline.py:1520-1555 | a fresh intent, the adapter call, and its three answers |
| Deployments.Deployment.Release | src/stonefold_core/pipeline.py:1558-1573 | best-effort release |
| Deployments.Deployment.Consume | src/stonefold_core/pipeline.py:1576-1595 | consume and what the record says of it |
| Deployments.Deployment.FindDuplicateHold | src/stonefold_core/pipeline.py:1487-1517 | the duplicate search |
| Deployments.Deployment.StageOne | src/stonefold_core/pipeline.py:1286-1336 | expiry, reservation, staging, release on failure, record, in the world of the specification; `StagedRows.CommitStages` says what row that is |
| Deployments.Deployment.CommitHeld | src/stonefold_core/pipeline.py:1254-1345 | collapse into an open duplicate, else stage |
| Deployments.Deployment.Inline | src/stonefold_core/pipeline.py:1408-1479 | reserve, execute, consume, and the degraded paths |
| Deployments.Deployment.Measure | src/stonefold_core/pipeline.py:123-160 | the scope measurement loop |
| Deployments.Deployment.CommitOne | src/stonefold_core/pipeline.py:1211-1484 | steps 6 and 7 of one operation |
| Deployments.Deployment.EnforceAsOne | src/stonefold_core/pipeline.py:356-424 | one call decided and committed as a unit, in either mode, as the specification does; `Verdicts.AllowedExactly` and its neighbours say what it decides |
| Deployments.Deployment.Serve | src/stonefold_core/pipeline.py:356-424 | the single-call entry point |
| Deployments.Deployment.DecideEach | src/stonefold_core/pipeline.py:623-635 | every item is decided before any is settled |
| Deployments.Deployment.SettleEach | src/stonefold_core/pipeline.py:646-683 | refused and held items one by one, the wrapper told each item's advice before its record |
| Deployments.Deployment.ApplyMerged | src/stonefold_core/pipeline.py:684-735 | template, subset and the call-level advice of the merged commit |
| Deployments.Deployment.ServeFanOut | src/stonefold_core/pipeline.py:523-778 | the fan-out |
| Deployments.Deployment.ServeOverCeiling | src/stonefold_core/pipeline.py:579-621 | over the ceiling: one refusal, or under advisory one forwarded unit |
| Deployments.Deployment.ReserveEach | src/stonefold_core/pipeline.py:918-934 | the pre-pass writes claims into the operations in place and stops at the first refusal |
| Deployments.Deployment.CommitEach | src/stonefold_core/pipeline.py:974-985 | commits in submission order |
| Deployments.Deployment.ServeBatch | src/stonefold_core/pipeline.py:781-1001 | the batch entry point, in either mode |
| Deployments.Deployment.ServeAdvised | src/stonefold_core/pipeline.py:1004-1065 | an advised batch: every operation carries its own advice and the batch's |
| DeploymentRuns.ServeAll | src/stonefold_core/pipeline.py:356-424 | serving any traffic leaves the specification's run, and settled accounts settled |

## Left out

- The free-text `reason` of gate results and release contracts' rendered dictionaries, audit ids and timestamps,
  receipts of consumed reservations, and the redaction of feedback for the agent: no decision reads them.
- `ApprovalSpec` and rows without contracts, the shapes kept for rows staged before release contracts existed. A row
  without contracts is refused by `Release.Apply` where the source synthesises a contract; `GateEngine` shows that a
  HOLD always carries at least one contract. The `approvals` mirror of credited identities is not kept.
- The dispatch worker, the in-memory and database stores, sliding-window counters and freshness sources are not part of
  this model. Rate, quota and spend gates are arbitrary functions of the call, so nothing is claimed about limits. The
  worker appears only as row steps: moves between states, one settle, and one sweep that releases; its re-check of a
  reservation at dispatch, and a registry's own expiry of a live reservation, are not modelled.
- `ReservationLife.Later`: a row is settled or swept at most once, which the source leaves to the stores' transactions.
- Content hooks, regular expressions, digests, schema validation, `reads` checks and the small stateless gates are
  arbitrary functions; only the gates the closure check and `requireMatch` need are spelled out.
- Rules and gate names are a closed list; a host-registered gate's own rule text is not modelled.
- Characters are ASCII: letters, digits and white space beyond it are not classified as the source's `str` methods would.
- Numbers in conditions are exact reals: rounding, infinities and not-a-number values of `float` are not modelled. A
  literal keeps its text. The `OverflowError` of an integer beyond the range of `float` in a comparison is among these.
  The digit limit of `int` is the interpreter's default.
- The linter's other checks, and what `standing` grants do once loaded.
- `ModesAgree.AllowedBatchAlike`: one way only, for batches that plan no reservation; with reservations the identifiers
  the two modes draw differ, and `ModesAgree.ReservingBatchDiffers` shows that more can.
- `HoldDedupe.RunKeepsQueue`: the deployment's stores answer and every request carries a clock, since without either
  the source does not search for duplicates.
- `ReservationRuns.BatchLeaksExactly`: for a hold with a planned claim that is searched for in the queue the condition is
  necessary and not sufficient. `CollapsedClaims.SearchedBatchLeaksExactly` is exact there when the stores answer and the
  operations carry one time; for other batches `ReservationRuns.BatchLeaksUnreached` is, in terms of the commits.
- `HoldAnswers.CallAnswered`: like `HoldDedupe.RunKeepsQueue`, of deployments whose stores answer and requests with a clock.
- The text of a problem the static check reports, and of a parse error.
- `MatchSoundness.SelectorNeverFails`: a host function asked twice in one decision gives one answer.
- `Deployments.Deployment.DecideNow`: deciding computes a value in the source too, so the method calls the
  specification's `Decide` rather than repeating it.
- Recursion limits of the source's interpreter, which end very deep conditions with an error.
