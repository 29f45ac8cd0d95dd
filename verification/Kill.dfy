/** The kill switch: durable orders matched at the chokepoint. */
module Kill {
  import opened Vocabulary

  datatype Scope =
    | Global
    | Agent(agent: string)
    | InSession(session: string)
    | ActionClass(kind: Option<Kind>, resource: Option<string>, action: Option<string>)

  datatype Order = Order(id: string, scope: Scope, predicate_: Option<string>, active: bool)

  /** The projection of an attempted action that orders match against; the pre-check's is unresolved. */
  datatype Target = Target(agent: string, session: string, resolved: Option<ResolvedAction>, actor: Option<Actor>)

  predicate ScopeMatches(scope: Scope, target: Target) {
    match scope
    case Global => true
    case Agent(agent) => agent == target.agent
    case InSession(session) => session == target.session
    case ActionClass(kind, resource, action) =>
      && (kind.Some? ==> target.resolved.Some? && target.resolved.value.kind == kind.value)
      && (resource.Some? ==> target.resolved.Some? && target.resolved.value.resource == resource.value)
      && (action.Some? ==> target.resolved.Some? && target.resolved.value.action == action)
  }

  /** `eval` answers a predicate's value, or None when it cannot be parsed or evaluated: then the order matches. */
  predicate OrderMatches(order: Order, target: Target, eval: (string, Target) -> Option<bool>) {
    && order.active
    && ScopeMatches(order.scope, target)
    && (order.predicate_.None? || eval(order.predicate_.value, target) != Some(false))
  }

  /** The first active order halting `target`, in issue order. */
  function FirstMatch(orders: seq<Order>, target: Target, eval: (string, Target) -> Option<bool>): Option<Order> {
    if orders == [] then None
    else if OrderMatches(orders[0], target, eval) then Some(orders[0])
    else FirstMatch(orders[1..], target, eval)
  }

  /** Some order halts the target exactly when the scan finds one, and it finds the earliest. */
  lemma {:induction false} FirstMatchIsFirst(orders: seq<Order>, target: Target, eval: (string, Target) -> Option<bool>)
    ensures FirstMatch(orders, target, eval).Some? <==> exists i :: 0 <= i < |orders| && OrderMatches(orders[i], target, eval)
    ensures FirstMatch(orders, target, eval).Some? ==>
      exists i :: 0 <= i < |orders| && FirstMatch(orders, target, eval) == Some(orders[i])
        && OrderMatches(orders[i], target, eval)
        && forall j | 0 <= j < i :: !OrderMatches(orders[j], target, eval)
  {
    if orders == [] {
    } else if OrderMatches(orders[0], target, eval) {
      assert FirstMatch(orders, target, eval) == Some(orders[0]);
    } else {
      var rest := orders[1..];
      FirstMatchIsFirst(rest, target, eval);
      if FirstMatch(rest, target, eval).Some? {
        var i :| 0 <= i < |rest| && FirstMatch(rest, target, eval) == Some(rest[i])
          && OrderMatches(rest[i], target, eval)
          && forall j | 0 <= j < i :: !OrderMatches(rest[j], target, eval);
        assert orders[i + 1] == rest[i];
        forall j | 0 <= j < i + 1 ensures !OrderMatches(orders[j], target, eval) {
          if j > 0 { assert orders[j] == rest[j - 1]; }
        }
      } else {
        forall i | 0 <= i < |orders| ensures !OrderMatches(orders[i], target, eval) {
          if i > 0 { assert orders[i] == rest[i - 1]; }
        }
      }
    }
  }

  /**
   * Against the unresolved pre-check target an action-class order matches exactly
   * when it fixes no facet at all, the shape the source's own constructor refuses to build.
   */
  lemma PreCheckActionClass(scope: Scope, agent: string, session: string)
    requires scope.ActionClass?
    ensures ScopeMatches(scope, Target(agent, session, None, None)) <==>
      scope == ActionClass(None, None, None)
  {
  }

  /** A fixed facet that the action does not have. */
  ghost predicate Disagrees(scope: Scope, action: ResolvedAction)
    requires scope.ActionClass?
  {
    || (exists kind :: scope.kind == Some(kind) && kind != action.kind)
    || (exists resource :: scope.resource == Some(resource) && resource != action.resource)
    || (exists name :: scope.action == Some(name) && action.action != Some(name))
  }

  /** Against a resolved action an order of any scope: everything, one agent, one session, or a class by its facets. */
  lemma ScopeOnResolved(scope: Scope, target: Target)
    requires target.resolved.Some?
    ensures ScopeMatches(scope, target) <==>
      match scope
      case Global => true
      case Agent(agent) => target.agent == agent
      case InSession(session) => target.session == session
      case ActionClass(_, _, _) => !Disagrees(scope, target.resolved.value)
  {
    if scope.ActionClass? {
      var action := target.resolved.value;
      if kind :| scope.kind == Some(kind) && kind != action.kind {
      }
      if resource :| scope.resource == Some(resource) && resource != action.resource {
      }
      if name :| scope.action == Some(name) && action.action != Some(name) {
      }
    }
  }

  /** An order that was lifted halts nothing, and one with a condition halts unless the condition is known to be false. */
  lemma OrderExactly(order: Order, target: Target, eval: (string, Target) -> Option<bool>)
    ensures !order.active || !ScopeMatches(order.scope, target) ==> !OrderMatches(order, target, eval)
    ensures order.active && ScopeMatches(order.scope, target) ==>
      match order.predicate_
      case None => OrderMatches(order, target, eval)
      case Some(condition) => OrderMatches(order, target, eval) <==> eval(condition, target).None? || eval(condition, target).value
  {
  }
}
