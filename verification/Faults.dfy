/** What each store call does and answers, down each of the three ways a call can go. */
module Faults {
  import opened Vocabulary
  import opened Stores

  predicate Acts(w: World, outside: Outside) {
    outside.fault(w.calls) != FailsBefore
  }

  predicate IsAnswered(w: World, outside: Outside) {
    outside.fault(w.calls) == Answers
  }

  /** One call, to one line of one registry; what went unanswered is noted. */
  ghost predicate TouchesLine(w: World, w': World, outside: Outside, key: Key, intent: nat) {
    && w' == w.(calls := w.calls + 1, lines := w'.lines, orphans := w'.orphans)
    && w'.orphans == (if IsAnswered(w, outside) then w.orphans else w.orphans + {intent})
    && forall other | other != key :: LineAt(w', other) == LineAt(w, other)
  }

  /** A reservation takes a free line and no other, and is granted exactly when the intent then holds the line. */
  lemma ReserveTells(w: World, outside: Outside, key: Key, intent: nat)
    ensures var (w', answer) := AdapterReserve(w, outside, key, intent);
      var before, after := LineAt(w, key), LineAt(w', key);
      && TouchesLine(w, w', outside, key, intent)
      && after == (if Acts(w, outside) && before == Free then Reserved(intent) else before)
      && (answer == Unanswered <==> !IsAnswered(w, outside))
      && (answer == Granted <==> IsAnswered(w, outside) && after == Reserved(intent))
  {
  }

  /** A release frees the line of its holder only. */
  lemma ReleaseTells(w: World, outside: Outside, key: Key, intent: nat)
    ensures var w' := AdapterRelease(w, outside, key, intent);
      && TouchesLine(w, w', outside, key, intent)
      && LineAt(w', key) == if Acts(w, outside) && LineAt(w, key) == Reserved(intent) then Free else LineAt(w, key)
  {
  }

  /** Consuming spends a line that is free or held by the intent, and is granted exactly when the intent then has spent it. */
  lemma ConsumeTells(w: World, outside: Outside, key: Key, intent: nat)
    ensures var (w', answer) := AdapterConsume(w, outside, key, intent);
      var before, after := LineAt(w, key), LineAt(w', key);
      && TouchesLine(w, w', outside, key, intent)
      && after == (if Acts(w, outside) && (before == Free || before == Reserved(intent)) then Consumed(intent) else before)
      && (answer == Unanswered <==> !IsAnswered(w, outside))
      && (answer == Granted <==> IsAnswered(w, outside) && after == Consumed(intent))
  {
  }

  /** A staged row comes last under the next identifier; unanswered, it is there all the same if the call took effect. */
  lemma StageTells(w: World, outside: Outside, row: Row)
    ensures var (w', ticket) := Stage(w, outside, row);
      && w' == w.(calls := w.calls + 1, rows := w'.rows, nextId := w'.nextId, lost := w'.lost)
      && (ticket.Some? <==> IsAnswered(w, outside)) && (ticket.Some? ==> ticket.value == w.nextId)
      && (!Acts(w, outside) ==> w'.rows == w.rows && w'.nextId == w.nextId && w'.lost == w.lost)
      && (Acts(w, outside) ==>
            && w'.rows == w.rows + [row.(ticket := w.nextId)] && w'.nextId == w.nextId + 1
            && w'.lost == if ticket.Some? then w.lost else w.lost + {w.nextId})
  {
  }

  ghost predicate HeldOnly(held: seq<Row>, rows: seq<Row>)
    decreases |rows|
  {
    if rows == [] then held == []
    else if rows[0].state != PendingApproval then HeldOnly(held, rows[1..])
    else held != [] && held[0] == rows[0] && HeldOnly(held[1..], rows[1..])
  }

  lemma {:induction false} HeldInOrder(rows: seq<Row>)
    ensures HeldOnly(HeldRows(rows), rows)
    decreases |rows|
  {
    if rows != [] {
      HeldInOrder(rows[1..]);
      if rows[0].state == PendingApproval {
        assert ([rows[0]] + HeldRows(rows[1..]))[1..] == HeldRows(rows[1..]);
      } else {
        assert [] + HeldRows(rows[1..]) == HeldRows(rows[1..]);
      }
    }
  }

  /** The listing shows the rows awaiting approval in the order they were staged. */
  lemma ListTells(w: World, outside: Outside)
    ensures var (w', held) := ListHeld(w, outside);
      && w' == w.(calls := w.calls + 1)
      && (held.Some? <==> IsAnswered(w, outside)) && (held.Some? ==> HeldOnly(held.value, w.rows))
  {
    HeldInOrder(w.rows);
  }

  /** One attempt more on the first row of that ticket while it awaits approval, and nothing else. */
  lemma BumpTells(w: World, outside: Outside, ticket: nat, at: nat)
    requires at < |w.rows| && w.rows[at].ticket == ticket && forall i | 0 <= i < at :: w.rows[i].ticket != ticket
    ensures var (w', ok) := BumpAttempts(w, outside, ticket);
      var open := w.rows[at].state == PendingApproval;
      && (ok <==> IsAnswered(w, outside) && open)
      && w' == w.(calls := w.calls + 1, rows := w'.rows)
      && (!Acts(w, outside) || !open ==> w'.rows == w.rows)
      && (Acts(w, outside) && open ==>
            && |w'.rows| == |w.rows| && w'.rows[at] == w.rows[at].(attempts := w.rows[at].attempts + 1)
            && forall i | 0 <= i < |w.rows| && i != at :: w'.rows[i] == w.rows[i])
  {
  }

  lemma BumpsNothing(w: World, outside: Outside, ticket: nat)
    requires forall i | 0 <= i < |w.rows| :: w.rows[i].ticket != ticket
    ensures BumpAttempts(w, outside, ticket) == (w.(calls := w.calls + 1), false)
  {
  }

  /** A read or write runs unless the call failed before it, and its output comes with the answer. */
  lemma ExecuteTells(w: World, outside: Outside, run: Execution)
    ensures var (w', output) := Execute(w, outside, run);
      && w' == w.(calls := w.calls + 1, executed := w'.executed)
      && w'.executed == (if Acts(w, outside) then w.executed + [run] else w.executed)
      && output == if IsAnswered(w, outside) then Some(outside.output(w.calls, run.resolved, run.scope)) else None
  {
  }
}
