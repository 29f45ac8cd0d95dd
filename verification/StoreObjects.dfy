/** The injected stores and the audit sink as the objects they are, each method tied to its step in `Stores`. */
module StoreObjects {
  import opened Vocabulary
  import opened Stores
  import opened Pipeline

  /** What every dependency call consumes: a turn of the fault schedule, and fresh identifiers. */
  class Surroundings {
    const outside: Outside
    var calls: nat
    var nextId: nat

    constructor (outside: Outside)
      ensures this.outside == outside && calls == 0 && nextId == 0
    {
      this.outside := outside;
      calls, nextId := 0, 0;
    }

    method NextCall() returns (fault: Fault)
      modifies this`calls
      ensures calls == old(calls) + 1 && fault == outside.fault(old(calls))
    {
      fault := outside.fault(calls);
      calls := calls + 1;
    }

    method FreshId() returns (id: nat)
      modifies this`nextId
      ensures id == old(nextId) && nextId == old(nextId) + 1
    {
      id := nextId;
      nextId := nextId + 1;
    }
  }

  class Outbox {
    var rows: seq<Row>
    ghost var lost: set<nat>

    constructor ()
      ensures rows == [] && lost == {}
    {
      rows, lost := [], {};
    }

    method Stage(row: Row, at: Surroundings) returns (ticket: Option<nat>)
      modifies this, at
      ensures var fault := at.outside.fault(old(at.calls));
        && at.calls == old(at.calls) + 1
        && if fault == FailsBefore then rows == old(rows) && lost == old(lost) && at.nextId == old(at.nextId) && ticket == None
           else
             && rows == old(rows) + [row.(ticket := old(at.nextId))] && at.nextId == old(at.nextId) + 1
             && lost == (if fault == LosesAnswer then old(lost) + {old(at.nextId)} else old(lost))
             && ticket == if fault == LosesAnswer then None else Some(old(at.nextId))
    {
      var fault := at.NextCall();
      if fault == FailsBefore { return None; }
      var id := at.FreshId();
      rows := rows + [row.(ticket := id)];
      if fault == LosesAnswer {
        lost := lost + {id};
        return None;
      }
      return Some(id);
    }

    /** The held rows in stage order. */
    method ListHeld(at: Surroundings) returns (held: Option<seq<Row>>)
      modifies at`calls
      ensures at.calls == old(at.calls) + 1
      ensures held == if at.outside.fault(old(at.calls)) == Answers then Some(HeldRows(rows)) else None
    {
      var fault := at.NextCall();
      if fault != Answers { return None; }
      var found := Held(rows);
      return Some(found);
    }

    static method Held(rows: seq<Row>) returns (found: seq<Row>)
      ensures found == HeldRows(rows)
    {
      found := [];
      assert rows[0..] == rows && [] + HeldRows(rows) == HeldRows(rows);
      for i := 0 to |rows|
        invariant HeldRows(rows) == found + HeldRows(rows[i..])
      {
        HeldFrom(rows, i, found);
        if rows[i].state == PendingApproval {
          found := found + [rows[i]];
        }
      }
      assert rows[|rows|..] == [] && found + [] == found;
    }

    static lemma HeldFrom(rows: seq<Row>, i: nat, found: seq<Row>)
      requires i < |rows|
      ensures found + HeldRows(rows[i..])
           == (if rows[i].state == PendingApproval then found + [rows[i]] else found) + HeldRows(rows[i + 1..])
    {
      assert rows[i..][1..] == rows[i + 1..];
    }

    method BumpAttempts(ticket: nat, at: Surroundings) returns (ok: bool)
      modifies this`rows, at`calls
      ensures at.calls == old(at.calls) + 1
      ensures var fault := at.outside.fault(old(at.calls)); var i := RowIndex(old(rows), ticket);
        if fault == FailsBefore || i == |old(rows)| || old(rows)[i].state != PendingApproval
        then rows == old(rows) && !ok
        else rows == old(rows)[i := old(rows)[i].(attempts := old(rows)[i].attempts + 1)] && ok == (fault == Answers)
    {
      var fault := at.NextCall();
      if fault == FailsBefore { return false; }
      var i := 0;
      while i < |rows| && rows[i].ticket != ticket
        invariant 0 <= i <= |rows|
        invariant forall k | 0 <= k < i :: rows[k].ticket != ticket
      {
        i := i + 1;
      }
      if i == |rows| || rows[i].state != PendingApproval { return false; }
      rows := rows[i := rows[i].(attempts := rows[i].attempts + 1)];
      return fault == Answers;
    }
  }

  /** Every obligation registry's lines, keyed by registry and ref. */
  class ObligationStore {
    var lines: map<Key, Line>
    ghost var orphans: set<nat>
    ghost var discharged: set<nat>

    constructor ()
      ensures lines == map[] && orphans == {} && discharged == {}
    {
      lines, orphans, discharged := map[], {}, {};
    }

    function At(key: Key): Line
      reads this`lines
    {
      if key in lines then lines[key] else Free
    }

    method Reserve(key: Key, intent: nat, at: Surroundings) returns (answer: Answer)
      modifies this`lines, this`orphans, at`calls
      ensures at.calls == old(at.calls) + 1
      ensures var fault := at.outside.fault(old(at.calls)); var (line, granted) := ReserveLine(old(At(key)), intent);
        && lines == (if fault == FailsBefore then old(lines) else old(lines)[key := line])
        && orphans == (if fault == Answers then old(orphans) else old(orphans) + {intent})
        && answer == if fault != Answers then Unanswered else if granted then Granted else Declined
    {
      var fault := at.NextCall();
      if fault != Answers { orphans := orphans + {intent}; }
      if fault == FailsBefore { return Unanswered; }
      var line := At(key);
      var granted := line == Free || line == Reserved(intent);
      lines := lines[key := if line == Free then Reserved(intent) else line];
      return if fault == LosesAnswer then Unanswered else if granted then Granted else Declined;
    }

    method Release(key: Key, intent: nat, at: Surroundings)
      modifies this`lines, this`orphans, at`calls
      ensures at.calls == old(at.calls) + 1
      ensures var fault := at.outside.fault(old(at.calls));
        && lines == (if fault == FailsBefore then old(lines) else old(lines)[key := ReleaseLine(old(At(key)), intent)])
        && orphans == (if fault == Answers then old(orphans) else old(orphans) + {intent})
    {
      var fault := at.NextCall();
      if fault != Answers { orphans := orphans + {intent}; }
      if fault != FailsBefore {
        lines := lines[key := if At(key) == Reserved(intent) then Free else At(key)];
      }
    }

    method Consume(key: Key, intent: nat, at: Surroundings) returns (answer: Answer)
      modifies this`lines, this`orphans, at`calls
      ensures at.calls == old(at.calls) + 1
      ensures var fault := at.outside.fault(old(at.calls)); var (line, granted) := ConsumeLine(old(At(key)), intent);
        && lines == (if fault == FailsBefore then old(lines) else old(lines)[key := line])
        && orphans == (if fault == Answers then old(orphans) else old(orphans) + {intent})
        && answer == if fault != Answers then Unanswered else if granted then Granted else Declined
    {
      var fault := at.NextCall();
      if fault != Answers { orphans := orphans + {intent}; }
      if fault == FailsBefore { return Unanswered; }
      var line := At(key);
      var fits := line == Free || line == Reserved(intent);
      lines := lines[key := if fits then Consumed(intent) else line];
      var granted := fits || line == Consumed(intent);
      return if fault == LosesAnswer then Unanswered else if granted then Granted else Declined;
    }
  }

  class Connector {
    var executed: seq<Execution>

    constructor ()
      ensures executed == []
    {
      executed := [];
    }

    method Run(run: Execution, at: Surroundings) returns (output: Option<Value>)
      modifies this, at`calls
      ensures at.calls == old(at.calls) + 1
      ensures var fault := at.outside.fault(old(at.calls));
        && executed == (if fault == FailsBefore then old(executed) else old(executed) + [run])
        && output == if fault == Answers then Some(at.outside.output(old(at.calls), run.resolved, run.scope)) else None
    {
      var turn := at.calls;
      var fault := at.NextCall();
      if fault == FailsBefore { return None; }
      executed := executed + [run];
      return if fault == LosesAnswer then None else Some(at.outside.output(turn, run.resolved, run.scope));
    }
  }

  class AuditSink {
    var records: seq<AuditRecord>

    constructor ()
      ensures records == []
    {
      records := [];
    }

    method Write(record: AuditRecord)
      modifies this
      ensures records == old(records) + [record]
    {
      records := records + [record];
    }
  }

  function Restamped(record: AuditRecord, s: Stamp): AuditRecord {
    var f := record.finding;
    AuditRecord(
      record.subject,
      f.(rule := if s.advice.Some? && f.decision == Decision.Allow then s.advice.value.rule else f.rule),
      LabelOf(Some(s)))
  }

  /** Wraps a sink; its fields are set before a write and stamped onto every record written through it. */
  class AdvisoryAudit {
    const inner: AuditSink
    var advice: Option<Advice>
    var coverage: Coverage
    var batchAdvice: Option<BatchAdvice>
    var itemAdvice: Option<ItemAdvice>

    constructor (inner: AuditSink)
      ensures this.inner == inner && Current() == Stamp(None, Judged, None, None)
    {
      this.inner := inner;
      advice, coverage, batchAdvice, itemAdvice := None, Judged, None, None;
    }

    function Current(): Stamp
      reads this
    {
      Stamp(advice, coverage, batchAdvice, itemAdvice)
    }

    method Write(record: AuditRecord)
      modifies inner
      ensures inner.records == old(inner.records) + [Restamped(record, Current())]
    {
      inner.Write(Restamped(record, Current()));
    }
  }

  function StampOf(advisory: AdvisoryAudit?): Option<Stamp>
    reads advisory
  {
    if advisory == null then None else Some(advisory.Current())
  }

  /** A record stamped on its way to the sink is the record the specification writes. */
  lemma StampedOnTheWay(j: Job, d: Decided, c: Closing, reason: Reason)
    ensures var plain := RecordOf(j.(stamp := None), d, c, reason);
      RecordOf(j, d, c, reason) == if j.stamp.Some? then Restamped(plain, j.stamp.value) else plain
  {
  }
}
