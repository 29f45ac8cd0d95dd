/**
 * Reservation accounting: who holds each reserved obligation line, and that none is spent twice.
 *
 * `hand` is the set of claims already reserved whose commit has not placed them yet.
 */
module Conservation {
  import opened Vocabulary
  import opened Stores
  import opened Holds
  import opened Pipeline

  // ---- the invariant -----------------------------------------------------------

  ghost predicate HasClaim(w: World, i: int) {
    0 <= i < |w.rows| && w.rows[i].obligation.Some?
  }

  ghost function ClaimAt(w: World, i: int): Claim
    requires HasClaim(w, i)
  {
    w.rows[i].obligation.value
  }

  /** The row still answers for its reservation: its staging was answered and no settlement discharged it. */
  ghost predicate Keeps(w: World, i: int) {
    HasClaim(w, i) && w.rows[i].ticket !in w.lost && w.rows[i].ticket !in w.discharged
  }

  ghost predicate InHand(hand: set<Claim>, key: Key, intent: nat) {
    exists c :: c in hand && KeyOf(c) == key && c.intent == intent
  }

  ghost predicate OnRow(w: World, key: Key, intent: nat) {
    exists i :: Keeps(w, i) && KeyOf(ClaimAt(w, i)) == key && ClaimAt(w, i).intent == intent
  }

  /** Identifiers are fresh, so no two claims and no two rows share one. */
  ghost predicate Distinct(w: World, hand: set<Claim>) {
    && (forall i | HasClaim(w, i) :: ClaimAt(w, i).intent < w.nextId)
    && (forall i, j | HasClaim(w, i) && HasClaim(w, j) && i != j :: ClaimAt(w, i).intent != ClaimAt(w, j).intent)
    && (forall c | c in hand :: c.intent < w.nextId)
    && (forall c, e | c in hand && e in hand && c.intent == e.intent :: c == e)
    && (forall i, c | Keeps(w, i) && c in hand :: ClaimAt(w, i).intent != c.intent)
    && (forall i | 0 <= i < |w.rows| :: w.rows[i].ticket < w.nextId)
    && (forall i, j | 0 <= i < |w.rows| && 0 <= j < |w.rows| && i != j :: w.rows[i].ticket != w.rows[j].ticket)
    && (forall t | t in w.lost :: t < w.nextId)
    && (forall t | t in w.discharged :: t < w.nextId)
    && (forall n | n in w.orphans :: n < w.nextId)
  }

  /**
   * Every claim that is held is a live reservation of its own line, and not one whose call went unanswered;
   * no row's claim is spent before the row is settled.
   */
  ghost predicate Live(w: World, hand: set<Claim>) {
    && (forall c | c in hand :: LineAt(w, KeyOf(c)) == Reserved(c.intent) && c.intent !in w.orphans)
    && (forall i | Keeps(w, i) ::
          LineAt(w, KeyOf(ClaimAt(w, i))) == Reserved(ClaimAt(w, i).intent) && ClaimAt(w, i).intent !in w.orphans)
    && (forall i | HasClaim(w, i) && w.rows[i].ticket !in w.discharged ::
          LineAt(w, KeyOf(ClaimAt(w, i))) != Consumed(ClaimAt(w, i).intent))
  }

  /** Nothing dangles: a reserved line is in hand, on a row, or its adapter call went unanswered. */
  ghost predicate Owned(w: World, hand: set<Claim>) {
    forall key | LineAt(w, key).Reserved? ::
      var n := LineAt(w, key).intent;
      n < w.nextId && (n in w.orphans || InHand(hand, key, n) || OnRow(w, key, n))
  }

  ghost predicate Spends(record: AuditRecord) {
    record.finding.consumption.Some? && record.finding.consumption.value.state == ClaimConsumed
  }

  ghost function Spent(record: AuditRecord): Claim
    requires Spends(record)
  {
    record.finding.consumption.value.claim
  }

  /** A line is reported consumed at most once, and then it is consumed by that very intent. */
  ghost predicate SpentOnce(w: World) {
    && (forall i | 0 <= i < |w.audit| && Spends(w.audit[i]) ::
          LineAt(w, KeyOf(Spent(w.audit[i]))) == Consumed(Spent(w.audit[i]).intent))
    && (forall i, j | 0 <= i < j < |w.audit| && Spends(w.audit[i]) && Spends(w.audit[j]) ::
          KeyOf(Spent(w.audit[i])) != KeyOf(Spent(w.audit[j])))
  }

  /** A row whose staging answer was lost never shares an intent with a claim in hand. */
  ghost predicate Apart(w: World, hand: set<Claim>) {
    forall i, c | HasClaim(w, i) && c in hand :: ClaimAt(w, i).intent != c.intent
  }

  ghost predicate Accounted(w: World, hand: set<Claim>) {
    Distinct(w, hand) && Live(w, hand) && Owned(w, hand) && SpentOnce(w)
  }

  ghost predicate Conserved(w: World, hand: set<Claim>) {
    Accounted(w, hand) && Apart(w, hand)
  }

  // ---- what the invariant says ---------------------------------------------------

  /** Two rows that still hold their reservations never claim one obligation. */
  lemma OneRowPerRef(w: World, hand: set<Claim>, i: int, j: int)
    requires Conserved(w, hand) && Keeps(w, i) && Keeps(w, j)
    requires KeyOf(ClaimAt(w, i)) == KeyOf(ClaimAt(w, j))
    ensures i == j
  {
    assert LineAt(w, KeyOf(ClaimAt(w, i))) == Reserved(ClaimAt(w, i).intent);
    assert LineAt(w, KeyOf(ClaimAt(w, j))) == Reserved(ClaimAt(w, j).intent);
  }

  /** With nothing in hand, a reserved line has exactly one holding row or an unanswered call. */
  lemma ReservedMeansHeld(w: World, key: Key)
    requires Conserved(w, {}) && LineAt(w, key).Reserved? && LineAt(w, key).intent !in w.orphans
    ensures exists i :: (
      && Keeps(w, i) && KeyOf(ClaimAt(w, i)) == key && ClaimAt(w, i).intent == LineAt(w, key).intent
      && forall j | Keeps(w, j) && KeyOf(ClaimAt(w, j)) == key :: j == i)
  {
    var n := LineAt(w, key).intent;
    assert !InHand({}, key, n);
    assert OnRow(w, key, n);
    var i :| Keeps(w, i) && KeyOf(ClaimAt(w, i)) == key && ClaimAt(w, i).intent == n;
    forall j | Keeps(w, j) && KeyOf(ClaimAt(w, j)) == key ensures j == i {
      OneRowPerRef(w, {}, i, j);
    }
  }

  // ---- store calls -----------------------------------------------------------------

  /** Rows, accounts and records untouched; lines may differ only where the caller says. */
  ghost predicate SameRows(w: World, w': World) {
    && w'.rows == w.rows && w'.lost == w.lost && w'.discharged == w.discharged
    && w'.audit == w.audit && w.nextId <= w'.nextId
  }

  lemma KeepsSame(w: World, w': World)
    requires SameRows(w, w')
    ensures forall i :: HasClaim(w', i) <==> HasClaim(w, i)
    ensures forall i :: Keeps(w', i) <==> Keeps(w, i)
    ensures forall i | HasClaim(w, i) :: ClaimAt(w', i) == ClaimAt(w, i)
    ensures forall key, n | OnRow(w, key, n) :: OnRow(w', key, n)
  {
    forall key, n | OnRow(w, key, n) ensures OnRow(w', key, n) {
      var i :| Keeps(w, i) && KeyOf(ClaimAt(w, i)) == key && ClaimAt(w, i).intent == n;
      assert Keeps(w', i) && ClaimAt(w', i) == ClaimAt(w, i);
    }
  }

  /** Calls that touch no line keep the accounts. */
  lemma Untouched(w: World, w': World, hand: set<Claim>)
    requires Conserved(w, hand) && SameRows(w, w') && w'.orphans == w.orphans
    requires forall key :: LineAt(w', key) == LineAt(w, key)
    ensures Conserved(w', hand)
  {
    KeepsSame(w, w');
  }

  /** A reservation puts exactly the new claim in hand, or, refused, changes no account. */
  lemma ReserveConserves(w: World, s: Setup, outside: Outside, plan: (string, string, ConsumePlan), hand: set<Claim>)
    requires Conserved(w, hand)
    ensures var (w', r) := ReserveClaim(w, s, outside, plan);
      && Conserved(w', if r.Held? then hand + {r.claim} else hand)
      && (r.Held? ==> s.adapters.Some? && r.claim.registry in s.adapters.value && r.claim !in hand)
      && w'.rows == w.rows && w'.executed == w.executed && w'.audit == w.audit
  {
    var (registry, ref, consume) := plan;
    if s.adapters.Some? && registry in s.adapters.value {
      var claim := Claim(registry, ref, consume.consume, consume.capability, w.nextId);
      AdapterReserves(w, outside, claim);
      var (w', answer) := AdapterReserve(w.(nextId := w.nextId + 1), outside, KeyOf(claim), claim.intent);
      if answer == Granted {
        assert LineAt(w, KeyOf(claim)) != Reserved(claim.intent);
        ReserveTakes(w, w', claim, hand);
      } else {
        ReserveRefused(w, w', claim, hand);
      }
    }
  }

  /** What one reserve call under a fresh intent does, as its caller sees it. */
  lemma AdapterReserves(w: World, outside: Outside, claim: Claim)
    requires claim.intent == w.nextId
    ensures var (w', answer) := AdapterReserve(w.(nextId := w.nextId + 1), outside, KeyOf(claim), claim.intent);
      var line, line' := LineAt(w, KeyOf(claim)), LineAt(w', KeyOf(claim));
      && NextIntent(w, w', claim) && w'.executed == w.executed
      && (answer == Granted ==>
            (line == Free || line == Reserved(claim.intent)) && line' == Reserved(claim.intent) && w'.orphans == w.orphans)
      && (answer != Granted ==>
            && (w'.orphans == w.orphans || w'.orphans == w.orphans + {claim.intent})
            && (line' == line || (line == Free && line' == Reserved(claim.intent) && claim.intent in w'.orphans)))
  {
  }

  ghost predicate NextIntent(w: World, w': World, claim: Claim) {
    && SameRows(w, w') && claim.intent == w.nextId && w'.nextId == w.nextId + 1
    && forall key | key != KeyOf(claim) :: LineAt(w', key) == LineAt(w, key)
  }

  lemma ReserveTakes(w: World, w': World, claim: Claim, hand: set<Claim>)
    requires Conserved(w, hand) && NextIntent(w, w', claim)
    requires LineAt(w, KeyOf(claim)) == Free && LineAt(w', KeyOf(claim)) == Reserved(claim.intent)
    requires w'.orphans == w.orphans
    ensures Conserved(w', hand + {claim}) && claim !in hand
  {
    KeepsSame(w, w');
    var hand' := hand + {claim};
    assert forall c | c in hand' :: c == claim || c in hand;
    assert Distinct(w', hand') && Apart(w', hand');
    forall i | Keeps(w, i) ensures KeyOf(ClaimAt(w, i)) != KeyOf(claim) {
      assert LineAt(w, KeyOf(ClaimAt(w, i))).Reserved?;
    }
    forall c | c in hand ensures KeyOf(c) != KeyOf(claim) {
      assert LineAt(w, KeyOf(c)).Reserved?;
    }
    assert Live(w', hand') && SpentOnce(w');
    forall key | LineAt(w', key).Reserved?
      ensures var n := LineAt(w', key).intent;
        n < w'.nextId && (n in w'.orphans || InHand(hand', key, n) || OnRow(w', key, n))
    {
      var n := LineAt(w', key).intent;
      if key == KeyOf(claim) {
        assert claim in hand';
      } else if InHand(hand, key, n) {
        var c :| c in hand && KeyOf(c) == key && c.intent == n;
        assert c in hand';
      }
    }
  }

  lemma ReserveRefused(w: World, w': World, claim: Claim, hand: set<Claim>)
    requires Conserved(w, hand) && NextIntent(w, w', claim)
    requires LineAt(w', KeyOf(claim)) == LineAt(w, KeyOf(claim))
      || (LineAt(w, KeyOf(claim)) == Free && LineAt(w', KeyOf(claim)) == Reserved(claim.intent) && claim.intent in w'.orphans)
    requires w'.orphans == w.orphans || w'.orphans == w.orphans + {claim.intent}
    ensures Conserved(w', hand)
  {
    KeepsSame(w, w');
    forall key | LineAt(w', key).Reserved?
      ensures var n := LineAt(w', key).intent;
        n < w'.nextId && (n in w'.orphans || InHand(hand, key, n) || OnRow(w', key, n))
    {
      if LineAt(w', key) == LineAt(w, key) {
        assert key != KeyOf(claim) || LineAt(w, key) == LineAt(w', key);
      }
    }
  }

  /** Giving a claim back takes it out of hand: its line is free again, or its call went unanswered. */
  lemma ReleaseAccounts(w: World, s: Setup, outside: Outside, claim: Claim, hand: set<Claim>)
    requires Accounted(w, hand) && claim in hand
    requires s.adapters.Some? && claim.registry in s.adapters.value
    ensures var w' := ReleaseClaim(w, s, outside, Some(claim));
      Accounted(w', hand - {claim}) && SameRows(w, w') && w'.executed == w.executed
  {
    var w' := AdapterRelease(w, outside, KeyOf(claim), claim.intent);
    KeepsSame(w, w');
    HandMinus(w, w', claim, hand);
  }

  /** When only `claim`'s line changed and it is no longer reserved by anyone unaccounted, the rest stays owned. */
  lemma HandMinus(w: World, w': World, claim: Claim, hand: set<Claim>)
    requires Accounted(w, hand) && claim in hand && SameRows(w, w')
    requires forall key | key != KeyOf(claim) :: LineAt(w', key) == LineAt(w, key)
    requires w'.orphans == w.orphans || w'.orphans == w.orphans + {claim.intent}
    requires LineAt(w', KeyOf(claim)).Reserved? ==>
      LineAt(w', KeyOf(claim)) == Reserved(claim.intent) && claim.intent in w'.orphans
    requires LineAt(w', KeyOf(claim)) == Consumed(claim.intent) ==> Apart(w, hand)
    requires LineAt(w', KeyOf(claim)).Consumed? ==> LineAt(w', KeyOf(claim)).intent == claim.intent
    ensures Accounted(w', hand - {claim})
  {
    KeepsSame(w, w');
    forall i | Keeps(w, i) ensures KeyOf(ClaimAt(w, i)) != KeyOf(claim) {
      assert LineAt(w, KeyOf(claim)) == Reserved(claim.intent);
      assert LineAt(w, KeyOf(ClaimAt(w, i))) == Reserved(ClaimAt(w, i).intent);
    }
    forall c | c in hand && c != claim ensures KeyOf(c) != KeyOf(claim) {
      assert LineAt(w, KeyOf(claim)) == Reserved(claim.intent);
      assert LineAt(w, KeyOf(c)) == Reserved(c.intent);
    }
    forall key | LineAt(w', key).Reserved?
      ensures var n := LineAt(w', key).intent;
        n < w'.nextId && (n in w'.orphans || InHand(hand - {claim}, key, n) || OnRow(w', key, n))
    {
      var n := LineAt(w', key).intent;
      if key != KeyOf(claim) && InHand(hand, key, n) {
        var c :| c in hand && KeyOf(c) == key && c.intent == n;
        assert c in hand - {claim};
      }
    }
    forall i | 0 <= i < |w.audit| && Spends(w.audit[i]) ensures KeyOf(Spent(w.audit[i])) != KeyOf(claim) {
      assert LineAt(w, KeyOf(claim)) == Reserved(claim.intent);
    }
  }

  /** No record reports this line consumed. */
  ghost predicate Unspent(w: World, key: Key) {
    forall i | 0 <= i < |w.audit| && Spends(w.audit[i]) :: KeyOf(Spent(w.audit[i])) != key
  }

  /** Spending a claim takes it out of hand, and its line has not been reported consumed before. */
  lemma ConsumeAccounts(w: World, s: Setup, outside: Outside, claim: Claim, hand: set<Claim>)
    requires Conserved(w, hand) && claim in hand
    requires s.adapters.Some? && claim.registry in s.adapters.value
    ensures var (w', note) := ConsumeClaim(w, s, outside, Some(claim));
      && Accounted(w', hand - {claim}) && SameRows(w, w') && w'.executed == w.executed
      && note.Some? && note.value.claim == claim && note.value.state != ClaimConsumeRefused
      && Unspent(w', KeyOf(claim))
      && (note.value.state == ClaimConsumed ==> LineAt(w', KeyOf(claim)) == Consumed(claim.intent))
  {
    var (w', _) := AdapterConsume(w, outside, KeyOf(claim), claim.intent);
    assert LineAt(w, KeyOf(claim)) == Reserved(claim.intent);
    HandMinus(w, w', claim, hand);
  }

  /** Staging an answered row moves its claim from the hand onto the row. */
  lemma StageConserves(w: World, outside: Outside, row: Row, hand: set<Claim>)
    requires Conserved(w, hand)
    requires row.obligation.Some? ==> row.obligation.value in hand
    ensures var (w', ticket) := Stage(w, outside, row);
      var claims := if row.obligation.Some? then {row.obligation.value} else {};
      && (ticket.Some? ==> Conserved(w', hand - claims))
      && (ticket.None? ==> Accounted(w', hand) && Apart(w', hand - claims))
      && w'.audit == w.audit && w'.executed == w.executed
  {
    var (w', ticket) := Stage(w, outside, row);
    if outside.fault(w.calls) == FailsBefore {
      Untouched(w, w', hand);
    } else {
      StagedRows(w, w', row.(ticket := w.nextId), ticket.Some?, hand);
    }
  }

  /** `w'` is `w` with one more row at the end, under the fresh ticket. */
  ghost predicate OneMoreRow(w: World, w': World, row: Row, answered: bool) {
    && row.ticket == w.nextId && w'.nextId == w.nextId + 1
    && w'.rows == w.rows + [row] && w'.lines == w.lines && w'.audit == w.audit
    && w'.orphans == w.orphans && w'.discharged == w.discharged
    && w'.lost == if answered then w.lost else w.lost + {row.ticket}
  }

  lemma KeepsMore(w: World, w': World, row: Row, answered: bool)
    requires OneMoreRow(w, w', row, answered)
    requires forall t | t in w.lost :: t < w.nextId
    requires forall t | t in w.discharged :: t < w.nextId
    requires forall i | 0 <= i < |w.rows| :: w.rows[i].ticket < w.nextId
    ensures forall i | i != |w.rows| :: HasClaim(w', i) <==> HasClaim(w, i)
    ensures forall i | i != |w.rows| :: Keeps(w', i) <==> Keeps(w, i)
    ensures forall i | HasClaim(w, i) :: ClaimAt(w', i) == ClaimAt(w, i)
    ensures HasClaim(w', |w.rows|) <==> row.obligation.Some?
    ensures Keeps(w', |w.rows|) <==> row.obligation.Some? && answered
    ensures row.obligation.Some? ==> ClaimAt(w', |w.rows|) == row.obligation.value
  {
    assert w'.rows[|w.rows|] == row;
    assert forall i | 0 <= i < |w.rows| :: w'.rows[i] == w.rows[i];
  }

  lemma StagedRows(w: World, w': World, row: Row, answered: bool, hand: set<Claim>)
    requires Conserved(w, hand)
    requires row.obligation.Some? ==> row.obligation.value in hand
    requires OneMoreRow(w, w', row, answered)
    ensures var claims := if row.obligation.Some? then {row.obligation.value} else {};
      && (answered ==> Conserved(w', hand - claims))
      && (!answered ==> Accounted(w', hand) && Apart(w', hand - claims))
  {
    KeepsMore(w, w', row, answered);
    var claims := if row.obligation.Some? then {row.obligation.value} else {};
    var hand' := if answered then hand - claims else hand;
    StagedDistinct(w, w', row, answered, hand, hand');
    StagedLive(w, w', row, answered, hand, hand');
    StagedOwned(w, w', row, answered, hand, hand');
  }

  lemma StagedDistinct(w: World, w': World, row: Row, answered: bool, hand: set<Claim>, hand': set<Claim>)
    requires Conserved(w, hand)
    requires row.obligation.Some? ==> row.obligation.value in hand
    requires OneMoreRow(w, w', row, answered)
    requires hand' == if answered && row.obligation.Some? then hand - {row.obligation.value} else hand
    ensures Distinct(w', hand')
  {
    KeepsMore(w, w', row, answered);
    forall i, j | HasClaim(w', i) && HasClaim(w', j) && i != j
      ensures ClaimAt(w', i).intent != ClaimAt(w', j).intent
    {
      if i == |w.rows| {
        assert HasClaim(w, j) && row.obligation.value in hand;
      } else if j == |w.rows| {
        assert HasClaim(w, i) && row.obligation.value in hand;
      }
    }
  }

  lemma StagedLive(w: World, w': World, row: Row, answered: bool, hand: set<Claim>, hand': set<Claim>)
    requires Conserved(w, hand)
    requires row.obligation.Some? ==> row.obligation.value in hand
    requires OneMoreRow(w, w', row, answered) && hand' <= hand
    ensures Live(w', hand')
  {
    KeepsMore(w, w', row, answered);
    assert forall key :: LineAt(w', key) == LineAt(w, key);
    assert forall i | 0 <= i < |w.rows| :: w'.rows[i] == w.rows[i];
  }

  lemma StagedOwned(w: World, w': World, row: Row, answered: bool, hand: set<Claim>, hand': set<Claim>)
    requires Conserved(w, hand)
    requires row.obligation.Some? ==> row.obligation.value in hand
    requires OneMoreRow(w, w', row, answered)
    requires hand' == if answered && row.obligation.Some? then hand - {row.obligation.value} else hand
    ensures Owned(w', hand')
  {
    KeepsMore(w, w', row, answered);
    forall key | LineAt(w', key).Reserved?
      ensures var n := LineAt(w', key).intent;
        n < w'.nextId && (n in w'.orphans || InHand(hand', key, n) || OnRow(w', key, n))
    {
      assert LineAt(w, key) == LineAt(w', key);
      var n := LineAt(w', key).intent;
      if InHand(hand, key, n) {
        var c :| c in hand && KeyOf(c) == key && c.intent == n;
        if c !in hand' {
          assert Keeps(w', |w.rows|);
        }
      } else if OnRow(w, key, n) {
        var i :| Keeps(w, i) && KeyOf(ClaimAt(w, i)) == key && ClaimAt(w, i).intent == n;
        assert Keeps(w', i);
      }
    }
  }

  /** Appending a record keeps the accounts unless it reports a line consumed a second time. */
  lemma FinishAccounts(w: World, j: Job, d: Decided, c: Closing, hand: set<Claim>)
    requires Accounted(w, hand)
    requires c.consumption.Some? && c.consumption.value.state == ClaimConsumed ==>
      && Unspent(w, KeyOf(c.consumption.value.claim))
      && LineAt(w, KeyOf(c.consumption.value.claim)) == Consumed(c.consumption.value.claim.intent)
    ensures Accounted(Finish(w, j, d, c).0, hand)
    ensures Apart(w, hand) ==> Apart(Finish(w, j, d, c).0, hand)
  {
    RecordAppended(w, Finish(w, j, d, c).0, hand);
  }

  lemma RecordAppended(w: World, w': World, hand: set<Claim>)
    requires Accounted(w, hand)
    requires |w'.audit| == |w.audit| + 1 && w' == w.(audit := w.audit + [w'.audit[|w.audit|]])
    requires Spends(w'.audit[|w.audit|]) ==>
      && Unspent(w, KeyOf(Spent(w'.audit[|w.audit|])))
      && LineAt(w, KeyOf(Spent(w'.audit[|w.audit|]))) == Consumed(Spent(w'.audit[|w.audit|]).intent)
    ensures Accounted(w', hand)
    ensures Apart(w, hand) ==> Apart(w', hand)
  {
    assert forall i :: HasClaim(w', i) <==> HasClaim(w, i);
    assert forall i :: Keeps(w', i) <==> Keeps(w, i);
    assert forall i | HasClaim(w, i) :: ClaimAt(w', i) == ClaimAt(w, i);
    assert forall key :: LineAt(w', key) == LineAt(w, key);
    assert Distinct(w', hand);
    assert Live(w', hand);
    assert SpentOnce(w');
    forall key | LineAt(w', key).Reserved?
      ensures var n := LineAt(w', key).intent;
        n < w'.nextId && (n in w'.orphans || InHand(hand, key, n) || OnRow(w', key, n))
    {
      var n := LineAt(w, key).intent;
      if OnRow(w, key, n) {
        var i :| Keeps(w, i) && KeyOf(ClaimAt(w, i)) == key && ClaimAt(w, i).intent == n;
        assert Keeps(w', i);
      }
    }
  }

  // ---- one commit --------------------------------------------------------------------

  ghost predicate Backed(s: Setup, hand: set<Claim>) {
    forall c | c in hand :: s.adapters.Some? && c.registry in s.adapters.value
  }

  /** This hold is answered with an open duplicate's ticket. */
  predicate Collapses(w: World, j: Job, d: Decided)
    requires d.resolved.Some?
  {
    var (listed, duplicate) := FindDuplicate(w, j, d);
    duplicate.Some? && BumpAttempts(listed, j.outside, duplicate.value).1
  }

  /** The commit gets as far as a reservation: the only way a claim taken beforehand is placed or given back. */
  predicate ReachesClaim(w: World, j: Job, d: Decided)
    requires Committable(d)
  {
    if Refused(d.decision) then false
    else if d.decision == Decision.Hold then
      j.setup.outbox && !Collapses(w, j, d) && StagingExpiry(j, d.resolved.value) != NoClock
    else if d.resolved.value.kind == Effect then
      j.setup.outbox && StagingExpiry(j, d.resolved.value) != NoClock
    else j.setup.connectors && !j.setup.mismatch(d.resolved.value)
  }

  ghost function ClaimsOf(d: Decided): set<Claim> {
    if d.claim.Some? then {d.claim.value} else {}
  }

  /** Taking the claim for a commit: whatever the commit holds afterwards is in hand. */
  lemma ClaimForConserves(w: World, j: Job, d: Decided, hand: set<Claim>)
    requires Conserved(w, hand) && ClaimsOf(d) <= hand && Backed(j.setup, hand)
    ensures var (w', r) := ClaimFor(w, j, d);
      var taken := if r.Held? then {r.claim} else {};
      && Conserved(w', hand + taken) && Backed(j.setup, hand + taken)
      && (r.Held? && d.claim.None? ==> r.claim !in hand)
      && (d.claim.Some? ==> r == Held(d.claim.value))
      && w'.audit == w.audit
  {
    if d.claim.Some? {
      assert hand + {d.claim.value} == hand;
    } else {
      match ClaimPlan(d.gates)
      case None => assert hand + {} == hand;
      case Some(plan) =>
        ReserveConserves(w, j.setup, j.outside, plan, hand);
        if ReserveClaim(w, j.setup, j.outside, plan).1.Rejected? {
          assert hand + {} == hand;
        }
    }
  }

  lemma StageRowConserves(w: World, j: Job, d: Decided, state: RowState, hand: set<Claim>)
    requires Conserved(w, hand) && d.resolved.Some? && ClaimsOf(d) <= hand && Backed(j.setup, hand)
    ensures Conserved(StageRow(w, j, d, state).0,
                      if StagingExpiry(j, d.resolved.value) == NoClock then hand else hand - ClaimsOf(d))
  {
    var w' := StageRow(w, j, d, state).0;
    var expiry := StagingExpiry(j, d.resolved.value);
    if expiry == NoClock {
      var refusal := Close(Decision.Deny, FreshnessUnavailable, NotExecuted);
      FinishAccounts(w, j, d, refusal, hand);
      assert w' == Finish(w, j, d, refusal).0;
    } else {
      var (reserved, reservation) := ClaimFor(w, j, d);
      ClaimForConserves(w, j, d, hand);
      if reservation.Rejected? {
        var refusal := Close(Decision.Deny, reservation.rule, NotExecuted);
        assert hand + {} == hand - ClaimsOf(d) == hand;
        FinishAccounts(reserved, j, d, refusal, hand);
        assert w' == Finish(reserved, j, d, refusal).0;
      } else {
        var taken := if reservation.Held? then {reservation.claim} else {};
        assert (hand + taken) - taken == hand - ClaimsOf(d);
        StageHeldConserves(reserved, j, d, state, expiry, ClaimOf(reservation), hand + taken);
        assert w' == StageClaimed(reserved, j, d, state, expiry, ClaimOf(reservation)).0;
      }
    }
  }

  /** From the reservation to the record: the claim ends up on the staged row or is given back. */
  lemma StageHeldConserves(w: World, j: Job, d: Decided, state: RowState, expiry: Expiry, claim: Option<Claim>,
                           hand: set<Claim>)
    requires Conserved(w, hand) && d.resolved.Some? && Backed(j.setup, hand)
    requires claim.Some? ==> claim.value in hand
    ensures Conserved(StageClaimed(w, j, d, state, expiry, claim).0,
                      hand - (if claim.Some? then {claim.value} else {}))
  {
    var rest := hand - (if claim.Some? then {claim.value} else {});
    var row := RowFor(w, j, d, state, expiry, claim);
    StageConserves(w, j.outside, row, hand);
    var (staged, ticket) := Stage(w, j.outside, row);
    if ticket.Some? {
      FinishAccounts(staged, j, d, StagedClosing(d, state, ticket, claim), rest);
    } else {
      GiveBack(staged, j.setup, j.outside, claim, hand);
      FinishAccounts(ReleaseClaim(staged, j.setup, j.outside, claim), j, d,
                     Close(Decision.Deny, OutboxUnavailable, NotExecuted), rest);
    }
  }

  /** After a failed commit the claim, if any, leaves the hand. */
  lemma GiveBack(w: World, s: Setup, outside: Outside, claim: Option<Claim>, hand: set<Claim>)
    requires Accounted(w, hand) && Backed(s, hand)
    requires claim.Some? ==> claim.value in hand
    requires Apart(w, hand - (if claim.Some? then {claim.value} else {}))
    ensures Conserved(ReleaseClaim(w, s, outside, claim), hand - (if claim.Some? then {claim.value} else {}))
  {
    if claim.Some? {
      ReleaseAccounts(w, s, outside, claim.value, hand);
      KeepsSame(w, ReleaseClaim(w, s, outside, claim));
    } else {
      assert hand - {} == hand;
    }
  }

  lemma InlineConserves(w: World, j: Job, d: Decided, hand: set<Claim>)
    requires Conserved(w, hand) && d.resolved.Some? && ClaimsOf(d) <= hand && Backed(j.setup, hand)
    ensures Conserved(CommitInline(w, j, d).0,
                      if j.setup.connectors && !j.setup.mismatch(d.resolved.value) then hand - ClaimsOf(d) else hand)
  {
    var resolved := d.resolved.value;
    if !j.setup.connectors {
      FinishAccounts(w, j, d, Close(Decision.Allow, d.rule, NotExecuted), hand);
    } else if j.setup.mismatch(resolved) {
      FinishAccounts(w, j, d, Degraded(d, j, DigestMismatch), hand);
    } else {
      var (reserved, reservation) := ClaimFor(w, j, d);
      ClaimForConserves(w, j, d, hand);
      if reservation.Rejected? {
        assert hand + {} == hand - ClaimsOf(d) == hand;
        FinishAccounts(reserved, j, d, Close(Decision.Deny, reservation.rule, NotExecuted), hand);
      } else {
        var taken := if reservation.Held? then {reservation.claim} else {};
        assert (hand + taken) - taken == hand - ClaimsOf(d);
        ExecutedConserves(reserved, j, d, ClaimOf(reservation), hand + taken);
      }
    }
  }

  /** From the reservation to the record: executing spends the claim, and a failed execution gives it back. */
  lemma ExecutedConserves(w: World, j: Job, d: Decided, claim: Option<Claim>, hand: set<Claim>)
    requires Conserved(w, hand) && d.resolved.Some? && Backed(j.setup, hand)
    requires claim.Some? ==> claim.value in hand
    ensures
      var rest := hand - (if claim.Some? then {claim.value} else {});
      var (ran, output) := Execute(w, j.outside, Execution(d.resolved.value, d.scope, j.party.actor));
      && (output.None? ==>
            Conserved(Finish(ReleaseClaim(ran, j.setup, j.outside, claim), j, d,
                             Degraded(d, j, ConnectorUnavailable)).0, rest))
      && (output.Some? ==>
            var (consumed, consumption) := ConsumeClaim(ran, j.setup, j.outside, claim);
            Conserved(Finish(consumed, j, d,
                             Close(Decision.Allow, d.rule, Succeeded)
                             .(output := output, consumption := consumption, count := CountOf(j, d, output.value))).0,
                      rest))
  {
    var rest := hand - (if claim.Some? then {claim.value} else {});
    var (ran, output) := Execute(w, j.outside, Execution(d.resolved.value, d.scope, j.party.actor));
    Untouched(w, ran, hand);
    if output.None? {
      GiveBack(ran, j.setup, j.outside, claim, hand);
      FinishAccounts(ReleaseClaim(ran, j.setup, j.outside, claim), j, d, Degraded(d, j, ConnectorUnavailable), rest);
    } else {
      SpendConserves(ran, j, d, claim, output, hand);
    }
  }

  /** The last leg of an executed read or write: spend the claim and record it. */
  lemma SpendConserves(w: World, j: Job, d: Decided, claim: Option<Claim>, output: Option<Value>, hand: set<Claim>)
    requires Conserved(w, hand) && d.resolved.Some? && Backed(j.setup, hand) && output.Some?
    requires claim.Some? ==> claim.value in hand
    ensures
      var (consumed, consumption) := ConsumeClaim(w, j.setup, j.outside, claim);
      var c := Close(Decision.Allow, d.rule, Succeeded)
               .(output := output, consumption := consumption, count := CountOf(j, d, output.value));
      Conserved(Finish(consumed, j, d, c).0, hand - (if claim.Some? then {claim.value} else {}))
  {
    var (consumed, consumption) := ConsumeClaim(w, j.setup, j.outside, claim);
    var c := Close(Decision.Allow, d.rule, Succeeded)
             .(output := output, consumption := consumption, count := CountOf(j, d, output.value));
    if claim.Some? {
      ConsumeAccounts(w, j.setup, j.outside, claim.value, hand);
      KeepsSame(w, consumed);
      FinishAccounts(consumed, j, d, c, hand - {claim.value});
    } else {
      assert hand - {} == hand;
      FinishAccounts(consumed, j, d, c, hand);
    }
  }

  lemma HoldConserves(w: World, j: Job, d: Decided, hand: set<Claim>)
    requires Conserved(w, hand) && d.resolved.Some? && ClaimsOf(d) <= hand && Backed(j.setup, hand)
    ensures Conserved(CommitHold(w, j, d).0,
      if j.setup.outbox && !Collapses(w, j, d) && StagingExpiry(j, d.resolved.value) != NoClock
      then hand - ClaimsOf(d) else hand)
  {
    if !j.setup.outbox {
      FinishAccounts(w, j, d, Close(Decision.Hold, d.rule, NotExecuted).(approval := ApprovalOf(d, None)), hand);
    } else {
      var (listed, duplicate) := FindDuplicate(w, j, d);
      Untouched(w, listed, hand);
      if duplicate.None? {
        StageRowConserves(listed, j, d, PendingApproval, hand);
      } else {
        var (bumped, ok) := BumpAttempts(listed, j.outside, duplicate.value);
        BumpConserves(listed, j.outside, duplicate.value, hand);
        if ok {
          FinishAccounts(bumped, j, d,
                         Close(Decision.Hold, d.rule, HoldDeduped)
                         .(ticket := duplicate, approval := ApprovalOf(d, duplicate)), hand);
        } else {
          StageRowConserves(bumped, j, d, PendingApproval, hand);
        }
      }
    }
  }

  lemma BumpConserves(w: World, outside: Outside, ticket: nat, hand: set<Claim>)
    requires Conserved(w, hand)
    ensures Conserved(BumpAttempts(w, outside, ticket).0, hand)
  {
    var w' := BumpAttempts(w, outside, ticket).0;
    RowsMoved(w, w', hand);
  }

  /** Changing rows in place, without touching tickets or claims, keeps the accounts. */
  lemma RowsMoved(w: World, w': World, hand: set<Claim>)
    requires Conserved(w, hand)
    requires |w'.rows| == |w.rows|
    requires forall i | 0 <= i < |w.rows| ::
      w'.rows[i].ticket == w.rows[i].ticket && w'.rows[i].obligation == w.rows[i].obligation
    requires w'.lines == w.lines && w'.audit == w.audit && w'.nextId == w.nextId
    requires w'.orphans == w.orphans && w'.lost == w.lost && w'.discharged == w.discharged
    ensures Conserved(w', hand)
  {
    assert forall i :: HasClaim(w', i) <==> HasClaim(w, i);
    assert forall i :: Keeps(w', i) <==> Keeps(w, i);
    assert forall i | HasClaim(w, i) :: ClaimAt(w', i) == ClaimAt(w, i);
    forall key | LineAt(w', key).Reserved?
      ensures var n := LineAt(w', key).intent;
        n < w'.nextId && (n in w'.orphans || InHand(hand, key, n) || OnRow(w', key, n))
    {
      assert LineAt(w', key) == LineAt(w, key);
      var n := LineAt(w, key).intent;
      if OnRow(w, key, n) {
        var i :| Keeps(w, i) && KeyOf(ClaimAt(w, i)) == key && ClaimAt(w, i).intent == n;
        assert Keeps(w', i);
      }
    }
  }

  /**
   * One commit: a claim reserved for it beforehand leaves the hand, onto a row, spent or given back, exactly
   * when the commit reaches its reservation; a claim the commit takes itself never stays behind.
   */
  lemma CommitConserves(w: World, j: Job, d: Decided, hand: set<Claim>)
    requires Conserved(w, hand) && Committable(d) && ClaimsOf(d) <= hand && Backed(j.setup, hand)
    ensures Conserved(Commit(w, j, d).0, if ReachesClaim(w, j, d) then hand - ClaimsOf(d) else hand)
  {
    if Refused(d.decision) {
      FinishAccounts(w, j, d, Close(d.decision, d.rule, d.outcome), hand);
    } else if d.decision == Decision.Hold {
      HoldConserves(w, j, d, hand);
    } else if d.resolved.value.kind != Effect {
      InlineConserves(w, j, d, hand);
    } else if j.setup.outbox {
      StageRowConserves(w, j, d, Pending, hand);
    } else {
      FinishAccounts(w, j, d, Close(Decision.Allow, d.rule, NotExecuted), hand);
    }
  }
}
