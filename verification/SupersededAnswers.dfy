/**
 What one cancellation's answer leads to, spelled out by state and reason code, what the tables' latest
 rows are, and what a true answer of the whole call says about every pending entry's receipt.
 */
module SupersededAnswers {
  import opened RateTables
  import opened SupersededEntries

  // ---------------------------------------------------------------- receipts

  /** FILLED, RECONCILED, or PARTIALLY_FILLED for good. */
  ghost predicate SaysFilled(r: ExecutionReceipt) {
    || r.state == FullyFilled
    || r.state == Reconciled
    || (r.state == PartiallyFilled && "COPY_ORDER_PARTIAL_TERMINAL" in r.reasons)
  }

  ghost predicate FiguresMakeSense(r: ExecutionReceipt) {
    0.0 < r.filled <= r.requested && 0.0 < r.price
  }

  /** REJECTED because the cancellation went through. */
  ghost predicate SaysCancelled(r: ExecutionReceipt) {
    r.state == Rejected && "COPY_PROTECTED_LIMIT_CANCELLED_BY_SOURCE_REDUCTION" in r.reasons
  }

  /** The answer settles the entry. */
  ghost predicate Settles(r: ExecutionReceipt) {
    (SaysFilled(r) && FiguresMakeSense(r)) || SaysCancelled(r)
  }

  lemma ResolvesIff(r: ExecutionReceipt)
    ensures Resolves(r) <==> Settles(r)
  {
  }

  /** The decision table after recording this, unless a row with the same digest is there. */
  ghost predicate Records(before: seq<DecisionRow>, after: seq<DecisionRow>, c: Scribe, id: string, d: Decision,
                          quantity: real, reasons: seq<string>)
  {
    var tag := c.decisionTag(id, d, quantity, reasons, c.now);
    if exists k :: 0 <= k < |before| && before[k].when.tag == tag then after == before
    else after == before + [DecisionRow(id, d, quantity, reasons, Moment(c.now, tag))]
  }

  /** What each kind of answer leads to. */
  lemma SettleAnswers(s: Store, c: Scribe, e: Entry, r: ExecutionReceipt)
    ensures var (t, ok) := Settle(s, c, e, r);
      && t.entries == s.entries && (ok <==> Settles(r))
      && (SaysFilled(r) && FiguresMakeSense(r) ==>
        Records(s.decisions, t.decisions, c, e.id, Filled, r.filled, r.reasons))
      && (SaysFilled(r) && !FiguresMakeSense(r) ==> t == s)
      && (SaysCancelled(r) ==>
            t.events == s.events && Records(s.decisions, t.decisions, c, e.id, Cancelled, r.requested, r.reasons))
      && (!SaysFilled(r) && !SaysCancelled(r) ==>
            t.events == s.events && Records(s.decisions, t.decisions, c, e.id, Uncertain, r.requested, r.reasons))
  {
    ResolvesIff(r);
  }

  /** The ledger row of a fill: the fill itself, its share of the leader's delta, and the position they result in. */
  lemma FillAnswers(s: Store, c: Scribe, e: Entry, r: ExecutionReceipt)
    requires SaysFilled(r) && FiguresMakeSense(r)
    ensures var t, before := Settle(s, c, e, r).0, PositionOf(s.events, e.key);
      if exists k :: 0 <= k < |s.events| && s.events[k].id == e.id then t.events == s.events
      else
        && |t.events| == |s.events| + 1 && t.events[..|s.events|] == s.events
        && var row := t.events[|s.events|];
           && row.id == e.id && row.key == e.key && row.local == r.filled
             && row.source * r.requested == e.delta * r.filled
           && row.position.local == before.local + r.filled && row.position.source == before.source + row.source
           && row.when == Moment(c.now, c.positionTag(e.id, r.filled, row.source, row.position, c.now))
  {
    ShareIs(e.delta, r.filled, r.requested);
  }

  lemma ShareIs(delta: real, filled: real, requested: real)
    requires requested > 0.0
    ensures delta * (filled / requested) * requested == delta * filled
  {
    assert filled / requested * requested == filled;
  }

  // ---------------------------------------------------------------- latest rows

  /** No row of the signal comes after the latest one, by time and then by digest. */
  lemma {:induction false} LatestDecisionIs(rows: seq<DecisionRow>, id: string)
    ensures var latest := LatestDecision(rows, id);
      && (latest.None? <==> forall k :: 0 <= k < |rows| ==> rows[k].id != id)
      && (latest.Some? ==>
            && latest.value in rows && latest.value.id == id
            && forall k :: 0 <= k < |rows| && rows[k].id == id ==>
                 || rows[k].when.at < latest.value.when.at
                 || (rows[k].when.at == latest.value.when.at && rows[k].when.tag <= latest.value.when.tag))
  {
    if rows != [] {
      LatestDecisionIs(rows[..|rows| - 1], id);
      assert forall k :: 0 <= k < |rows| - 1 ==> rows[..|rows| - 1][k] == rows[k];
    }
  }

  lemma {:induction false} LatestPositionIs(rows: seq<PositionRow>, key: PositionKey)
    ensures var latest := LatestPosition(rows, key);
      && (latest.None? <==> forall k :: 0 <= k < |rows| ==> rows[k].key != key)
      && (latest.Some? ==>
            && latest.value in rows && latest.value.key == key && PositionOf(rows, key) == latest.value.position
            && forall k :: 0 <= k < |rows| && rows[k].key == key ==>
                 || rows[k].when.at < latest.value.when.at
                 || (rows[k].when.at == latest.value.when.at && rows[k].when.tag <= latest.value.when.tag))
  {
    if rows != [] {
      LatestPositionIs(rows[..|rows| - 1], key);
      assert forall k :: 0 <= k < |rows| - 1 ==> rows[..|rows| - 1][k] == rows[k];
    }
  }

  /** The pending query: limit orders of increases on that key whose latest decision is SUBMITTED or UNCERTAIN. */
  lemma PendingIs(s: Store, key: PositionKey, e: Entry)
    ensures e in Pending(s, key) <==>
      && e in s.entries && e.key == key && e.increase && e.limitOrder
      && var latest := LatestDecision(s.decisions, e.id);
         latest.Some? && (latest.value.state == Submitted || latest.value.state == Uncertain)
  {
    PendingMembers(s.entries, key, s.decisions);
  }

  // ---------------------------------------------------------------- what true means

  /** Settling other entries leaves a pending entry pending. */
  lemma {:induction false} OthersLeavePending(s: Store, c: Scribe, key: PositionKey, page: seq<Entry>,
                                              answer: Entry -> ExecutionReceipt, e: Entry)
    requires IsPending(e, key, s.decisions) && forall d :: d in page ==> d.id != e.id
    ensures IsPending(e, key, SettleAll(s, c, page, answer).0.decisions)
    decreases |page|
  {
    if page != [] {
      assert page[0] in page;
      DecideEffect(s.decisions, DecisionFor(c, page[0], answer(page[0])), e.id);
      OthersLeavePending(Settle(s, c, page[0], answer(page[0])).0, c, key, page[1..], answer, e);
    }
  }

  /** When the call answers true it has acted on every entry that was pending. */
  lemma {:induction false} TrueVisitsAll(s: Store, c: Scribe, key: PositionKey, answer: Entry -> ExecutionReceipt,
                                         n: nat, e: Entry)
    requires s.Valid() && CancelRounds(s, c, key, answer, n).1 && e in Pending(s, key)
    ensures e in Visited(s, c, key, answer, n)
    decreases n
  {
    var page := Prefix(Pending(s, key), PAGE);
    var (t, ok) := SettleAll(s, c, page, answer);
    if e !in page {
      PendingFacts(s, key);
      PendingMembers(s.entries, key, s.decisions);
      forall d | d in page ensures d.id != e.id {
        if d.id == e.id {
          SameEntry(s.entries, d, e);
        }
      }
      OthersLeavePending(s, c, key, page, answer, e);
      SettleAllKeepsEntries(s, c, page, answer);
      PendingMembers(t.entries, key, t.decisions);
      TrueVisitsAll(t, c, key, answer, n - 1, e);
    }
  }

  lemma {:induction false} TrueSettlesPage(s: Store, c: Scribe, page: seq<Entry>, answer: Entry -> ExecutionReceipt,
                                           e: Entry)
    requires SettleAll(s, c, page, answer).1 && e in page
    ensures Settles(answer(e))
    decreases |page|
  {
    ResolvesIff(answer(page[0]));
    if e != page[0] {
      TrueSettlesPage(Settle(s, c, page[0], answer(page[0])).0, c, page[1..], answer, e);
    }
  }

  lemma {:induction false} TrueSettlesVisited(s: Store, c: Scribe, key: PositionKey, answer: Entry -> ExecutionReceipt,
                                              n: nat, e: Entry)
    requires CancelRounds(s, c, key, answer, n).1 && e in Visited(s, c, key, answer, n)
    ensures Settles(answer(e))
    decreases n
  {
    var page := Prefix(Pending(s, key), PAGE);
    var (t, ok) := SettleAll(s, c, page, answer);
    if e in page {
      TrueSettlesPage(s, c, page, answer, e);
    } else {
      TrueSettlesVisited(t, c, key, answer, n - 1, e);
    }
  }

  /**
   When the call answers true, the exchange's answer for every entry that was pending is a sensible final fill or a
   confirmed cancellation: with any other answer for any of them it answers false.
   */
  lemma TrueMeansSettled(s: Store, c: Scribe, key: PositionKey, answer: Entry -> ExecutionReceipt, e: Entry)
    requires s.Valid() && CancelRounds(s, c, key, answer, ROUNDS).1 && e in Pending(s, key)
    ensures Settles(answer(e))
  {
    TrueVisitsAll(s, c, key, answer, ROUNDS, e);
    TrueSettlesVisited(s, c, key, answer, ROUNDS, e);
  }

  /** An entry's decision is in the table. */
  ghost predicate Noted(rows: seq<DecisionRow>, c: Scribe, e: Entry, r: ExecutionReceipt) {
    exists k :: 0 <= k < |rows| && rows[k].when.tag ==
      (if SaysFilled(r) then c.decisionTag(e.id, Filled, r.filled, r.reasons, c.now)
       else c.decisionTag(e.id, Cancelled, r.requested, r.reasons, c.now))
  }

  lemma NotedStays(s: Store, c: Scribe, d: Entry, a: ExecutionReceipt, e: Entry, r: ExecutionReceipt)
    requires Noted(s.decisions, c, e, r)
    ensures Noted(Settle(s, c, d, a).0.decisions, c, e, r)
  {
    var t := Settle(s, c, d, a).0;
    var tag := if SaysFilled(r) then c.decisionTag(e.id, Filled, r.filled, r.reasons, c.now)
               else c.decisionTag(e.id, Cancelled, r.requested, r.reasons, c.now);
    var k :| 0 <= k < |s.decisions| && s.decisions[k].when.tag == tag;
    assert t.decisions[k] == s.decisions[k];
  }

  lemma SettledIsNoted(s: Store, c: Scribe, e: Entry, r: ExecutionReceipt)
    requires Settles(r)
    ensures Noted(Settle(s, c, e, r).0.decisions, c, e, r)
  {
    var t := Settle(s, c, e, r).0;
    SettleAnswers(s, c, e, r);
    if t.decisions != s.decisions {
      assert t.decisions[|s.decisions|].when.tag ==
        (if SaysFilled(r) then c.decisionTag(e.id, Filled, r.filled, r.reasons, c.now)
         else c.decisionTag(e.id, Cancelled, r.requested, r.reasons, c.now));
    }
  }

  lemma {:induction false} NotedLasts(s: Store, c: Scribe, page: seq<Entry>, answer: Entry -> ExecutionReceipt,
                                      e: Entry)
    requires Noted(s.decisions, c, e, answer(e))
    ensures Noted(SettleAll(s, c, page, answer).0.decisions, c, e, answer(e))
    decreases |page|
  {
    if page != [] {
      NotedStays(s, c, page[0], answer(page[0]), e, answer(e));
      NotedLasts(Settle(s, c, page[0], answer(page[0])).0, c, page[1..], answer, e);
    }
  }

  lemma {:induction false} PageIsNoted(s: Store, c: Scribe, page: seq<Entry>, answer: Entry -> ExecutionReceipt,
                                       e: Entry)
    requires e in page && forall d :: d in page ==> Settles(answer(d))
    ensures Noted(SettleAll(s, c, page, answer).0.decisions, c, e, answer(e))
    decreases |page|
  {
    assert page[0] in page;
    ResolvesIff(answer(page[0]));
    var t := Settle(s, c, page[0], answer(page[0])).0;
    if e == page[0] {
      SettledIsNoted(s, c, e, answer(e));
      NotedLasts(t, c, page[1..], answer, e);
    } else {
      PageIsNoted(t, c, page[1..], answer, e);
    }
  }

  /** And its decision, FILLED or CANCELLED accordingly, is in the table. */
  lemma TrueMeansNoted(s: Store, c: Scribe, key: PositionKey, answer: Entry -> ExecutionReceipt, e: Entry)
    requires s.Valid() && CancelRounds(s, c, key, answer, ROUNDS).1 && e in Pending(s, key)
    ensures Noted(CancelRounds(s, c, key, answer, ROUNDS).0.decisions, c, e, answer(e))
  {
    var visited := Visited(s, c, key, answer, ROUNDS);
    TrueVisitsAll(s, c, key, answer, ROUNDS, e);
    forall d | d in visited ensures Settles(answer(d)) {
      TrueSettlesVisited(s, c, key, answer, ROUNDS, d);
    }
    RoundsAreOnePass(s, c, key, answer, ROUNDS);
    PageIsNoted(s, c, visited, answer, e);
  }
}
