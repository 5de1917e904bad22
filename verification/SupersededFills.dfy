/**
 What cancelling superseded entries does to positions, call after call: how credited fills add up, and
 two cases in which rows read back by time and digest do not say what was written last.
 */
module SupersededFills {
  import opened RateTables
  import opened SupersededEntries

  // ---------------------------------------------------------------- the ledger

  /** The row becomes its key's position. */
  predicate Shows(rows: seq<PositionRow>, row: PositionRow) {
    var latest := LatestPosition(rows, row.key); latest.None? || Later(row.when, latest.value.when)
  }

  datatype Totals = Totals(local: real, source: real, delta: real) {
    function Plus(other: Totals): Totals {
      Totals(local + other.local, source + other.source, delta + other.delta)
    }
  }

  const NONE := Totals(0.0, 0.0, 0.0)

  function Amount(e: Entry, r: ExecutionReceipt): Totals {
    Totals(r.filled, Attributed(e, r), e.delta)
  }

  predicate IsCredited(s: Store, e: Entry, r: ExecutionReceipt) {
    Rule(r).Credit? && !HasEvent(s.events, e.id)
  }

  predicate IsShown(s: Store, c: Scribe, e: Entry, r: ExecutionReceipt) {
    IsCredited(s, e, r) && Shows(s.events, FillRow(s.events, c, e, r))
  }

  /** What settling the page credits. */
  function CreditedTotal(s: Store, c: Scribe, page: seq<Entry>, answer: Entry -> ExecutionReceipt): Totals
    decreases |page|
  {
    if page == [] then NONE
    else
      var (t, ok) := Settle(s, c, page[0], answer(page[0]));
      var first := if IsCredited(s, page[0], answer(page[0])) then Amount(page[0], answer(page[0])) else NONE;
      if ok then first.Plus(CreditedTotal(t, c, page[1..], answer)) else first
  }

  /** What of it the position shows. */
  function ShownTotal(s: Store, c: Scribe, page: seq<Entry>, answer: Entry -> ExecutionReceipt): Totals
    decreases |page|
  {
    if page == [] then NONE
    else
      var (t, ok) := Settle(s, c, page[0], answer(page[0]));
      var first := if IsShown(s, c, page[0], answer(page[0])) then Amount(page[0], answer(page[0])) else NONE;
      if ok then first.Plus(ShownTotal(t, c, page[1..], answer)) else first
  }

  /** Every credited fill outranks the ledger rows before it. */
  predicate AllShown(s: Store, c: Scribe, page: seq<Entry>, answer: Entry -> ExecutionReceipt)
    decreases |page|
  {
    page == [] ||
    var (t, ok) := Settle(s, c, page[0], answer(page[0]));
    && (IsCredited(s, page[0], answer(page[0])) ==> IsShown(s, c, page[0], answer(page[0])))
    && (ok ==> AllShown(t, c, page[1..], answer))
  }

  lemma LedgerOneMore(rows: seq<PositionRow>, row: PositionRow, key: PositionKey)
    ensures PositionOf(rows + [row], key) == if key == row.key && Shows(rows, row) then row.position
      else PositionOf(rows, key)
  {
    assert (rows + [row])[..|rows|] == rows;
  }

  /** One settled entry moves its position by its own fill exactly if its row shows. */
  lemma SettleLedger(s: Store, c: Scribe, e: Entry, r: ExecutionReceipt, other: PositionKey)
    requires other != e.key
    ensures var t := Settle(s, c, e, r).0;
      var shown := if IsShown(s, c, e, r) then Amount(e, r) else NONE;
      && PositionOf(t.events, e.key).local == PositionOf(s.events, e.key).local + shown.local
      && PositionOf(t.events, e.key).source == PositionOf(s.events, e.key).source + shown.source
      && PositionOf(t.events, other) == PositionOf(s.events, other)
  {
    var row := FillRow(s.events, c, e, r);
    LedgerOneMore(s.events, row, e.key);
    LedgerOneMore(s.events, row, other);
  }

  lemma {:induction false} SettleAllLedger(s: Store, c: Scribe, page: seq<Entry>, answer: Entry -> ExecutionReceipt,
                                           key: PositionKey, other: PositionKey)
    requires (forall e :: e in page ==> e.key == key) && other != key
    ensures var t := SettleAll(s, c, page, answer).0;
      && PositionOf(t.events, key).local == PositionOf(s.events, key).local + ShownTotal(s, c, page, answer).local
      && PositionOf(t.events, key).source == PositionOf(s.events, key).source + ShownTotal(s, c, page, answer).source
      && PositionOf(t.events, other) == PositionOf(s.events, other)
    decreases |page|
  {
    if page != [] {
      assert page[0] in page;
      var (t, ok) := Settle(s, c, page[0], answer(page[0]));
      SettleLedger(s, c, page[0], answer(page[0]), other);
      if ok {
        SettleAllLedger(t, c, page[1..], answer, key, other);
      }
    }
  }

  /** A fill's share of the delta is positive and at most the whole of it. */
  lemma AttributedBounds(e: Entry, r: ExecutionReceipt)
    requires e.delta > 0.0 && UsableFill(r)
    ensures 0.0 < Attributed(e, r) <= e.delta
  {
    var share := r.filled / r.requested;
    assert share * r.requested == r.filled;
    assert 0.0 < share <= 1.0;
    Scaled(e.delta, share);
  }

  lemma Scaled(x: real, share: real)
    requires x > 0.0 && 0.0 < share <= 1.0
    ensures 0.0 < x * share <= x
  {
  }

  /** Shown is part of credited, and all of it exactly if every fill shows; credited source is within the deltas. */
  lemma {:induction false} TotalsCompare(s: Store, c: Scribe, page: seq<Entry>, answer: Entry -> ExecutionReceipt)
    requires forall e :: e in page ==> e.delta > 0.0
    ensures var shown, credited := ShownTotal(s, c, page, answer), CreditedTotal(s, c, page, answer);
      && 0.0 <= shown.local <= credited.local && 0.0 <= shown.source <= credited.source <= credited.delta
      && (shown.local == credited.local <==> AllShown(s, c, page, answer))
      && (shown.source == credited.source <==> AllShown(s, c, page, answer))
    decreases |page|
  {
    if page != [] {
      assert page[0] in page;
      var (t, ok) := Settle(s, c, page[0], answer(page[0]));
      if UsableFill(answer(page[0])) {
        AttributedBounds(page[0], answer(page[0]));
      }
      if ok {
        TotalsCompare(t, c, page[1..], answer);
      }
    }
  }

  /** What a whole call credits and shows. */
  function CallCredits(s: Store, c: Scribe, key: PositionKey, answer: Entry -> ExecutionReceipt): Totals {
    CreditedTotal(s, c, Visited(s, c, key, answer, ROUNDS), answer)
  }

  /**
   Over a whole call the position grows by the fills that show, and no other position moves.  It grows by
   everything credited if and only if every credited row outranks the ledger rows before it.
   */
  lemma FillsAddUp(s: Store, c: Scribe, key: PositionKey, answer: Entry -> ExecutionReceipt, other: PositionKey)
    requires s.Valid() && other != key
    ensures var before, after := s.events, CancelRounds(s, c, key, answer, ROUNDS).0.events;
      var visited := Visited(s, c, key, answer, ROUNDS);
      var shown := ShownTotal(s, c, visited, answer);
      && PositionOf(after, key).local == PositionOf(before, key).local + shown.local
      && PositionOf(after, key).source == PositionOf(before, key).source + shown.source
      && PositionOf(after, other) == PositionOf(before, other)
      && (AllShown(s, c, visited, answer) <==>
            PositionOf(after, key).local == PositionOf(before, key).local + CallCredits(s, c, key, answer).local)
  {
    RoundsAreOnePass(s, c, key, answer, ROUNDS);
    VisitedArePendingEntries(s, c, key, answer, ROUNDS);
    SettleAllLedger(s, c, Visited(s, c, key, answer, ROUNDS), answer, key, other);
    TotalsCompare(s, c, Visited(s, c, key, answer, ROUNDS), answer);
  }

  /** No more source is attributed than the leader moved, nor shown than attributed. */
  lemma AttributionBounded(s: Store, c: Scribe, key: PositionKey, answer: Entry -> ExecutionReceipt)
    requires s.Valid()
    ensures 0.0 <= CallCredits(s, c, key, answer).source <= CallCredits(s, c, key, answer).delta
    ensures ShownTotal(s, c, Visited(s, c, key, answer, ROUNDS), answer).source <= CallCredits(s, c, key, answer).source
  {
    VisitedArePendingEntries(s, c, key, answer, ROUNDS);
    TotalsCompare(s, c, Visited(s, c, key, answer, ROUNDS), answer);
  }

  // ---------------------------------------------------------------- poll after poll

  /** No signal is on the ledger twice. */
  ghost predicate OncePerSignal(events: seq<PositionRow>) {
    forall i, j :: 0 <= i < j < |events| ==> events[i].id != events[j].id
  }

  lemma {:induction false} SettleAllOnce(s: Store, c: Scribe, page: seq<Entry>, answer: Entry -> ExecutionReceipt)
    requires OncePerSignal(s.events)
    ensures OncePerSignal(SettleAll(s, c, page, answer).0.events) && s.events <= SettleAll(s, c, page, answer).0.events
    decreases |page|
  {
    if page != [] {
      var (t, ok) := Settle(s, c, page[0], answer(page[0]));
      if ok {
        SettleAllOnce(t, c, page[1..], answer);
      }
    }
  }

  /** One call: its key, the time and digests it writes under, and the exchange's answers. */
  datatype Poll = Poll(key: PositionKey, scribe: Scribe, answer: Entry -> ExecutionReceipt)

  /** The store after a sequence of calls. */
  function Polls(s: Store, polls: seq<Poll>): Store
    decreases |polls|
  {
    if polls == [] then s
    else Polls(CancelRounds(s, polls[0].scribe, polls[0].key, polls[0].answer, ROUNDS).0, polls[1..])
  }

  /** However often the exchange reports the same fill, a signal is credited once and no credit is withdrawn. */
  lemma {:induction false} CreditedOnceOverPolls(s: Store, polls: seq<Poll>)
    requires OncePerSignal(s.events)
    ensures OncePerSignal(Polls(s, polls).events) && s.events <= Polls(s, polls).events
    decreases |polls|
  {
    if polls != [] {
      var c, key, answer := polls[0].scribe, polls[0].key, polls[0].answer;
      RoundsAreOnePass(s, c, key, answer, ROUNDS);
      SettleAllOnce(s, c, Visited(s, c, key, answer, ROUNDS), answer);
      CreditedOnceOverPolls(CancelRounds(s, c, key, answer, ROUNDS).0, polls[1..]);
    }
  }

  function Repoll(s: Store, c: Scribe, key: PositionKey, answer: Entry -> ExecutionReceipt, n: nat): Store
    decreases n
  {
    if n == 0 then s else Repoll(CancelRounds(s, c, key, answer, ROUNDS).0, c, key, answer, n - 1)
  }

  lemma FreshAfterCall(s: Store, c: Scribe, key: PositionKey, answer: Entry -> ExecutionReceipt)
    requires s.Valid() && Fresh(s.decisions, c, Pending(s, key), answer)
    requires forall i :: 0 <= i < |Pending(s, key)| ==> Resolves(answer(Pending(s, key)[i]))
    ensures var t := CancelRounds(s, c, key, answer, ROUNDS).0;
      t.Valid() && Fresh(t.decisions, c, Pending(t, key), answer)
  {
    PagingIsSinglePass(s, c, key, answer, ROUNDS);
    SettleAllPending(s, c, key, Prefix(Pending(s, key), ROUNDS * PAGE), answer);
  }

  /** While every cancellation resolves and every decision takes, each poll takes a thousand entries off, oldest
      first. */
  lemma {:induction false} PollingDrains(s: Store, c: Scribe, key: PositionKey, answer: Entry -> ExecutionReceipt,
                                         n: nat)
    requires s.Valid() && Fresh(s.decisions, c, Pending(s, key), answer)
    requires forall i :: 0 <= i < |Pending(s, key)| ==> Resolves(answer(Pending(s, key)[i]))
    ensures Pending(Repoll(s, c, key, answer, n), key)
         == Pending(s, key)[if |Pending(s, key)| <= n * 1000 then |Pending(s, key)| else n * 1000..]
    decreases n
  {
    if n > 0 {
      CancelExact(s, c, key, answer);
      FreshAfterCall(s, c, key, answer);
      PollingDrains(CancelRounds(s, c, key, answer, ROUNDS).0, c, key, answer, n - 1);
    }
  }

  // ---------------------------------------------------------------- two failing cases

  const LINE := PositionKey("leader", "BTCUSDT", Long)
  const ENTRY_A := Entry("a", LINE, true, true, 1.0)
  const ENTRY_B := Entry("b", LINE, true, true, 2.0)
  const SUBMITTED_A := DecisionRow("a", Submitted, 1.0, [], Moment(10, 100))
  const SUBMITTED_B := DecisionRow("b", Submitted, 2.0, [], Moment(10, 101))

  /** A call at this time; the digest of a row depends on its signal alone. */
  function ScribeAt(now: int, a: nat, b: nat): Scribe {
    Scribe(now, (id, d, q, rs, at) => if id == "a" then a else b, (id, l, q, p, at) => if id == "a" then a else b)
  }

  function Withdrawn(): Entry -> ExecutionReceipt {
    (e: Entry) => ExecutionReceipt(Rejected, e.delta, 0.0, 0.0, [CANCELLED_BY_REDUCTION])
  }

  function FilledUp(): Entry -> ExecutionReceipt {
    (e: Entry) => ExecutionReceipt(FullyFilled, e.delta, e.delta, 1.0, [])
  }

  lemma OneRow(row: DecisionRow, id: string)
    ensures LatestDecision([row], id) == if row.id == id then Some(row) else None
  {
    assert [row][..0] == [];
    assert LatestDecision([], id) == None;
  }

  /** With a clock behind the stored decision the call answers true and the entry stays pending. */
  lemma StaleClockLeavesPending()
    ensures var s := Store([ENTRY_A], [SUBMITTED_A], []);
      var (t, ok) := CancelRounds(s, ScribeAt(5, 1, 2), LINE, Withdrawn(), ROUNDS);
      ok && Pending(t, LINE) == [ENTRY_A]
  {
    var s := Store([ENTRY_A], [SUBMITTED_A], []);
    var c := ScribeAt(5, 1, 2);
    OneRow(SUBMITTED_A, "a");
    assert [ENTRY_A][1..] == [] && PendingOf([], LINE, s.decisions) == [];
    assert Pending(s, LINE) == [ENTRY_A];
    SettleFirst(s, c, LINE, Withdrawn()(ENTRY_A));
    assert SettleAll(s, c, [ENTRY_A], Withdrawn()) == Settle(s, c, ENTRY_A, Withdrawn()(ENTRY_A));
  }

  /** Two fills credited in one call share its time; if the second row has the lower digest its fill does not show. */
  lemma SecondFillCanBeHidden()
    ensures var s := Store([ENTRY_A, ENTRY_B], [SUBMITTED_A, SUBMITTED_B], []);
      var (t, ok) := CancelRounds(s, ScribeAt(20, 2, 1), LINE, FilledUp(), ROUNDS);
      ok && Pending(t, LINE) == [] && |t.events| == 2 && PositionOf(t.events, LINE).local == 1.0
  {
    var s := Store([ENTRY_A, ENTRY_B], [SUBMITTED_A, SUBMITTED_B], []);
    var c := ScribeAt(20, 2, 1);
    BothPending(s);
    SettleFirst(s, c, LINE, FilledUp()(ENTRY_A));
    var t := Settle(s, c, ENTRY_A, FilledUp()(ENTRY_A)).0;
    var first := FillRow([], c, ENTRY_A, FilledUp()(ENTRY_A));
    assert t.events == [first] && first.position.local == 1.0;
    DecideEffect(s.decisions, DecisionFor(c, ENTRY_A, FilledUp()(ENTRY_A)), "a");
    DecideEffect(s.decisions, DecisionFor(c, ENTRY_A, FilledUp()(ENTRY_A)), "b");
    SettleFirst(t, c, LINE, FilledUp()(ENTRY_B));
    DecideEffect(t.decisions, DecisionFor(c, ENTRY_B, FilledUp()(ENTRY_B)), "b");
    var u := Settle(t, c, ENTRY_B, FilledUp()(ENTRY_B)).0;
    LedgerOneMore([], first, LINE);
    LedgerOneMore([first], FillRow([first], c, ENTRY_B, FilledUp()(ENTRY_B)), LINE);
    assert [ENTRY_A, ENTRY_B][1..] == [ENTRY_B] && [ENTRY_B][1..] == [];
    assert SettleAll(s, c, [ENTRY_A, ENTRY_B], FilledUp()) == SettleAll(t, c, [ENTRY_B], FilledUp()) == (u, true);
  }

  lemma BothPending(s: Store)
    requires s == Store([ENTRY_A, ENTRY_B], [SUBMITTED_A, SUBMITTED_B], [])
    ensures s.Valid() && Pending(s, LINE) == [ENTRY_A, ENTRY_B]
    ensures LatestDecision(s.decisions, "a") == Some(SUBMITTED_A)
      && LatestDecision(s.decisions, "b") == Some(SUBMITTED_B)
    ensures forall tag: nat :: HasTag(s.decisions, tag) ==> tag >= 100
  {
    OneRow(SUBMITTED_A, "a");
    OneRow(SUBMITTED_A, "b");
    assert s.decisions[..1] == [SUBMITTED_A];
    assert [ENTRY_A, ENTRY_B][1..] == [ENTRY_B] && [ENTRY_B][1..] == [];
    assert PendingOf([], LINE, s.decisions) == [] && PendingOf([ENTRY_B], LINE, s.decisions) == [ENTRY_B];
  }
}
