/**
 Cancelling the pending entries a closing reduction supersedes: a bounded, paged loop over the
 repository's pending query, crediting whatever had already filled.  Decisions and positions are rows
 of append-only tables, read back by time and then by digest.
 */
module SupersededEntries {
  import opened RateTables

  // ---------------------------------------------------------------- rows

  datatype PositionSide = Long | Short

  datatype PositionKey = PositionKey(leader: string, symbol: string, side: PositionSide)

  /** A stored signal joined with its submission claim. */
  datatype Entry = Entry(id: string, key: PositionKey, increase: bool, limitOrder: bool, delta: real)

  datatype Decision = Submitted | Uncertain | Cancelled | Filled | Other

  /** What a table orders its rows by; `tag` stands for the row's digest. */
  datatype Moment = Moment(at: int, tag: nat)

  predicate Later(a: Moment, b: Moment) {
    a.at > b.at || (a.at == b.at && a.tag > b.tag)
  }

  datatype DecisionRow = DecisionRow(id: string, state: Decision, quantity: real, reasons: seq<string>, when: Moment)

  datatype Position = Position(local: real, source: real)

  /** One row of the position ledger, with the position it results in. */
  datatype PositionRow = PositionRow(
    id: string, key: PositionKey, local: real, source: real, position: Position, when: Moment)

  /** `entries` is in the query's order: by time, then by id. */
  datatype Store = Store(entries: seq<Entry>, decisions: seq<DecisionRow>, events: seq<PositionRow>) {
    ghost predicate Valid() {
      && (forall i, j :: 0 <= i < j < |entries| ==> entries[i].id != entries[j].id)
      && (forall i :: 0 <= i < |entries| ==> entries[i].delta > 0.0)
    }
  }

  datatype ExecutionState = Acknowledged | PartiallyFilled | FullyFilled | Rejected | Unknown | Reconciled

  datatype ExecutionReceipt = ExecutionReceipt(
    state: ExecutionState, requested: real, filled: real, price: real, reasons: seq<string>)

  /** The time a call records under, and the digests of the rows it writes. */
  datatype Scribe = Scribe(
    now: int,
    decisionTag: (string, Decision, real, seq<string>, int) -> nat,
    positionTag: (string, real, real, Position, int) -> nat)

  const PARTIAL_TERMINAL := "COPY_ORDER_PARTIAL_TERMINAL"
  const CANCELLED_BY_REDUCTION := "COPY_PROTECTED_LIMIT_CANCELLED_BY_SOURCE_REDUCTION"
  const PAGE := 100
  const ROUNDS := 10

  // ---------------------------------------------------------------- queries

  /** The decision a signal's latest row holds. */
  function LatestDecision(rows: seq<DecisionRow>, id: string): Option<DecisionRow> {
    if rows == [] then None
    else
      var earlier, row := LatestDecision(rows[..|rows| - 1], id), rows[|rows| - 1];
      if row.id == id && (earlier.None? || Later(row.when, earlier.value.when)) then Some(row) else earlier
  }

  predicate IsPending(e: Entry, key: PositionKey, rows: seq<DecisionRow>) {
    && e.key == key && e.increase && e.limitOrder
    && var latest := LatestDecision(rows, e.id);
       latest.Some? && (latest.value.state.Submitted? || latest.value.state.Uncertain?)
  }

  /** Every pending entry of a key, in query order. */
  function PendingOf(entries: seq<Entry>, key: PositionKey, rows: seq<DecisionRow>): seq<Entry> {
    if entries == [] then []
    else if IsPending(entries[0], key, rows) then [entries[0]] + PendingOf(entries[1..], key, rows)
    else PendingOf(entries[1..], key, rows)
  }

  function Pending(s: Store, key: PositionKey): seq<Entry> {
    PendingOf(s.entries, key, s.decisions)
  }

  function Prefix<T>(q: seq<T>, limit: nat): seq<T> {
    if |q| <= limit then q else q[..limit]
  }

  function LatestPosition(rows: seq<PositionRow>, key: PositionKey): Option<PositionRow> {
    if rows == [] then None
    else
      var earlier, row := LatestPosition(rows[..|rows| - 1], key), rows[|rows| - 1];
      if row.key == key && (earlier.None? || Later(row.when, earlier.value.when)) then Some(row) else earlier
  }

  function PositionOf(rows: seq<PositionRow>, key: PositionKey): Position {
    var latest := LatestPosition(rows, key);
    if latest.None? then Position(0.0, 0.0) else latest.value.position
  }

  predicate HasEvent(rows: seq<PositionRow>, id: string) {
    exists k :: 0 <= k < |rows| && rows[k].id == id
  }

  predicate HasTag(rows: seq<DecisionRow>, tag: nat) {
    exists k :: 0 <= k < |rows| && rows[k].when.tag == tag
  }

  // ---------------------------------------------------------------- one entry

  datatype Ruling = Credit | Withdraw | Refuse | Doubt

  predicate UsableFill(r: ExecutionReceipt) {
    r.requested > 0.0 && r.filled > 0.0 && r.filled <= r.requested && r.price > 0.0
  }

  function Rule(r: ExecutionReceipt): Ruling {
    if r.state.FullyFilled? || r.state.Reconciled? || (r.state.PartiallyFilled? && PARTIAL_TERMINAL in r.reasons)
    then if UsableFill(r) then Credit else Refuse
    else if r.state.Rejected? && CANCELLED_BY_REDUCTION in r.reasons then Withdraw
    else Doubt
  }

  predicate Resolves(r: ExecutionReceipt) {
    Rule(r).Credit? || Rule(r).Withdraw?
  }

  /** The share of the leader's delta that a fill stands for. */
  function Attributed(e: Entry, r: ExecutionReceipt): real {
    if UsableFill(r) then e.delta * (r.filled / r.requested) else 0.0
  }

  function NewDecision(c: Scribe, id: string, d: Decision, quantity: real, reasons: seq<string>): DecisionRow {
    DecisionRow(id, d, quantity, reasons, Moment(c.now, c.decisionTag(id, d, quantity, reasons, c.now)))
  }

  /** The row a receipt leads to; an unusable fill leads to none. */
  function DecisionFor(c: Scribe, e: Entry, r: ExecutionReceipt): DecisionRow {
    match Rule(r)
    case Credit => NewDecision(c, e.id, Filled, r.filled, r.reasons)
    case Withdraw => NewDecision(c, e.id, Cancelled, r.requested, r.reasons)
    case _ => NewDecision(c, e.id, Uncertain, r.requested, r.reasons)
  }

  /** A row whose digest is there already is not inserted again. */
  function Decided(rows: seq<DecisionRow>, row: DecisionRow): seq<DecisionRow> {
    if HasTag(rows, row.when.tag) then rows else rows + [row]
  }

  function FillRow(rows: seq<PositionRow>, c: Scribe, e: Entry, r: ExecutionReceipt): PositionRow {
    var p := PositionOf(rows, e.key);
    var source := Attributed(e, r);
    var result := Position(p.local + r.filled, p.source + source);
    PositionRow(e.id, e.key, r.filled, source, result,
      Moment(c.now, c.positionTag(e.id, r.filled, source, result, c.now)))
  }

  /** Append the fill to the ledger; a signal already on it is left alone. */
  function Credited(rows: seq<PositionRow>, c: Scribe, e: Entry, r: ExecutionReceipt): seq<PositionRow> {
    if HasEvent(rows, e.id) then rows else rows + [FillRow(rows, c, e, r)]
  }

  function Settle(s: Store, c: Scribe, e: Entry, r: ExecutionReceipt): (Store, bool) {
    var decided := s.(decisions := Decided(s.decisions, DecisionFor(c, e, r)));
    match Rule(r)
    case Credit => (decided.(events := Credited(s.events, c, e, r)), true)
    case Withdraw => (decided, true)
    case Refuse => (s, false)
    case Doubt => (decided, false)
  }

  /** Settle in order, stopping at the first entry that does not resolve. */
  function SettleAll(s: Store, c: Scribe, page: seq<Entry>, answer: Entry -> ExecutionReceipt): (Store, bool)
    decreases |page|
  {
    if page == [] then (s, true)
    else
      var (t, ok) := Settle(s, c, page[0], answer(page[0]));
      if ok then SettleAll(t, c, page[1..], answer) else (t, false)
  }

  /** `n` more rounds of the paged loop. */
  function CancelRounds(s: Store, c: Scribe, key: PositionKey, answer: Entry -> ExecutionReceipt, n: nat): (Store, bool)
    decreases n
  {
    if n == 0 then (s, false)
    else
      var page := Prefix(Pending(s, key), PAGE);
      if page == [] then (s, true)
      else
        var (t, ok) := SettleAll(s, c, page, answer);
        if !ok then (t, false) else if |page| < PAGE then (t, true) else CancelRounds(t, c, key, answer, n - 1)
  }

  // ---------------------------------------------------------------- decisions by time and digest

  /** The row becomes its signal's latest decision. */
  predicate Outranks(rows: seq<DecisionRow>, row: DecisionRow) {
    && !HasTag(rows, row.when.tag)
    && var latest := LatestDecision(rows, row.id); latest.None? || Later(row.when, latest.value.when)
  }

  lemma DecideEffect(rows: seq<DecisionRow>, row: DecisionRow, id: string)
    ensures LatestDecision(Decided(rows, row), id)
         == if id == row.id && Outranks(rows, row) then Some(row) else LatestDecision(rows, id)
  {
    assert (rows + [row])[..|rows|] == rows;
  }

  lemma {:induction false} LatestIsARow(rows: seq<DecisionRow>, id: string)
    ensures LatestDecision(rows, id).Some? ==>
      LatestDecision(rows, id).value in rows && LatestDecision(rows, id).value.id == id
  {
    if rows != [] {
      LatestIsARow(rows[..|rows| - 1], id);
    }
  }

  /** A clock past every stored decision of the signal is enough. */
  lemma ForwardClockOutranks(rows: seq<DecisionRow>, row: DecisionRow)
    requires !HasTag(rows, row.when.tag)
    requires forall k :: 0 <= k < |rows| && rows[k].id == row.id ==> rows[k].when.at < row.when.at
    ensures Outranks(rows, row)
  {
    LatestIsARow(rows, row.id);
  }

  /** Settling this entry takes it off the pending query. */
  predicate Drops(rows: seq<DecisionRow>, c: Scribe, e: Entry, r: ExecutionReceipt) {
    Resolves(r) && Outranks(rows, DecisionFor(c, e, r))
  }

  // ---------------------------------------------------------------- pending entries

  /** The entries that resolve before the first that does not. */
  function ResolvedPrefix(page: seq<Entry>, answer: Entry -> ExecutionReceipt): (n: nat)
    ensures n <= |page|
    ensures forall i :: 0 <= i < n ==> Resolves(answer(page[i]))
    ensures n < |page| ==> !Resolves(answer(page[n]))
  {
    if page == [] || !Resolves(answer(page[0])) then 0 else 1 + ResolvedPrefix(page[1..], answer)
  }

  lemma {:induction false} PendingMembers(entries: seq<Entry>, key: PositionKey, rows: seq<DecisionRow>)
    ensures forall e :: e in PendingOf(entries, key, rows) <==> e in entries && IsPending(e, key, rows)
  {
    if entries != [] {
      PendingMembers(entries[1..], key, rows);
    }
  }

  predicate Distinct(page: seq<Entry>) {
    forall i, j :: 0 <= i < j < |page| ==> page[i].id != page[j].id
  }

  lemma {:induction false} PendingDistinct(entries: seq<Entry>, key: PositionKey, rows: seq<DecisionRow>)
    requires Distinct(entries)
    ensures Distinct(PendingOf(entries, key, rows))
  {
    if entries != [] {
      var rest := PendingOf(entries[1..], key, rows);
      PendingDistinct(entries[1..], key, rows);
      forall j | 0 <= j < |rest| ensures rest[j].id != entries[0].id {
        PendingMembers(entries[1..], key, rows);
        assert rest[j] in entries[1..];
      }
    }
  }

  lemma PendingFacts(s: Store, key: PositionKey)
    requires s.Valid()
    ensures Distinct(Pending(s, key))
    ensures forall e :: e in Pending(s, key) ==> e in s.entries && e.key == key && e.delta > 0.0
  {
    PendingDistinct(s.entries, key, s.decisions);
    PendingMembers(s.entries, key, s.decisions);
  }

  /** The query sees only which entries are pending. */
  lemma {:induction false} PendingSame(entries: seq<Entry>, key: PositionKey, rows: seq<DecisionRow>,
                                       after: seq<DecisionRow>)
    requires forall i :: 0 <= i < |entries| ==>
      (IsPending(entries[i], key, after) <==> IsPending(entries[i], key, rows))
    ensures PendingOf(entries, key, after) == PendingOf(entries, key, rows)
  {
    if entries != [] {
      PendingSame(entries[1..], key, rows, after);
    }
  }

  lemma {:induction false} PendingWithoutFirst(entries: seq<Entry>, key: PositionKey, rows: seq<DecisionRow>,
                                               after: seq<DecisionRow>)
    requires Distinct(entries) && PendingOf(entries, key, rows) != []
    requires !IsPending(PendingOf(entries, key, rows)[0], key, after)
    requires forall i :: 0 <= i < |entries| && entries[i].id != PendingOf(entries, key, rows)[0].id ==>
      (IsPending(entries[i], key, after) <==> IsPending(entries[i], key, rows))
    ensures PendingOf(entries, key, after) == PendingOf(entries, key, rows)[1..]
  {
    var rest := entries[1..];
    if IsPending(entries[0], key, rows) {
      PendingSame(rest, key, rows, after);
    } else {
      var first := PendingOf(rest, key, rows)[0];
      assert first.id != entries[0].id by {
        PendingMembers(rest, key, rows);
        assert first in rest;
      }
      PendingWithoutFirst(rest, key, rows, after);
    }
  }

  /** Deciding the oldest pending entry takes it off, and nothing else, exactly if the row outranks and is not doubt. */
  lemma DecidingTheFirst(entries: seq<Entry>, key: PositionKey, rows: seq<DecisionRow>, row: DecisionRow)
    requires Distinct(entries) && PendingOf(entries, key, rows) != []
    requires row.id == PendingOf(entries, key, rows)[0].id
    requires row.state.Cancelled? || row.state.Filled? || row.state.Uncertain?
    ensures var p := PendingOf(entries, key, rows);
      PendingOf(entries, key, Decided(rows, row)) == if Outranks(rows, row) && !row.state.Uncertain? then p[1..] else p
  {
    var after := Decided(rows, row);
    var first := PendingOf(entries, key, rows)[0];
    PendingMembers(entries, key, rows);
    assert first in entries && IsPending(first, key, rows);
    forall e | e in entries && e.id != first.id ensures IsPending(e, key, after) <==> IsPending(e, key, rows) {
      DecideEffect(rows, row, e.id);
    }
    DecideEffect(rows, row, first.id);
    if Outranks(rows, row) && !row.state.Uncertain? {
      PendingWithoutFirst(entries, key, rows, after);
    } else {
      forall i | 0 <= i < |entries| ensures IsPending(entries[i], key, after) <==> IsPending(entries[i], key, rows) {
        if entries[i].id == first.id {
          SameEntry(entries, entries[i], first);
        }
      }
      PendingSame(entries, key, rows, after);
    }
  }

  lemma SameEntry(entries: seq<Entry>, a: Entry, b: Entry)
    requires Distinct(entries) && a in entries && b in entries && a.id == b.id
    ensures a == b
  {
    var i :| 0 <= i < |entries| && entries[i] == a;
    var j :| 0 <= j < |entries| && entries[j] == b;
    assert i == j;
  }

  lemma SettleFirst(s: Store, c: Scribe, key: PositionKey, r: ExecutionReceipt)
    requires s.Valid() && Pending(s, key) != []
    ensures var e := Pending(s, key)[0];
      var (t, ok) := Settle(s, c, e, r);
      && t.Valid() && t.entries == s.entries && ok == Resolves(r)
      && Pending(t, key) == if Drops(s.decisions, c, e, r) then Pending(s, key)[1..] else Pending(s, key)
  {
    DecidingTheFirst(s.entries, key, s.decisions, DecisionFor(c, Pending(s, key)[0], r));
  }

  // ---------------------------------------------------------------- when decisions take

  /** Every row this page would write outranks what is stored, and no two of them share a digest. */
  ghost predicate Fresh(rows: seq<DecisionRow>, c: Scribe, page: seq<Entry>, answer: Entry -> ExecutionReceipt) {
    && (forall i :: 0 <= i < |page| && Resolves(answer(page[i])) ==> Drops(rows, c, page[i], answer(page[i])))
    && TagsDiffer(c, page, answer)
  }

  function TagOf(c: Scribe, e: Entry, answer: Entry -> ExecutionReceipt): nat {
    DecisionFor(c, e, answer(e)).when.tag
  }

  ghost predicate TagsDiffer(c: Scribe, page: seq<Entry>, answer: Entry -> ExecutionReceipt) {
    forall i, j :: 0 <= i < j < |page| ==> TagOf(c, page[i], answer) != TagOf(c, page[j], answer)
  }

  lemma DropsStays(rows: seq<DecisionRow>, row: DecisionRow, c: Scribe, e: Entry, r: ExecutionReceipt)
    requires row.id != e.id && row.when.tag != DecisionFor(c, e, r).when.tag
    ensures Drops(Decided(rows, row), c, e, r) <==> Drops(rows, c, e, r)
  {
    DecideEffect(rows, row, e.id);
    var tag := DecisionFor(c, e, r).when.tag;
    if k :| 0 <= k < |rows| && rows[k].when.tag == tag {
      assert HasTag(rows, tag);
      assert Decided(rows, row)[k].when.tag == tag;
    }
  }

  lemma FreshRest(s: Store, c: Scribe, page: seq<Entry>, answer: Entry -> ExecutionReceipt)
    requires page != [] && Distinct(page) && Fresh(s.decisions, c, page, answer)
    ensures Fresh(Settle(s, c, page[0], answer(page[0])).0.decisions, c, page[1..], answer)
  {
    var t := Settle(s, c, page[0], answer(page[0])).0;
    forall i | 0 <= i < |page[1..]| && Resolves(answer(page[1..][i]))
      ensures Drops(t.decisions, c, page[1..][i], answer(page[1..][i]))
    {
      assert page[1..][i] == page[i + 1];
      assert TagOf(c, page[0], answer) != TagOf(c, page[i + 1], answer);
      DropsStays(s.decisions, DecisionFor(c, page[0], answer(page[0])), c, page[i + 1], answer(page[i + 1]));
    }
    forall i, j | 0 <= i < j < |page[1..]| ensures TagOf(c, page[1..][i], answer) != TagOf(c, page[1..][j], answer) {
      assert page[1..][i] == page[i + 1] && page[1..][j] == page[j + 1];
    }
  }

  /** Settling a page of the pending entries takes exactly its resolved prefix off. */
  lemma {:induction false} SettleAllPending(s: Store, c: Scribe, key: PositionKey, page: seq<Entry>,
                                            answer: Entry -> ExecutionReceipt)
    requires s.Valid() && page <= Pending(s, key) && Fresh(s.decisions, c, Pending(s, key), answer)
    ensures var (t, ok) := SettleAll(s, c, page, answer);
      && t.Valid() && (ok <==> ResolvedPrefix(page, answer) == |page|)
      && Pending(t, key) == Pending(s, key)[ResolvedPrefix(page, answer)..]
      && (ok ==> Fresh(t.decisions, c, Pending(t, key), answer))
    decreases |page|
  {
    if page != [] {
      var p := Pending(s, key);
      SettleFirst(s, c, key, answer(p[0]));
      var (t, ok) := Settle(s, c, p[0], answer(p[0]));
      if ok {
        assert Resolves(answer(p[0]));
        PendingFacts(s, key);
        FreshRest(s, c, p, answer);
        SettleAllPending(t, c, key, page[1..], answer);
      }
    }
  }

  lemma {:induction false} SettleAllJoins(s: Store, c: Scribe, a: seq<Entry>, b: seq<Entry>,
                                          answer: Entry -> ExecutionReceipt)
    ensures var (t, ok) := SettleAll(s, c, a, answer);
      SettleAll(s, c, a + b, answer) == if ok then SettleAll(t, c, b, answer) else (t, false)
    decreases |a|
  {
    if a == [] {
      assert a + b == b;
    } else {
      assert (a + b)[1..] == a[1..] + b;
      SettleAllJoins(Settle(s, c, a[0], answer(a[0])).0, c, a[1..], b, answer);
    }
  }

  // ---------------------------------------------------------------- the loop

  /** The loop in one pass over as many of the oldest entries as the rounds can reach. */
  function SinglePass(s: Store, c: Scribe, key: PositionKey, answer: Entry -> ExecutionReceipt, reach: nat)
    : (Store, bool)
  {
    var (t, ok) := SettleAll(s, c, Prefix(Pending(s, key), reach), answer);
    (t, ok && |Pending(s, key)| < reach)
  }

  /** Paging makes no difference: ten pages of a hundred are one pass over the first thousand. */
  lemma {:induction false} PagingIsSinglePass(s: Store, c: Scribe, key: PositionKey,
                                              answer: Entry -> ExecutionReceipt, n: nat)
    requires s.Valid() && Fresh(s.decisions, c, Pending(s, key), answer)
    ensures CancelRounds(s, c, key, answer, n) == SinglePass(s, c, key, answer, n * PAGE)
    decreases n
  {
    if n > 0 {
      var p := Pending(s, key);
      var page := Prefix(p, PAGE);
      var (t, ok) := SettleAll(s, c, page, answer);
      SettleAllPending(s, c, key, page, answer);
      if |page| == PAGE && ok {
        PagingIsSinglePass(t, c, key, answer, n - 1);
        var rest := Prefix(Pending(t, key), (n - 1) * PAGE);
        assert Prefix(p, n * PAGE) == page + rest;
        SettleAllJoins(s, c, page, rest, answer);
      } else if |page| == PAGE {
        assert Prefix(p, n * PAGE) == page + Prefix(p, n * PAGE)[PAGE..];
        SettleAllJoins(s, c, page, Prefix(p, n * PAGE)[PAGE..], answer);
      }
    }
  }

  /** The outcome in full: which entries are taken off, and when the caller may go on to reduce. */
  lemma CancelExact(s: Store, c: Scribe, key: PositionKey, answer: Entry -> ExecutionReceipt)
    requires s.Valid() && Fresh(s.decisions, c, Pending(s, key), answer)
    ensures var p := Pending(s, key);
      var (t, ok) := CancelRounds(s, c, key, answer, ROUNDS);
      && t.Valid()
      && Pending(t, key) == p[ResolvedPrefix(Prefix(p, ROUNDS * PAGE), answer)..]
      && (ok <==> |p| < ROUNDS * PAGE && forall e :: e in p ==> Resolves(answer(e)))
  {
    var p := Pending(s, key);
    var page := Prefix(p, ROUNDS * PAGE);
    PagingIsSinglePass(s, c, key, answer, ROUNDS);
    SettleAllPending(s, c, key, page, answer);
    if ResolvedPrefix(page, answer) < |page| {
      assert page[ResolvedPrefix(page, answer)] in p;
    }
  }

  // ---------------------------------------------------------------- when success means none pending

  /** The entries the rounds act on, page after page. */
  function Visited(s: Store, c: Scribe, key: PositionKey, answer: Entry -> ExecutionReceipt, n: nat): seq<Entry>
    decreases n
  {
    if n == 0 then []
    else
      var page := Prefix(Pending(s, key), PAGE);
      var (t, ok) := SettleAll(s, c, page, answer);
      if ok && |page| == PAGE then page + Visited(t, c, key, answer, n - 1) else page
  }

  /** Whatever the clock, the rounds are one pass over the entries they act on. */
  lemma {:induction false} RoundsAreOnePass(s: Store, c: Scribe, key: PositionKey, answer: Entry -> ExecutionReceipt,
                                            n: nat)
    ensures CancelRounds(s, c, key, answer, n).0 == SettleAll(s, c, Visited(s, c, key, answer, n), answer).0
    decreases n
  {
    if n > 0 {
      var page := Prefix(Pending(s, key), PAGE);
      var (t, ok) := SettleAll(s, c, page, answer);
      if ok && |page| == PAGE {
        RoundsAreOnePass(t, c, key, answer, n - 1);
        SettleAllJoins(s, c, page, Visited(t, c, key, answer, n - 1), answer);
      }
    }
  }

  lemma {:induction false} SettleAllKeepsEntries(s: Store, c: Scribe, page: seq<Entry>,
                                                 answer: Entry -> ExecutionReceipt)
    ensures SettleAll(s, c, page, answer).0.entries == s.entries
    decreases |page|
  {
    if page != [] {
      SettleAllKeepsEntries(Settle(s, c, page[0], answer(page[0])).0, c, page[1..], answer);
    }
  }

  lemma {:induction false} VisitedArePendingEntries(s: Store, c: Scribe, key: PositionKey,
                                                    answer: Entry -> ExecutionReceipt, n: nat)
    requires s.Valid()
    ensures forall e :: e in Visited(s, c, key, answer, n) ==> e in s.entries && e.key == key && e.delta > 0.0
    decreases n
  {
    if n > 0 {
      var page := Prefix(Pending(s, key), PAGE);
      PendingFacts(s, key);
      SettleAllKeepsEntries(s, c, page, answer);
      VisitedArePendingEntries(SettleAll(s, c, page, answer).0, c, key, answer, n - 1);
    }
  }

  /** An entry whose decision does not take stays pending, whichever entries are settled. */
  ghost predicate Sticks(rows: seq<DecisionRow>, c: Scribe, key: PositionKey, e: Entry, r: ExecutionReceipt) {
    IsPending(e, key, rows) && !Drops(rows, c, e, r)
  }

  lemma StickySettle(s: Store, c: Scribe, key: PositionKey, e: Entry, other: Entry, answer: Entry -> ExecutionReceipt)
    requires s.Valid() && e in s.entries && other in s.entries && Sticks(s.decisions, c, key, e, answer(e))
    ensures Sticks(Settle(s, c, other, answer(other)).0.decisions, c, key, e, answer(e))
  {
    var row := DecisionFor(c, other, answer(other));
    DecideEffect(s.decisions, row, e.id);
    if other.id == e.id {
      SameEntry(s.entries, e, other);
    }
    var tag := DecisionFor(c, e, answer(e)).when.tag;
    if k :| 0 <= k < |s.decisions| && s.decisions[k].when.tag == tag {
      assert Decided(s.decisions, row)[k].when.tag == tag;
    }
  }

  lemma {:induction false} StickyAll(s: Store, c: Scribe, key: PositionKey, e: Entry, page: seq<Entry>,
                                     answer: Entry -> ExecutionReceipt)
    requires s.Valid() && e in s.entries && Sticks(s.decisions, c, key, e, answer(e))
    requires forall d :: d in page ==> d in s.entries
    ensures Sticks(SettleAll(s, c, page, answer).0.decisions, c, key, e, answer(e))
    decreases |page|
  {
    if page != [] {
      assert page[0] in page;
      StickySettle(s, c, key, e, page[0], answer);
      StickyAll(Settle(s, c, page[0], answer(page[0])).0, c, key, e, page[1..], answer);
    }
  }

  lemma StickyStaysPending(s: Store, c: Scribe, key: PositionKey, answer: Entry -> ExecutionReceipt, e: Entry)
    requires s.Valid() && e in Pending(s, key) && !Drops(s.decisions, c, e, answer(e))
    ensures e in Pending(CancelRounds(s, c, key, answer, ROUNDS).0, key)
  {
    var page := Visited(s, c, key, answer, ROUNDS);
    PendingMembers(s.entries, key, s.decisions);
    RoundsAreOnePass(s, c, key, answer, ROUNDS);
    VisitedArePendingEntries(s, c, key, answer, ROUNDS);
    StickyAll(s, c, key, e, page, answer);
    SettleAllKeepsEntries(s, c, page, answer);
    var t := CancelRounds(s, c, key, answer, ROUNDS).0;
    PendingMembers(t.entries, key, t.decisions);
  }

  /**
   When the call answers true, nothing that could reopen the position is left pending if and only if
   every pending entry's decision took: its row outranked the ones stored before.
   */
  lemma TrueMeansNonePending(s: Store, c: Scribe, key: PositionKey, answer: Entry -> ExecutionReceipt)
    requires s.Valid() && CancelRounds(s, c, key, answer, ROUNDS).1 && TagsDiffer(c, Pending(s, key), answer)
    ensures Pending(CancelRounds(s, c, key, answer, ROUNDS).0, key) == []
            <==> forall e :: e in Pending(s, key) ==> Drops(s.decisions, c, e, answer(e))
  {
    var p := Pending(s, key);
    if forall e :: e in p ==> Drops(s.decisions, c, e, answer(e)) {
      forall i | 0 <= i < |p| ensures Drops(s.decisions, c, p[i], answer(p[i])) {
        assert p[i] in p;
      }
      CancelExact(s, c, key, answer);
    } else {
      var e :| e in p && !Drops(s.decisions, c, e, answer(e));
      StickyStaysPending(s, c, key, answer, e);
    }
  }

  // ---------------------------------------------------------------- the runtime

  /** The part of the copy-trading runtime that cancels entries, over its repository. */
  class CopyRuntime {
    const entries: seq<Entry>
    var decisions: seq<DecisionRow>
    var events: seq<PositionRow>

    constructor (entries: seq<Entry>, decisions: seq<DecisionRow>, events: seq<PositionRow>)
      ensures View() == Store(entries, decisions, events)
    {
      this.entries := entries;
      this.decisions := decisions;
      this.events := events;
    }

    function View(): Store
      reads this
    {
      Store(entries, decisions, events)
    }

    method RecordDecision(c: Scribe, id: string, d: Decision, quantity: real, reasons: seq<string>)
      modifies this`decisions
      ensures decisions == Decided(old(decisions), NewDecision(c, id, d, quantity, reasons))
    {
      var row := NewDecision(c, id, d, quantity, reasons);
      if !HasTag(decisions, row.when.tag) {
        decisions := decisions + [row];
      }
    }

    /** Credit a fill and mark the entry filled, or refuse an unusable receipt. */
    method RecordIncreaseFill(c: Scribe, e: Entry, r: ExecutionReceipt) returns (ok: bool)
      modifies this
      ensures ok == UsableFill(r)
      ensures events == if ok then Credited(old(events), c, e, r) else old(events)
      ensures decisions ==
        if ok then Decided(old(decisions), NewDecision(c, e.id, Filled, r.filled, r.reasons)) else old(decisions)
    {
      if r.requested <= 0.0 || r.filled <= 0.0 || r.filled > r.requested || r.price <= 0.0 {
        return false;
      }
      var previous := PositionOf(events, e.key);
      var source := e.delta * (r.filled / r.requested);
      assert source == Attributed(e, r);
      if !HasEvent(events, e.id) {
        var updated := Position(previous.local + r.filled, previous.source + source);
        var when := Moment(c.now, c.positionTag(e.id, r.filled, source, updated, c.now));
        events := events + [PositionRow(e.id, e.key, r.filled, source, updated, when)];
      }
      RecordDecision(c, e.id, Filled, r.filled, r.reasons);
      return true;
    }

    /** The loop body: act on the exchange's answer to one cancellation. */
    method CancelEntry(c: Scribe, e: Entry, receipt: ExecutionReceipt) returns (resolved: bool)
      modifies this
      ensures (View(), resolved) == Settle(old(View()), c, e, receipt)
    {
      var terminalPartial := receipt.state.PartiallyFilled? && PARTIAL_TERMINAL in receipt.reasons;
      if receipt.state.FullyFilled? || receipt.state.Reconciled? || terminalPartial {
        resolved := RecordIncreaseFill(c, e, receipt);
        return;
      }
      if receipt.state.Rejected? && CANCELLED_BY_REDUCTION in receipt.reasons {
        RecordDecision(c, e.id, Cancelled, receipt.requested, receipt.reasons);
        return true;
      }
      RecordDecision(c, e.id, Uncertain, receipt.requested, receipt.reasons);
      return false;
    }

    /** The inner loop: one page, up to the first entry that does not resolve. */
    method CancelPage(c: Scribe, page: seq<Entry>, answer: Entry -> ExecutionReceipt) returns (ok: bool)
      modifies this
      ensures (View(), ok) == SettleAll(old(View()), c, page, answer)
    {
      for i := 0 to |page|
        invariant SettleAll(old(View()), c, page, answer) == SettleAll(View(), c, page[i..], answer)
      {
        var resolved := CancelEntry(c, page[i], answer(page[i]));
        if !resolved {
          return false;
        }
        assert page[i..][1..] == page[i + 1..];
      }
      return true;
    }

    /** The bounded rounds; what they achieve is stated by the lemmas about `CancelRounds`. */
    method CancelSupersededEntries(c: Scribe, key: PositionKey, answer: Entry -> ExecutionReceipt) returns (ok: bool)
      modifies this
      ensures (View(), ok) == CancelRounds(old(View()), c, key, answer, ROUNDS)
      ensures old(View().Valid() && Fresh(decisions, c, Pending(View(), key), answer)) ==>
        && (ok ==> Pending(View(), key) == [])
        && (ok <==>
              && |old(Pending(View(), key))| < 1000
              && forall e :: e in old(Pending(View(), key)) ==> Resolves(answer(e)))
    {
      ghost var start := View();
      if start.Valid() && Fresh(start.decisions, c, Pending(start, key), answer) {
        CancelAnswers(start, c, key, answer);
      }
      for round := 0 to ROUNDS
        invariant CancelRounds(start, c, key, answer, ROUNDS) == CancelRounds(View(), c, key, answer, ROUNDS - round)
      {
        var page := Prefix(PendingOf(entries, key, decisions), PAGE);
        if page == [] {
          return true;
        }
        var resolved := CancelPage(c, page, answer);
        if !resolved {
          return false;
        }
        if |page| < PAGE {
          return true;
        }
      }
      return false;
    }
  }

  /** What the answer means when every decision takes. */
  lemma CancelAnswers(s: Store, c: Scribe, key: PositionKey, answer: Entry -> ExecutionReceipt)
    requires s.Valid() && Fresh(s.decisions, c, Pending(s, key), answer)
    ensures var (t, ok) := CancelRounds(s, c, key, answer, ROUNDS);
      && (ok ==> Pending(t, key) == [])
      && (ok <==> |Pending(s, key)| < 1000 && forall e :: e in Pending(s, key) ==> Resolves(answer(e)))
  {
    CancelExact(s, c, key, answer);
    var p := Pending(s, key);
    if CancelRounds(s, c, key, answer, ROUNDS).1 {
      forall i | 0 <= i < |p| ensures Resolves(answer(p[i])) {
        assert p[i] in p;
      }
    }
  }
}
