/**
 Authority blocks: the wait that follows a 429, and how a block can only get stronger.
 */
module BlockLaws {
  import opened RateTables
  import opened RateAuthority
  import opened StepShapes
  import opened JournalLaws

  lemma {:induction false} Pow2Grows(a: nat, b: nat)
    requires a <= b
    ensures 1 <= Pow2(a) <= Pow2(b)
  {
    if b > 0 {
      Pow2Grows(if a == b then a - 1 else a, b - 1);
    }
  }

  /** The default wait stays between one and fifteen minutes and never shrinks with the count. */
  lemma BackoffBounds(a: nat, b: nat)
    requires a <= b
    ensures 60 <= Backoff(a) <= Backoff(b) <= 900
    ensures a >= 4 ==> Backoff(a) == 900
  {
    Pow2Grows(Min(a, 4), Min(b, 4));
    if a >= 4 {
      assert Pow2(4) == 2 * Pow2(3) == 4 * Pow2(2) == 8 * Pow2(1) == 16;
    }
  }

  /** No open window of the authority ends after the reported latest end. */
  lemma {:induction false} LatestEndIsLatest(ws: seq<Window>, authority: string, now: Time, i: nat)
    requires i < |ws| && ws[i].key.authority == authority && ws[i].end > now
    ensures LatestEnd(ws, authority, now).Some? && ws[i].end <= LatestEnd(ws, authority, now).value
  {
    if i < |ws| - 1 {
      LatestEndIsLatest(ws[..|ws| - 1], authority, now, i);
    }
  }

  /** A 429 block lasts at least the retry delay and beyond every open window of the authority. */
  lemma BlockLastsLongEnough(blocks: map<string, Block>, ws: seq<Window>, authority: string, retryAfter: Option<int>,
                             source: string, now: Time)
    ensures var block := BlockFor429(blocks, ws, authority, retryAfter, source, now);
      block.until.Some? ==>
        && now + (if retryAfter.Some? then retryAfter.value else Backoff(CurrentCount(blocks, authority))) * SECOND
             <= block.until.value
        && (forall i :: 0 <= i < |ws| && ws[i].key.authority == authority && ws[i].end > now ==>
              ws[i].end + 250 * MILLISECOND <= block.until.value)
    ensures BlockFor429(blocks, ws, authority, retryAfter, source, now).until.None? ==>
      authority in blocks && blocks[authority].until.None?
  {
    forall i | 0 <= i < |ws| && ws[i].key.authority == authority && ws[i].end > now
      ensures LatestEnd(ws, authority, now).Some? && ws[i].end <= LatestEnd(ws, authority, now).value
    {
      LatestEndIsLatest(ws, authority, now, i);
    }
  }

  /** Every block of `b` is still there, at least as far out, and an indefinite one stays indefinite. */
  ghost predicate NoWeaker(b: map<string, Block>, c: map<string, Block>) {
    forall a :: a in b ==>
      && a in c
      && (b[a].until.None? ==> c[a].until.None?)
      && (b[a].until.Some? ==> c[a].until.None? || b[a].until.value <= c[a].until.value)
  }

  lemma HeaderStrengthens(blocks: map<string, Block>, ws: seq<Window>, authority: string, header: Header,
                          source: string, now: Time)
    ensures var after := BlocksAfter(blocks, ws, authority, header, source, now);
      after.Some? ==> NoWeaker(blocks, after.value)
  {
  }

  /** Recording a message never weakens a block. */
  lemma RecordStrengthens(s: State, m: GatewayMessage, now: Time)
    ensures NoWeaker(s.blocks.rows, Record(s, m, now).state.blocks.rows)
  {
    RecordAllOrNothing(s, m, now);
    if Record(s, m, now).reply == Recorded(true) && m.kind.HeaderObservation? {
      RecordAppends(s, m, now);
      var ws := RaisedWindows(s.windows, s.allocations, m.permit.value, m.header);
      HeaderStrengthens(s.blocks.rows, ws, FiledUnder(s, m).value, m.header, m.id, now);
    }
  }

  /** A recorded 418 blocks its authority without end. */
  lemma TeapotBlocksForever(s: State, m: GatewayMessage, now: Time)
    requires m.Message? && m.kind.HeaderObservation? && m.header.status == Number(418)
    requires Record(s, m, now).reply == Recorded(true)
    ensures FiledUnder(s, m).Some?
    ensures var blocks := Record(s, m, now).state.blocks.rows;
      FiledUnder(s, m).value in blocks && blocks[FiledUnder(s, m).value].until.None?
  {
  }

  /** A recorded 429, or a header without any status, blocks its authority past the moment of recording. */
  lemma BackoffBlocks(s: State, m: GatewayMessage, now: Time)
    requires m.Message? && m.kind.HeaderObservation? && (m.header.status == Number(429) || m.header.status.Missing?)
    requires m.header.retryAfter.Number? ==> m.header.retryAfter.n > 0
    requires Record(s, m, now).reply == Recorded(true)
    ensures FiledUnder(s, m).Some?
    ensures Blocked(Record(s, m, now).state.blocks.rows, FiledUnder(s, m).value, now)
  {
    RecordAppends(s, m, now);
    var authority := FiledUnder(s, m).value;
    var ws := RaisedWindows(s.windows, s.allocations, m.permit.value, m.header);
    var retry := if m.header.retryAfter.Number? then Some(m.header.retryAfter.n) else None;
    BackoffBounds(CurrentCount(s.blocks.rows, authority), CurrentCount(s.blocks.rows, authority));
    BlockLastsLongEnough(s.blocks.rows, ws, authority, retry, m.id, now);
    assert Record(s, m, now).state.blocks.rows[authority]
      == BlockFor429(s.blocks.rows, ws, authority, retry, m.id, now);
  }
}
