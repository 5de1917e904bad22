/**
 What acquire, consume and record answer, spelled out over the rows: each reply with exactly the
 circumstances it is given in, and what it leaves behind.
 */
module AuthorityAnswers {
  import opened RateTables
  import opened RateAuthority
  import opened StepShapes
  import opened HeaderNames

  // ---------------------------------------------------------------- acquire

  ghost predicate BadRequest(instance: string, ttl: int) {
    instance == "" || instance == "UNINITIALIZED" || ttl < 1 || ttl > 300
  }

  /** Somebody's lease is running. */
  ghost predicate LeaseLive(f: Fencing, now: Time) {
    f.lease.Some? && now < f.lease.value.expires
  }

  lemma AcquireAnswers(s: State, instance: string, expected: int, ttl: int, now: Time)
    ensures var f, reply := s.fencing, Acquire(s, instance, expected, ttl, now).reply;
      var known := !BadRequest(instance, ttl) && expected == f.epoch;
      && (reply == LeaseDenied(FencingRequestInvalid, f.epoch) <==> BadRequest(instance, ttl))
      && (reply == LeaseDenied(FencingEpochStale, f.epoch) <==> !BadRequest(instance, ttl) && expected != f.epoch)
      && (reply == LeaseDenied(FencingLeaseHeld, f.epoch) <==> known && LeaseLive(f, now) && f.holder != instance)
      && (reply == LeaseGranted(Renewed, f.epoch, now + ttl * 1_000_000) <==>
            known && LeaseLive(f, now) && f.holder == instance && f.lease.value.acquired <= now)
      && (reply == LeaseGranted(Acquired, f.epoch + 1, now + ttl * 1_000_000) <==> known && !LeaseLive(f, now))
      && (reply.Aborted? <==> known && LeaseLive(f, now) && f.holder == instance && now < f.lease.value.acquired)
  {
  }

  /** What each answer leaves: the fencing row and one log row, or nothing. */
  lemma AcquireWrites(s: State, instance: string, expected: int, ttl: int, now: Time)
    ensures var f, o := s.fencing, Acquire(s, instance, expected, ttl, now);
      && (o.reply.LeaseGranted? ==>
            var since := if o.reply.kind.Renewed? then f.lease.value.acquired else now;
            var lease := Lease(since, now, now + ttl * 1_000_000);
            o.state == s.(fencing := Fencing(o.reply.leaseEpoch, instance, Some(lease)),
                          events := s.events + [LeaseEvent(instance, f.epoch, o.reply.leaseEpoch, o.reply.kind,
                                                           Some(now + ttl * 1_000_000), now)]))
      && (o.reply == LeaseDenied(FencingEpochStale, f.epoch) ==>
            o.state == s.(events := s.events + [LeaseEvent(instance, f.epoch, f.epoch, Refused, None, now)]))
      && (o.reply == LeaseDenied(FencingLeaseHeld, f.epoch) ==>
            o.state == s.(events := s.events + [LeaseEvent(instance, f.epoch, f.epoch, Refused,
              Some(f.lease.value.expires), now)]))
      && (o.reply == LeaseDenied(FencingRequestInvalid, f.epoch) || o.reply.Aborted? ==> o.state == s)
  {
  }

  // ---------------------------------------------------------------- consume

  ghost predicate Bound(p: Envelope, e: Envelope) {
    && p.service == e.service && p.instance == e.instance && p.environment == e.environment
    && p.authority == e.authority && p.endpoint == e.endpoint && p.connection == e.connection
    && p.catalog == e.catalog && p.canonical == e.canonical
  }

  /** Under a running lease of the request's epoch, the permit is reserved and has not run out. */
  ghost predicate PermitLive(s: State, req: ConsumeRequest, now: Time) {
    && s.fencing.epoch == req.epoch && LeaseLive(s.fencing, now)
    && req.permit in s.permits.rows && s.permits.rows[req.permit].state.Reserved?
    && now < s.permits.rows[req.permit].expiresAt
  }

  lemma ConsumeAnswers(s: State, req: ConsumeRequest, now: Time)
    ensures var reply := Consume(s, req, now).reply;
      var running := s.fencing.epoch == req.epoch && LeaseLive(s.fencing, now);
      && (reply == ConsumeDenied(RateFencingStale) <==> !running)
      && (reply == ConsumeDenied(RatePermitUnknown) <==> running && req.permit !in s.permits.rows)
      && (reply == ConsumeDenied(RatePermitAlreadyConsumed) <==>
            running && req.permit in s.permits.rows && s.permits.rows[req.permit].state.Consumed?)
      && (reply == ConsumeDenied(RatePermitExpired) <==>
            && running && req.permit in s.permits.rows && !s.permits.rows[req.permit].state.Consumed?
            && !PermitLive(s, req, now))
  {
  }

  lemma ConsumeMismatches(s: State, req: ConsumeRequest, now: Time)
    requires PermitLive(s, req, now)
    ensures var p, e, reply := s.permits.rows[req.permit].envelope, req.envelope, Consume(s, req, now).reply;
      && (reply == ConsumeDenied(RatePermitBindingMismatch) <==> !Bound(p, e))
      && (reply == ConsumeDenied(RateParameterHashMismatch) <==> Bound(p, e) && p.parameter != e.parameter)
      && (reply == ConsumeDenied(RateWireHashMismatch) <==>
            Bound(p, e) && p.parameter == e.parameter && p.wire != e.wire)
      && (reply == ConsumeDenied(RateRequestDocumentHashMismatch) <==>
            Bound(p, e) && p.parameter == e.parameter && p.wire == e.wire && p.document != e.document)
      && (reply == ConsumeDenied(RateOperationFactsMismatch) <==>
            && Bound(p, e) && p.parameter == e.parameter && p.wire == e.wire && p.document == e.document
            && p.facts != e.facts)
      && (reply.ConsumeGranted? || reply == ConsumeDenied(RateCapabilityInvalidOrReplayed) <==>
            && Bound(p, e) && p.parameter == e.parameter && p.wire == e.wire && p.document == e.document
            && p.facts == e.facts)
      && (reply.ConsumeGranted? ==> p.capability == e.capability)
  {
  }

  /** The send deadline is fifty milliseconds off, or the permit's expiry if that comes first. */
  lemma DeadlineIs(s: State, req: ConsumeRequest, now: Time)
    requires Consume(s, req, now).reply.ConsumeGranted?
    ensures PermitLive(s, req, now)
    ensures var d, expires := Consume(s, req, now).reply.deadline, s.permits.rows[req.permit].expiresAt;
      d <= now + 50_000 && d <= expires && (d == now + 50_000 || d == expires)
  {
  }

  // ---------------------------------------------------------------- record

  ghost predicate ReadableMessage(m: GatewayMessage) {
    m.Message? && m.occurredAt.Some? && (m.epoch.Some? ==> m.epoch.value >= 1)
  }

  /** The message's permit was consumed by its gateway, and nothing it names contradicts the permit. */
  ghost predicate Belongs(s: State, m: GatewayMessage)
    requires m.Message? && m.permit.Some?
  {
    && m.permit.value in s.permits.rows
    && var p := s.permits.rows[m.permit.value];
       && p.state.Consumed?
       && (p.gateway.Some? ==> p.gateway.value == m.gateway)
       && (m.epoch.Some? ==> m.epoch.value == p.epoch)
       && (m.kind.SendOutcome? && m.canonical.Some? ==> m.canonical.value == p.envelope.canonical)
       && (m.authority.Some? ==> m.authority.value == p.envelope.authority)
  }

  /** A message without a permit reports a connection under the running lease. */
  ghost predicate SpeaksForLease(s: State, m: GatewayMessage, now: Time)
    requires m.Message?
  {
    && m.kind.ConnectionStateObservation?
    && (m.epoch.Some? ==> m.epoch.value == s.fencing.epoch)
    && LeaseLive(s.fencing, now)
  }

  ghost predicate HasRow(outcomes: seq<OutcomeRow>, permit: string) {
    exists i :: 0 <= i < |outcomes| && outcomes[i].permit == permit
  }

  /** Known identifiers, and messages that belong to nothing. */
  lemma RecordRefusals(s: State, m: GatewayMessage, now: Time)
    ensures var reply := Record(s, m, now).reply;
      && (reply == RecordDenied(GatewayEventInvalid) <==> !ReadableMessage(m))
      && (reply == Recorded(false) <==>
            ReadableMessage(m) && m.id in s.receipts.rows && s.receipts.rows[m.id] == Receipt(m.kind, m.payload))
      && (reply == RecordDenied(GatewayEventReplayed) <==>
            ReadableMessage(m) && m.id in s.receipts.rows && s.receipts.rows[m.id] != Receipt(m.kind, m.payload))
      && (reply == RecordDenied(GatewayEventBindingMismatch) <==>
            ReadableMessage(m) && m.id !in s.receipts.rows && m.permit.Some? && !Belongs(s, m))
      && (reply == RecordDenied(RateFencingStale) <==>
            ReadableMessage(m) && m.id !in s.receipts.rows && m.permit.None? && !SpeaksForLease(s, m, now))
  {
  }

  /** A new outcome that belongs to its permit: recorded if it is the first and one of the three codes. */
  lemma OutcomeAnswers(s: State, m: GatewayMessage, now: Time)
    requires ReadableMessage(m) && m.id !in s.receipts.rows && m.kind.SendOutcome? && m.permit.Some? && Belongs(s, m)
    ensures var reply := Record(s, m, now).reply;
      && (reply == Recorded(true) <==>
            && (m.outcome == Some(NotSent) || m.outcome == Some(SentDefiniteResult) || m.outcome == Some(SentUnknown))
            && !HasRow(s.outcomes, m.permit.value))
      && (reply == RecordDenied(GatewayEventConflict) <==>
            m.outcome.Some? && (m.outcome.value.OtherOutcome? || HasRow(s.outcomes, m.permit.value)))
      && (reply.Aborted? <==> m.outcome.None?)
  {
  }

  /** A header whose interval entries, status and delay can be read. */
  ghost predicate ReadableHeader(h: Header) {
    && ReadableGroup(h.weights) && ReadableGroup(h.orders)
    && !h.status.Garbled?
    && (h.status == Number(429) || h.status.Missing? ==> !h.retryAfter.Garbled?)
  }

  ghost predicate ReadableGroup(g: HeaderGroup) {
    && g.Entries?
    && forall i, interval :: 0 <= i < |g.entries| && Names(g.entries[i].name, interval) ==>
         g.entries[i].reading.Missing? || g.entries[i].reading.Number?
  }

  /** A new observation that belongs: recorded if it can be filed and, for a header, if it can be read. */
  lemma ObservationAnswers(s: State, m: GatewayMessage, now: Time)
    requires ReadableMessage(m) && m.id !in s.receipts.rows && !m.kind.SendOutcome?
    requires if m.permit.Some? then Belongs(s, m) else SpeaksForLease(s, m, now)
    ensures var reply := Record(s, m, now).reply;
      && (reply == Recorded(true) <==>
            && (m.permit.Some? || m.authority.Some?)
            && (m.kind.HeaderObservation? ==> ReadableHeader(m.header)))
      && (reply.Aborted? <==> reply != Recorded(true))
  {
    ReadableIff(m.header.weights);
    ReadableIff(m.header.orders);
  }

  /** An observation is filed under its own authority, or its permit's. */
  lemma FiledUnderIs(s: State, m: GatewayMessage)
    requires m.Message?
    ensures m.authority.Some? ==> FiledUnder(s, m) == m.authority
    ensures m.authority.None? && m.permit.Some? && m.permit.value in s.permits.rows ==>
      FiledUnder(s, m) == Some(s.permits.rows[m.permit.value].envelope.authority)
  {
  }

  // ---------------------------------------------------------------- blocks

  /** The latest end is the end of one of the open windows. */
  lemma {:induction false} LatestEndIsAnEnd(ws: seq<Window>, authority: string, now: Time)
    ensures var latest := LatestEnd(ws, authority, now);
      && (latest.Some? ==>
            exists i :: 0 <= i < |ws| && ws[i].key.authority == authority && ws[i].end > now
              && ws[i].end == latest.value)
      && (latest.Some? ==>
            forall i :: 0 <= i < |ws| && ws[i].key.authority == authority && ws[i].end > now ==>
              ws[i].end <= latest.value)
      && (latest.None? ==> forall i :: 0 <= i < |ws| && ws[i].key.authority == authority ==> ws[i].end <= now)
  {
    if ws != [] {
      var init := ws[..|ws| - 1];
      LatestEndIsAnEnd(init, authority, now);
      assert forall i :: 0 <= i < |init| ==> init[i] == ws[i];
    }
  }

  /** Seconds to wait after this many consecutive blocks. */
  ghost predicate DefaultWait(count: nat, seconds: int) {
    || (count == 0 && seconds == 60) || (count == 1 && seconds == 120) || (count == 2 && seconds == 240)
    || (count == 3 && seconds == 480) || (count >= 4 && seconds == 900)
  }

  lemma BackoffIsDefault(count: nat)
    ensures DefaultWait(count, Backoff(count))
  {
    assert Pow2(0) == 1 && Pow2(1) == 2 && Pow2(2) == 4 && Pow2(3) == 8;
    assert Pow2(4) == 2 * Pow2(3);
  }

  /** The seconds a header asks to wait. */
  ghost predicate Waits(blocks: map<string, Block>, authority: string, retryAfter: IntField, seconds: int) {
    || retryAfter == Number(seconds)
    || (retryAfter.Missing? && DefaultWait(if authority in blocks then blocks[authority].count else 0, seconds))
  }

  /** `t` is one of the moments a 429 block may reach to. */
  ghost predicate Horizon(blocks: map<string, Block>, ws: seq<Window>, authority: string, seconds: int, now: Time,
                          t: Time)
  {
    || t == now + seconds * 1_000_000
    || t == now
    || (exists i :: 0 <= i < |ws| && ws[i].key.authority == authority && ws[i].end > now && t == ws[i].end + 250_000)
    || (authority in blocks && blocks[authority].until == Some(t))
  }

  /** A header with another status than 418 and 429 changes no block; a 418 blocks its authority for good. */
  lemma BlocksOtherwise(blocks: map<string, Block>, ws: seq<Window>, authority: string, header: Header,
                        source: string, now: Time)
    requires header.status.Number? && header.status.n != 429
    ensures BlocksAfter(blocks, ws, authority, header, source, now) ==
      Some(if header.status.n == 418 then blocks[authority := Block(None, Http418Indefinite, 0, source)] else blocks)
  {
  }

  /**
   A 429, or a missing status, blocks its authority up to exactly the latest of the moments it names, keeps an
   indefinite block, counts consecutive waits without a given delay, and leaves every other block alone.
   */
  lemma BlocksAfter429(blocks: map<string, Block>, ws: seq<Window>, authority: string, header: Header, source: string,
                       now: Time, seconds: int)
    requires header.status == Number(429) || header.status.Missing?
    requires !header.retryAfter.Garbled? && Waits(blocks, authority, header.retryAfter, seconds)
    ensures var after := BlocksAfter(blocks, ws, authority, header, source, now);
      && after.Some? && authority in after.value
      && after.value == blocks[authority := after.value[authority]]
      && var was, b := if authority in blocks then Some(blocks[authority]) else None, after.value[authority];
         && b.source == source
         && b.count == (if header.retryAfter.Number? then 0 else if was.Some? then was.value.count + 1 else 1)
         && (was.Some? && was.value.until.None? ==> b.until.None? && b.reason == was.value.reason)
         && (was.None? || was.value.until.Some? ==>
               && b.until.Some? && b.reason == Http429Backoff
               && Horizon(blocks, ws, authority, seconds, now, b.until.value)
               && b.until.value >= now + seconds * 1_000_000
               && (was.Some? ==> b.until.value >= was.value.until.value)
               && (forall i :: 0 <= i < |ws| && ws[i].key.authority == authority && ws[i].end > now ==>
                     b.until.value >= ws[i].end + 250_000))
  {
    BackoffIsDefault(CurrentCount(blocks, authority));
    LatestEndIsAnEnd(ws, authority, now);
  }

  /** A recorded header leaves exactly those blocks, for the windows as it leaves them. */
  lemma HeaderBlocks(s: State, m: GatewayMessage, now: Time)
    requires Record(s, m, now).reply == Recorded(true) && m.kind.HeaderObservation?
    ensures FiledUnder(s, m).Some?
    ensures var t := Record(s, m, now).state;
      BlocksAfter(s.blocks.rows, t.windows, FiledUnder(s, m).value, m.header, m.id, now) == Some(t.blocks.rows)
  {
  }

  /** Other messages leave blocks and windows alone. */
  lemma OnlyHeadersReconcile(s: State, m: GatewayMessage, now: Time)
    requires m.Message? ==> !m.kind.HeaderObservation?
    ensures Record(s, m, now).state.blocks == s.blocks && Record(s, m, now).state.windows == s.windows
  {
  }

  // ---------------------------------------------------------------- environment

  /** A window is added, empty, exactly if its times and limit make sense and its start is new for its key. */
  lemma OpenWindowAnswers(s: State, key: WindowKey, start: Time, end: Time, limit: int, blockedUntil: Option<Time>)
    ensures var o := OpenWindow(s, key, start, end, limit, blockedUntil);
      && (o.reply.Done? <==>
            start < end && limit > 0 && forall i :: 0 <= i < |s.windows| && s.windows[i].key == key ==>
              s.windows[i].start != start)
      && (o.reply.Done? ==> o.state == s.(windows := s.windows + [Window(key, start, end, 0, 0, limit, blockedUntil)]))
      && (!o.reply.Done? ==> o.reply.Aborted? && o.state == s)
  {
  }
}
