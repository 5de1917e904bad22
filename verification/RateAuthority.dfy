/**
 The host rate authority as a state machine.  Each operation is one database transaction, stated as
 a function from the state it finds to the state it commits and the reply it returns.  Clock
 readings are arguments.
 */
module RateAuthority {
  import opened RateTables

  // ---------------------------------------------------------------- fencing lease

  /** The lease is held under `epoch` and has not run out. */
  predicate LeaseCurrent(f: Fencing, epoch: int, clock: Time) {
    f.epoch == epoch && f.lease.Some? && f.lease.value.expires > clock
  }

  function Acquire(s: State, instance: string, expected: int, ttl: int, now: Time): Outcome {
    var f := s.fencing;
    if instance == "" || instance == UNINITIALIZED || ttl < 1 || ttl > 300 then
      Outcome(s, LeaseDenied(FencingRequestInvalid, f.epoch))
    else if expected != f.epoch then
      var event := LeaseEvent(instance, f.epoch, f.epoch, Refused, None, now);
      Outcome(s.(events := s.events + [event]), LeaseDenied(FencingEpochStale, f.epoch))
    else
      var expires := now + ttl * SECOND;
      if f.lease.Some? && f.lease.value.expires > now then
        if f.holder != instance then
          var event := LeaseEvent(instance, f.epoch, f.epoch, Refused, Some(f.lease.value.expires), now);
          Outcome(s.(events := s.events + [event]), LeaseDenied(FencingLeaseHeld, f.epoch))
        else if now < f.lease.value.acquired then
          Outcome(s, Aborted)  // fencing_lease_shape: renewed >= acquired
        else
          var event := LeaseEvent(instance, f.epoch, f.epoch, Renewed, Some(expires), now);
          var lease := f.lease.value.(renewed := now, expires := expires);
          Outcome(s.(fencing := f.(lease := Some(lease)), events := s.events + [event]),
                  LeaseGranted(Renewed, f.epoch, expires))
      else
        var event := LeaseEvent(instance, f.epoch, f.epoch + 1, Acquired, Some(expires), now);
        Outcome(s.(fencing := Fencing(f.epoch + 1, instance, Some(Lease(now, now, expires))),
                   events := s.events + [event]),
                LeaseGranted(Acquired, f.epoch + 1, expires))
  }

  // ---------------------------------------------------------------- reservation

  predicate Blocked(blocks: map<string, Block>, authority: string, now: Time) {
    authority in blocks && (blocks[authority].until.None? || blocks[authority].until.value > now)
  }

  /** The stored permit is still reserved and binds exactly what the request binds. */
  predicate SameReservation(p: Permit, req: ReserveRequest, now: Time) {
    && p.state.Reserved?
    && p.expiresAt > now
    && p.envelope == req.envelope
    && p.opClass == req.opClass
    && p.nonce == req.nonce
    && p.epoch == req.epoch
  }

  /** The cost vector the signed policy gives this request, or why there is none. */
  function SelectVector(policies: map<PolicyKey, Policy>, req: ReserveRequest, now: Time)
    : Result<seq<CostItem>, Reason>
  {
    var key := PolicyKey(req.envelope.authority, req.envelope.endpoint, req.envelope.catalog);
    if key !in policies || !policies[key].signed || now < policies[key].validFrom
       || now >= policies[key].validUntil || !policies[key].contracted then
      Failure(RateEndpointUnknown)
    else if req.envelope.service !in policies[key].callers then
      Failure(RateCallerNotAllowed)
    else if req.opClass !in policies[key].classes || req.opClass !in policies[key].vectors then
      Failure(RateCausalRoleInvalid)
    else
      match policies[key].vectors[req.opClass]
      case NotAnArray => Failure(RateAuthorityUnavailable)
      case Items(items) => if items == [] then Failure(RateAuthorityUnavailable) else Success(items)
  }

  function ItemKey(authority: string, item: CostItem): WindowKey {
    WindowKey(authority, item.scope, item.limitType, item.interval)
  }

  predicate OpenAt(w: Window, key: WindowKey, now: Time) {
    w.key == key && w.start <= now < w.end
  }

  /** The open window for a key: the one with the lowest identity if several overlap. */
  function FindWindow(ws: seq<Window>, key: WindowKey, now: Time): (r: Option<nat>)
    ensures r.Some? ==> r.value < |ws| && OpenAt(ws[r.value], key, now)
    ensures r.None? ==> forall i :: 0 <= i < |ws| ==> !OpenAt(ws[i], key, now)
  {
    if ws == [] then None
    else
      var earlier := FindWindow(ws[..|ws| - 1], key, now);
      if earlier.Some? then earlier
      else if OpenAt(ws[|ws| - 1], key, now) then Some(|ws| - 1)
      else None
  }

  /** What a window already counts: its own ledger or the exchange's report, whichever is higher. */
  function Level(w: Window): int {
    Max(w.used, w.observed)
  }

  /** One charge, fixed against the state the reservation starts from. */
  datatype Charge = Charge(window: nat, cost: int, before: int) {
    function After(): int {
      before + cost
    }
  }

  function PlanItem(ws: seq<Window>, authority: string, item: CostItem, now: Time): Result<Charge, Reason> {
    if item.cost < 0 || item.ceiling < 1 then Failure(RateAuthorityUnavailable)
    else
      var found := FindWindow(ws, ItemKey(authority, item), now);
      if found.None? then Failure(RateAuthorityUnavailable)
      else
        var w := ws[found.value];
        if w.blockedUntil.Some? && w.blockedUntil.value > now then Failure(RateScopeBlocked)
        else if Level(w) + item.cost > Min(w.limit, item.ceiling) then Failure(RateClassCeilingExceeded)
        else Success(Charge(found.value, item.cost, Level(w)))
  }

  /** Every item judged against the same starting windows; the first failure decides. */
  function Plan(ws: seq<Window>, authority: string, items: seq<CostItem>, now: Time)
    : (r: Result<seq<Charge>, Reason>)
    ensures r.Success? ==> |r.value| == |items|
  {
    if items == [] then Success([])
    else
      var earlier :- Plan(ws, authority, items[..|items| - 1], now);
      var last :- PlanItem(ws, authority, items[|items| - 1], now);
      Success(earlier + [last])
  }

  predicate DistinctWindows(charges: seq<Charge>) {
    forall i, j :: 0 <= i < j < |charges| ==> charges[i].window != charges[j].window
  }

  predicate ChargesWithin(charges: seq<Charge>, ws: seq<Window>) {
    forall i :: 0 <= i < |charges| ==> charges[i].window < |ws|
  }

  /** All charges written at once. */
  function ChargeAll(ws: seq<Window>, charges: seq<Charge>): (r: seq<Window>)
    requires ChargesWithin(charges, ws)
    ensures |r| == |ws|
  {
    if charges == [] then ws
    else
      var last := charges[|charges| - 1];
      var earlier := ChargeAll(ws, charges[..|charges| - 1]);
      earlier[last.window := earlier[last.window].(used := last.After())]
  }

  function LedgerRow(permit: string, c: Charge): Allocation {
    Allocation(permit, c.window, c.cost, c.before, c.After())
  }

  function LedgerRows(permit: string, charges: seq<Charge>): (r: seq<Allocation>)
    ensures |r| == |charges|
    ensures forall k :: 0 <= k < |r| ==> r[k] == LedgerRow(permit, charges[k])
  {
    seq(|charges|, k requires 0 <= k < |charges| => LedgerRow(permit, charges[k]))
  }

  lemma PlanWithin(ws: seq<Window>, authority: string, items: seq<CostItem>, now: Time)
    requires Plan(ws, authority, items, now).Success?
    ensures ChargesWithin(Plan(ws, authority, items, now).value, ws)
  {
    if items != [] {
      PlanWithin(ws, authority, items[..|items| - 1], now);
    }
  }

  function NewPermit(req: ReserveRequest, now: Time): Permit {
    Permit(req.requestKey, req.envelope, req.opClass, req.nonce, req.epoch, Reserved, now, req.expiresAt, None, None)
  }

  /** The whole effect of a fresh grant, as one write. */
  function Grant(s: State, req: ReserveRequest, charges: seq<Charge>, now: Time): State
    requires ChargesWithin(charges, s.windows)
  {
    s.(nonces := s.nonces.Put(req.nonce, Nonce(req.envelope.capability, Reserved, req.expiresAt, None)),
       permits := s.permits.Put(req.permit, NewPermit(req, now)),
       keyIndex := s.keyIndex.Put(req.requestKey, req.permit),
       windows := ChargeAll(s.windows, charges),
       allocations := s.allocations + LedgerRows(req.permit, charges))
  }

  /** A request key not seen before: select, plan, then either everything is written or nothing. */
  function ReserveFresh(s: State, req: ReserveRequest, now: Time): Outcome {
    var selected := SelectVector(s.policies.rows, req, now);
    if selected.Failure? then Outcome(s, ReserveDenied(selected.error))
    else
      var plan := Plan(s.windows, req.envelope.authority, selected.value, now);
      if plan.Failure? then Outcome(s, ReserveDenied(plan.error))
      else if req.nonce in s.nonces.rows then Outcome(s, ReserveDenied(RateCapabilityReplayed))
      else if req.permit in s.permits.rows || !DistinctWindows(plan.value) then
        Outcome(s, Aborted)  // primary key on permits, or UNIQUE(permit_id, window_id) on allocations
      else
        PlanWithin(s.windows, req.envelope.authority, selected.value, now);
        Outcome(Grant(s, req, plan.value, now), ReserveGranted(req.permit, req.opClass, req.epoch, req.expiresAt))
  }

  /** `leaseClock` is read by the lease check, `now` afterwards by the reservation itself. */
  function Reserve(s: State, req: ReserveRequest, leaseClock: Time, now: Time): Outcome {
    if !LeaseCurrent(s.fencing, req.epoch, leaseClock) then Outcome(s, ReserveDenied(RateFencingStale))
    else if req.expiresAt <= now || req.expiresAt > now + 5 * SECOND then
      Outcome(s, ReserveDenied(RateAuthorityUnavailable))
    else if Blocked(s.blocks.rows, req.envelope.authority, now) then Outcome(s, ReserveDenied(RateScopeBlocked))
    else if req.requestKey in s.keyIndex.rows && s.keyIndex.rows[req.requestKey] in s.permits.rows then
      var id := s.keyIndex.rows[req.requestKey];
      var p := s.permits.rows[id];
      if SameReservation(p, req, now) then Outcome(s, ReserveGranted(id, p.opClass, p.epoch, p.expiresAt))
      else Outcome(s, ReserveDenied(RateCapabilityReplayed))
    else ReserveFresh(s, req, now)
  }

  // ---------------------------------------------------------------- consumption

  /** The first difference between what was reserved and what the gateway derived. */
  function EnvelopeMismatch(p: Envelope, e: Envelope): Option<Reason> {
    if p.service != e.service || p.instance != e.instance || p.environment != e.environment
       || p.authority != e.authority || p.endpoint != e.endpoint || p.connection != e.connection
       || p.catalog != e.catalog || p.canonical != e.canonical then Some(RatePermitBindingMismatch)
    else if p.parameter != e.parameter then Some(RateParameterHashMismatch)
    else if p.wire != e.wire then Some(RateWireHashMismatch)
    else if p.document != e.document then Some(RateRequestDocumentHashMismatch)
    else if p.facts != e.facts then Some(RateOperationFactsMismatch)
    else if p.capability != e.capability then Some(RateCapabilityInvalidOrReplayed)
    else None
  }

  predicate NonceUsable(nonces: map<string, Nonce>, nonce: string, capability: Hash, now: Time) {
    && nonce in nonces
    && nonces[nonce].payload == capability
    && nonces[nonce].state.Reserved?
    && nonces[nonce].expiresAt > now
  }

  function ExpirePermit(s: State, id: string): State
    requires id in s.permits.rows
  {
    var p := s.permits.rows[id];
    var permits := if p.state.Reserved? then s.permits.Put(id, p.(state := Expired)) else s.permits;
    var nonces := if p.nonce in s.nonces.rows && s.nonces.rows[p.nonce].state.Reserved?
                  then s.nonces.Put(p.nonce, s.nonces.rows[p.nonce].(state := Expired)) else s.nonces;
    s.(permits := permits, nonces := nonces)
  }

  function ConsumePermit(s: State, id: string, gateway: string, now: Time): State
    requires id in s.permits.rows && s.permits.rows[id].nonce in s.nonces.rows
  {
    var p := s.permits.rows[id];
    s.(nonces := s.nonces.Put(p.nonce, s.nonces.rows[p.nonce].(state := Consumed, consumedAt := Some(now))),
       permits := s.permits.Put(id, p.(state := Consumed, consumedAt := Some(now), gateway := Some(gateway))))
  }

  function Consume(s: State, req: ConsumeRequest, now: Time): Outcome {
    if !LeaseCurrent(s.fencing, req.epoch, now) then Outcome(s, ConsumeDenied(RateFencingStale))
    else if req.permit !in s.permits.rows then Outcome(s, ConsumeDenied(RatePermitUnknown))
    else
      var p := s.permits.rows[req.permit];
      if p.state.Consumed? then Outcome(s, ConsumeDenied(RatePermitAlreadyConsumed))
      else if p.state.Expired? || now >= p.expiresAt then
        Outcome(ExpirePermit(s, req.permit), ConsumeDenied(RatePermitExpired))
      else
        var mismatch := EnvelopeMismatch(p.envelope, req.envelope);
        if mismatch.Some? then Outcome(s, ConsumeDenied(mismatch.value))
        else if !NonceUsable(s.nonces.rows, p.nonce, req.envelope.capability, now) then
          Outcome(s, ConsumeDenied(RateCapabilityInvalidOrReplayed))
        else
          Outcome(ConsumePermit(s, req.permit, req.gateway, now),
                  ConsumeGranted(Min(now + 50 * MILLISECOND, p.expiresAt)))
  }

  // ---------------------------------------------------------------- header reconciliation

  predicate IsDigit(c: char) {
    '0' <= c <= '9'
  }

  /** Length of the run of digits that ends the text. */
  function TrailingDigits(text: string): (n: nat)
    ensures n <= |text|
    ensures forall i :: |text| - n <= i < |text| ==> IsDigit(text[i])
    ensures n < |text| ==> !IsDigit(text[|text| - n - 1])
  {
    if text == [] || !IsDigit(text[|text| - 1]) then 0 else 1 + TrailingDigits(text[..|text| - 1])
  }

  function UnitName(c: char): Option<string> {
    if c == 's' then Some("SECOND_")
    else if c == 'm' then Some("MINUTE_")
    else if c == 'h' then Some("HOUR_")
    else if c == 'd' then Some("DAY_")
    else None
  }

  /** The window interval a header name ends in, such as `X-MBX-USED-WEIGHT-1m`; other names are skipped. */
  function IntervalOf(name: string): Option<string> {
    if name == "" then None
    else
      var unit := UnitName(name[|name| - 1]);
      var stem := name[..|name| - 1];
      var n := TrailingDigits(stem);
      if unit.None? || n == 0 then None else Some(unit.value + stem[|stem| - n..])
  }

  /** A named interval whose reading is not an integer makes the whole reconciliation fail. */
  predicate Readable(g: HeaderGroup) {
    g.Entries? && forall i :: 0 <= i < |g.entries| ==> IntervalOf(g.entries[i].name).Some? ==>
      !g.entries[i].reading.Garbled?
  }

  function RaisedBy(observed: int, entries: seq<HeaderEntry>, interval: string): int {
    if entries == [] then observed
    else
      var earlier := RaisedBy(observed, entries[..|entries| - 1], interval);
      var last := entries[|entries| - 1];
      if IntervalOf(last.name) == Some(interval) && last.reading.Number? then Max(earlier, last.reading.n) else earlier
  }

  predicate HasAllocation(allocations: seq<Allocation>, permit: string, window: nat) {
    exists k :: 0 <= k < |allocations| && allocations[k].permit == permit && allocations[k].window == window
  }

  const REQUEST_WEIGHT := "REQUEST_WEIGHT"
  const ORDERS := "ORDERS"

  function RaiseWindow(w: Window, charged: bool, limitType: string, entries: seq<HeaderEntry>): Window {
    if charged && w.key.limitType == limitType
    then w.(observed := RaisedBy(w.observed, entries, w.key.interval)) else w
  }

  /** Each window of one limit type charged to the permit rises to the highest matching reading. */
  function RaiseWindows(ws: seq<Window>, allocations: seq<Allocation>, permit: string, limitType: string,
                        entries: seq<HeaderEntry>): (r: seq<Window>)
    ensures |r| == |ws|
    ensures forall i :: 0 <= i < |r| ==>
      r[i] == RaiseWindow(ws[i], HasAllocation(allocations, permit, i), limitType, entries)
  {
    seq(|ws|, i requires 0 <= i < |ws| =>
      RaiseWindow(ws[i], HasAllocation(allocations, permit, i), limitType, entries))
  }

  function Pow2(n: nat): nat {
    if n == 0 then 1 else 2 * Pow2(n - 1)
  }

  /** Seconds to wait after the given number of consecutive blocks without a retry delay. */
  function Backoff(count: nat): int {
    Min(900, 60 * Pow2(Min(count, 4)))
  }

  /** The latest end among this authority's windows still open at `now`. */
  function LatestEnd(ws: seq<Window>, authority: string, now: Time): Option<Time> {
    if ws == [] then None
    else
      var earlier := LatestEnd(ws[..|ws| - 1], authority, now);
      var w := ws[|ws| - 1];
      if w.key.authority != authority || w.end <= now then earlier
      else if earlier.None? then Some(w.end) else Some(Max(earlier.value, w.end))
  }

  function BlockHorizon(ws: seq<Window>, authority: string, retrySeconds: int, now: Time): Time {
    var latest := LatestEnd(ws, authority, now);
    Max(now + retrySeconds * SECOND, if latest.Some? then latest.value + 250 * MILLISECOND else now)
  }

  function CurrentCount(blocks: map<string, Block>, authority: string): nat {
    if authority in blocks then blocks[authority].count else 0
  }

  function BlockFor429(blocks: map<string, Block>, ws: seq<Window>, authority: string, retryAfter: Option<int>,
                       source: string, now: Time): Block
  {
    var count := CurrentCount(blocks, authority);
    var seconds := if retryAfter.None? then Backoff(count) else retryAfter.value;
    var newCount := if retryAfter.None? then count + 1 else 0;
    var horizon := BlockHorizon(ws, authority, seconds, now);
    if authority !in blocks then Block(Some(horizon), Http429Backoff, newCount, source)
    else if blocks[authority].until.None? then Block(None, blocks[authority].reason, newCount, source)
    else Block(Some(Max(blocks[authority].until.value, horizon)), Http429Backoff, newCount, source)
  }

  /**
   The blocks after one header, or `None` when a field cannot be read.  A header without a status
   satisfies neither `NOT IN (418, 429)` nor `= 418` in SQL and so takes the 429 branch.
   */
  function BlocksAfter(blocks: map<string, Block>, ws: seq<Window>, authority: string, header: Header,
                       source: string, now: Time): Option<map<string, Block>>
  {
    match header.status
    case Garbled => None
    case Number(code) =>
      if code == 418 then Some(blocks[authority := Block(None, Http418Indefinite, 0, source)])
      else if code == 429 then Backing(blocks, ws, authority, header.retryAfter, source, now)
      else Some(blocks)
    case Missing => Backing(blocks, ws, authority, header.retryAfter, source, now)
  }

  function Backing(blocks: map<string, Block>, ws: seq<Window>, authority: string, retryAfter: IntField,
                   source: string, now: Time): Option<map<string, Block>>
  {
    match retryAfter
    case Garbled => None
    case Missing => Some(blocks[authority := BlockFor429(blocks, ws, authority, None, source, now)])
    case Number(n) => Some(blocks[authority := BlockFor429(blocks, ws, authority, Some(n), source, now)])
  }

  /** Windows and blocks after a header observation, or `None` when the trigger fails closed. */
  function Reconcile(s: State, permit: Option<string>, authority: string, header: Header, source: string, now: Time)
    : Option<State>
  {
    if !Readable(header.weights) || !Readable(header.orders) then None
    else
      var id := if permit.Some? then permit.value else "";
      var raised :=
        if permit.None? then s.windows
        else RaiseWindows(RaiseWindows(s.windows, s.allocations, id, REQUEST_WEIGHT, header.weights.entries),
                          s.allocations, id, ORDERS, header.orders.entries);
      var blocks := BlocksAfter(s.blocks.rows, raised, authority, header, source, now);
      if blocks.None? then None else Some(s.(windows := raised, blocks := Table(blocks.value)))
  }

  // ---------------------------------------------------------------- gateway journal

  /** Why the message does not belong to the permit, or to the current lease when it names none. */
  function MessageDenial(s: State, m: GatewayMessage, now: Time): Option<Reason>
    requires m.Message?
  {
    if m.permit.Some? then
      if m.permit.value !in s.permits.rows then Some(GatewayEventBindingMismatch)
      else
        var p := s.permits.rows[m.permit.value];
        if !p.state.Consumed? || (p.gateway.Some? && p.gateway.value != m.gateway)
           || (m.epoch.Some? && p.epoch != m.epoch.value) then Some(GatewayEventBindingMismatch)
        else if m.kind.SendOutcome? && m.canonical.Some? && p.envelope.canonical != m.canonical.value then
          Some(GatewayEventBindingMismatch)
        else if m.authority.Some? && p.envelope.authority != m.authority.value then Some(GatewayEventBindingMismatch)
        else None
    else if !m.kind.ConnectionStateObservation? || (m.epoch.Some? && s.fencing.epoch != m.epoch.value)
            || s.fencing.lease.None? || s.fencing.lease.value.expires <= now then Some(RateFencingStale)
    else None
  }

  predicate HasOutcome(outcomes: seq<OutcomeRow>, permit: string) {
    exists i :: 0 <= i < |outcomes| && outcomes[i].permit == permit
  }

  function Receive(s: State, m: GatewayMessage): State
    requires m.Message?
  {
    s.(receipts := s.receipts.Put(m.id, Receipt(m.kind, m.payload)))
  }

  function RecordOutcome(s: State, m: GatewayMessage): Outcome
    requires m.Message? && m.permit.Some? && m.occurredAt.Some?
  {
    if m.outcome.None? then Outcome(s, Aborted)
    else if m.outcome.value.OtherOutcome? || HasOutcome(s.outcomes, m.permit.value) then
      Outcome(s, RecordDenied(GatewayEventConflict))
    else
      var row := OutcomeRow(m.id, m.permit.value, m.gateway, m.outcome.value, m.payload, m.occurredAt.value);
      Outcome(Receive(s, m).(outcomes := s.outcomes + [row]), Recorded(true))
  }

  /** The authority an observation is filed under: its own, else its permit's. */
  function FiledUnder(s: State, m: GatewayMessage): Option<string>
    requires m.Message?
  {
    if m.authority.Some? then m.authority
    else if m.permit.Some? && m.permit.value in s.permits.rows then
      Some(s.permits.rows[m.permit.value].envelope.authority)
    else None
  }

  function RecordObservation(s: State, m: GatewayMessage, now: Time): Outcome
    requires m.Message? && m.occurredAt.Some?
  {
    var authority := FiledUnder(s, m);
    if authority.None? then Outcome(s, Aborted)
    else
      var row := Observation(m.id, m.kind, authority.value, m.permit, m.gateway, m.epoch, m.header, m.payload,
                             m.occurredAt.value);
      var filed := Receive(s, m).(observations := s.observations + [row]);
      if !m.kind.HeaderObservation? then Outcome(filed, Recorded(true))
      else
        var reconciled := Reconcile(filed, m.permit, authority.value, m.header, m.id, now);
        if reconciled.None? then Outcome(s, Aborted) else Outcome(reconciled.value, Recorded(true))
  }

  function Record(s: State, m: GatewayMessage, now: Time): Outcome {
    if m.Malformed? || (m.epoch.Some? && m.epoch.value < 1) || m.occurredAt.None? then
      Outcome(s, RecordDenied(GatewayEventInvalid))
    else if m.id in s.receipts.rows then
      if s.receipts.rows[m.id] == Receipt(m.kind, m.payload) then Outcome(s, Recorded(false))
      else Outcome(s, RecordDenied(GatewayEventReplayed))
    else
      var denial := MessageDenial(s, m, now);
      if denial.Some? then Outcome(s, RecordDenied(denial.value))
      else if m.kind.SendOutcome? then RecordOutcome(s, m)
      else RecordObservation(s, m, now)
  }

  // ---------------------------------------------------------------- environment

  /** An operator opens a window; the table's checks and unique key apply. */
  function OpenWindow(s: State, key: WindowKey, start: Time, end: Time, limit: int,
                      blockedUntil: Option<Time>): Outcome
  {
    if end <= start || limit <= 0
       || exists i :: 0 <= i < |s.windows| && s.windows[i].key == key && s.windows[i].start == start
    then Outcome(s, Aborted)
    else Outcome(s.(windows := s.windows + [Window(key, start, end, 0, 0, limit, blockedUntil)]), Done)
  }

  /** A policy row is added; rows are append-only. */
  function InstallPolicy(s: State, key: PolicyKey, policy: Policy): Outcome {
    if key in s.policies.rows then Outcome(s, Aborted) else Outcome(s.(policies := s.policies.Put(key, policy)), Done)
  }

  // ---------------------------------------------------------------- runs

  datatype Step =
    | AcquireStep(instance: string, expected: int, ttl: int, now: Time)
    | ReserveStep(reserve: ReserveRequest, leaseClock: Time, now: Time)
    | ConsumeStep(consume: ConsumeRequest, now: Time)
    | RecordStep(message: GatewayMessage, now: Time)
    | OpenWindowStep(key: WindowKey, start: Time, end: Time, limit: int, blockedUntil: Option<Time>)
    | InstallPolicyStep(policyKey: PolicyKey, policy: Policy)

  function Next(s: State, step: Step): Outcome {
    match step
    case AcquireStep(instance, expected, ttl, now) => Acquire(s, instance, expected, ttl, now)
    case ReserveStep(req, leaseClock, now) => Reserve(s, req, leaseClock, now)
    case ConsumeStep(req, now) => Consume(s, req, now)
    case RecordStep(m, now) => Record(s, m, now)
    case OpenWindowStep(key, start, end, limit, blockedUntil) => OpenWindow(s, key, start, end, limit, blockedUntil)
    case InstallPolicyStep(key, policy) => InstallPolicy(s, key, policy)
  }

  /** The state after a finite run of steps. */
  function Run(s: State, steps: seq<Step>): State {
    if steps == [] then s else Next(Run(s, steps[..|steps| - 1]), steps[|steps| - 1]).state
  }

  lemma RunAppend(s: State, steps: seq<Step>, step: Step)
    ensures Run(s, steps + [step]) == Next(Run(s, steps), step).state
  {
    assert (steps + [step])[..|steps|] == steps;
  }

  /** The reply of the i-th step of a run. */
  function ReplyAt(s: State, steps: seq<Step>, i: nat): Reply
    requires i < |steps|
  {
    Next(Run(s, steps[..i]), steps[i]).reply
  }
}
