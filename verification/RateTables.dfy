/**
 Rows and messages of the host rate-control schema.  Times are microseconds, the resolution of
 the timestamp columns; hashes and identifiers are strings compared only for equality.
 */
module RateTables {

  datatype Option<+T> = None | Some(value: T)

  datatype Result<+T, +E> = Success(value: T) | Failure(error: E) {
    predicate IsFailure() {
      Failure?
    }

    function PropagateFailure<U>(): Result<U, E>
      requires Failure?
    {
      Failure(error)
    }

    function Extract(): T
      requires Success?
    {
      value
    }
  }

  type Time = int
  type Hash = string

  const MILLISECOND: Time := 1_000
  const SECOND: Time := 1_000_000

  function Max(a: int, b: int): int {
    if a < b then b else a
  }

  function Min(a: int, b: int): int {
    if a < b then a else b
  }

  // ---------------------------------------------------------------- fencing

  datatype Lease = Lease(acquired: Time, renewed: Time, expires: Time)

  datatype Fencing = Fencing(epoch: int, holder: string, lease: Option<Lease>)

  datatype LeaseEventKind = Acquired | Renewed | Refused

  /** `at` is the clock reading the lease decision was taken on. */
  datatype LeaseEvent = LeaseEvent(
    instance: string, previousEpoch: int, resultingEpoch: int,
    kind: LeaseEventKind, expires: Option<Time>, at: Time)

  // ---------------------------------------------------------------- windows, permits, ledger

  datatype WindowKey = WindowKey(authority: string, scope: Hash, limitType: string, interval: string)

  datatype Window = Window(
    key: WindowKey, start: Time, end: Time,
    used: int, observed: int, limit: int, blockedUntil: Option<Time>)

  datatype PermitState = Reserved | Consumed | Expired

  /** Everything a permit binds that the gateway presents again when it consumes. */
  datatype Envelope = Envelope(
    service: string, instance: string, environment: string, authority: string, endpoint: string,
    connection: Option<string>, catalog: Hash, canonical: Hash, parameter: Hash, wire: Hash,
    facts: Hash, capability: Hash, document: Hash)

  datatype Permit = Permit(
    requestKey: string, envelope: Envelope, opClass: string, nonce: string, epoch: int,
    state: PermitState, reservedAt: Time, expiresAt: Time,
    consumedAt: Option<Time>, gateway: Option<string>)

  datatype Nonce = Nonce(payload: Hash, state: PermitState, expiresAt: Time, consumedAt: Option<Time>)

  /** One row of the append-only ledger; windows are numbered by their identity column. */
  datatype Allocation = Allocation(permit: string, window: nat, cost: int, before: int, after: int)

  // ---------------------------------------------------------------- endpoint policies

  datatype CostItem = CostItem(limitType: string, scope: Hash, interval: string, cost: int, ceiling: int)

  /** A stored cost vector, in the order the reservation scans it. */
  datatype CostVector = NotAnArray | Items(items: seq<CostItem>)

  datatype PolicyKey = PolicyKey(authority: string, endpoint: string, catalog: Hash)

  /** `contracted` holds when both endpoint contract columns are present. */
  datatype Policy = Policy(
    signed: bool, callers: set<string>, classes: set<string>, vectors: map<string, CostVector>,
    validFrom: Time, validUntil: Time, contracted: bool)

  // ---------------------------------------------------------------- gateway messages

  datatype MessageKind =
    | SendOutcome
    | HeaderObservation
    | ConnectionStateObservation
    | ServerTimeObservation
    | ExchangeRateLimitObservation

  datatype OutcomeCode = NotSent | SentDefiniteResult | SentUnknown | OtherOutcome(text: string)

  /** A JSON member read as an integer: missing or null, not an integer, or a value. */
  datatype IntField = Missing | Garbled | Number(n: int)

  datatype HeaderEntry = HeaderEntry(name: string, reading: IntField)

  datatype HeaderGroup = NotAnObject | Entries(entries: seq<HeaderEntry>)

  datatype Header = Header(weights: HeaderGroup, orders: HeaderGroup, status: IntField, retryAfter: IntField)

  /** A message body; `None` fields are absent from the document, which SQL compares as unknown. */
  datatype GatewayMessage =
    | Malformed
    | Message(
        id: string, kind: MessageKind, gateway: string, permit: Option<string>, epoch: Option<int>,
        occurredAt: Option<Time>, authority: Option<string>, canonical: Option<Hash>,
        outcome: Option<OutcomeCode>, header: Header, payload: Hash)

  datatype Receipt = Receipt(kind: MessageKind, payload: Hash)

  datatype OutcomeRow = OutcomeRow(
    message: string, permit: string, gateway: string, outcome: OutcomeCode, payload: Hash, occurredAt: Time)

  datatype Observation = Observation(
    message: string, kind: MessageKind, authority: string, permit: Option<string>, gateway: string,
    epoch: Option<int>, header: Header, payload: Hash, occurredAt: Time)

  datatype BlockReason = Http418Indefinite | Http429Backoff

  /** `until == None` is the indefinite block. */
  datatype Block = Block(until: Option<Time>, reason: BlockReason, count: nat, source: string)

  // ---------------------------------------------------------------- the database

  /** A table by its primary key. */
  datatype Table<K, V> = Table(rows: map<K, V>) {
    function Put(key: K, row: V): Table<K, V> {
      Table(rows[key := row])
    }
  }

  /** `keyIndex` is the unique index on permits(request_key). */
  datatype State = State(
    fencing: Fencing, events: seq<LeaseEvent>,
    windows: seq<Window>, allocations: seq<Allocation>,
    permits: Table<string, Permit>, keyIndex: Table<string, string>, nonces: Table<string, Nonce>,
    policies: Table<PolicyKey, Policy>,
    receipts: Table<string, Receipt>, outcomes: seq<OutcomeRow>, observations: seq<Observation>,
    blocks: Table<string, Block>)

  const UNINITIALIZED := "UNINITIALIZED"

  /** The database as the migrations leave it. */
  const INITIAL := State(
    Fencing(1, UNINITIALIZED, None), [], [], [], Table(map[]), Table(map[]), Table(map[]), Table(map[]),
    Table(map[]), [], [], Table(map[]))

  // ---------------------------------------------------------------- replies

  datatype Reason =
    | FencingRequestInvalid | FencingEpochStale | FencingLeaseHeld
    | RateFencingStale | RateAuthorityUnavailable | RateScopeBlocked | RateCapabilityReplayed
    | RateEndpointUnknown | RateCallerNotAllowed | RateCausalRoleInvalid | RateClassCeilingExceeded
    | RatePermitUnknown | RatePermitAlreadyConsumed | RatePermitExpired | RatePermitBindingMismatch
    | RateParameterHashMismatch | RateWireHashMismatch | RateRequestDocumentHashMismatch
    | RateOperationFactsMismatch | RateCapabilityInvalidOrReplayed
    | GatewayEventInvalid | GatewayEventReplayed | GatewayEventBindingMismatch | GatewayEventConflict

  /** `Aborted` is a constraint violation: the transaction rolls back and the caller sees an error. */
  datatype Reply =
    | LeaseGranted(kind: LeaseEventKind, leaseEpoch: int, leaseExpires: Time)
    | LeaseDenied(leaseReason: Reason, currentEpoch: int)
    | ReserveGranted(permit: string, opClass: string, permitEpoch: int, permitExpires: Time)
    | ReserveDenied(reserveReason: Reason)
    | ConsumeGranted(deadline: Time)
    | ConsumeDenied(consumeReason: Reason)
    | Recorded(first: bool)
    | RecordDenied(recordReason: Reason)
    | Done
    | Aborted

  datatype Outcome = Outcome(state: State, reply: Reply)

  datatype ReserveRequest = ReserveRequest(
    permit: string, requestKey: string, envelope: Envelope, opClass: string, nonce: string,
    epoch: int, expiresAt: Time)

  datatype ConsumeRequest = ConsumeRequest(permit: string, envelope: Envelope, epoch: int, gateway: string)
}
