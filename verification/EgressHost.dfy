/**
 The host as a whole: the rate authority's database and any number of gateways that consume permits,
 put requests on the wire and journal the outcome.  Gateways act in small steps, so every
 interleaving of their calls with each other and with other database users is a run.
 */
module EgressHost {
  import opened RateTables
  import opened RateAuthority

  // ---------------------------------------------------------------- destinations

  const PRODUCTION_FAPI := "BINANCE_PRODUCTION_FAPI"
  const PRODUCTION_FSTREAM := "BINANCE_PRODUCTION_FSTREAM"
  const TESTNET_FAPI := "BINANCE_TESTNET_FAPI"
  const TESTNET_FSTREAM := "BINANCE_TESTNET_FSTREAM"

  datatype Transport = Rest | WsApi | MarketStreamControl

  datatype Origin = Origin(scheme: string, host: string)

  /** The closed table of destinations. */
  function Destination(authority: string, transport: Transport): Option<Origin> {
    if authority == PRODUCTION_FAPI && transport.Rest? then Some(Origin("https", "fapi.binance.com"))
    else if authority == PRODUCTION_FAPI && transport.WsApi? then Some(Origin("wss", "ws-fapi.binance.com"))
    else if authority == PRODUCTION_FSTREAM && transport.MarketStreamControl? then
      Some(Origin("wss", "fstream.binance.com"))
    else if authority == TESTNET_FAPI && transport.Rest? then Some(Origin("https", "demo-fapi.binance.com"))
    else if authority == TESTNET_FAPI && transport.WsApi? then Some(Origin("wss", "testnet.binancefuture.com"))
    else if authority == TESTNET_FSTREAM && transport.MarketStreamControl? then
      Some(Origin("wss", "demo-fstream.binance.com"))
    else None
  }

  const TESTNET_PREFIX := "BINANCE_TESTNET_"

  predicate EnvironmentMatches(authority: string, environment: string) {
    if TESTNET_PREFIX <= authority then environment == "testnet"
    else environment == "shadow" || environment == "paper" || environment == "production"
  }

  predicate DestinationAllowed(r: Request) {
    && EnvironmentMatches(r.authority, r.environment)
    && Destination(r.authority, r.transport) == Some(Origin(r.scheme, r.host))
  }

  // ---------------------------------------------------------------- requests

  /** A closed gateway request; `facts` and `document` are the hashes the gateway derives from it. */
  datatype Request = Request(
    service: string, instance: string, environment: string, authority: string, endpoint: string,
    transport: Transport, scheme: string, host: string, connection: Option<string>,
    catalog: Hash, canonical: Hash, parameter: Hash, wire: Hash, facts: Hash, document: Hash,
    createdAt: Time, expiresAt: Time)

  datatype Binding = Binding(
    permit: string, connection: Option<string>, catalog: Hash, canonical: Hash, parameter: Hash, wire: Hash,
    document: Hash, facts: Hash, capability: Hash, epoch: int, expiresAt: Time)

  /** Checks whose inputs lie outside the pipeline: schema, caller list, catalog, endpoint contract and hashes. */
  datatype Vetting = Vetting(
    isSendRequest: bool, parses: bool, callerAllowed: bool, catalogCurrent: bool, endpointKnown: bool,
    derivationsMatch: bool)

  datatype SendMessage = SendMessage(vetting: Vetting, request: Request, binding: Option<Binding>, correlation: string)

  predicate BindingMatches(r: Request, b: Binding) {
    && b.connection == r.connection
    && b.catalog == r.catalog
    && b.canonical == r.canonical
    && b.parameter == r.parameter
    && b.wire == r.wire
    && b.document == r.document
    && b.facts == r.facts
  }

  /** Everything the gateway checks before it spends the permit; a latched gateway admits nothing. */
  predicate Admits(latched: bool, m: SendMessage, now: Time) {
    && m.vetting.isSendRequest
    && !latched
    && m.vetting.parses
    && m.vetting.callerAllowed
    && m.vetting.catalogCurrent
    && m.vetting.endpointKnown
    && DestinationAllowed(m.request)
    && m.request.createdAt <= now < m.request.expiresAt
    && m.vetting.derivationsMatch
    && m.binding.Some?
    && now < m.binding.value.expiresAt
    && m.request.expiresAt <= m.binding.value.expiresAt
    && BindingMatches(m.request, m.binding.value)
  }

  /** The envelope the gateway presents: the request as it derived it, the capability from the binding. */
  function Presented(r: Request, b: Binding): Envelope {
    Envelope(r.service, r.instance, r.environment, r.authority, r.endpoint, r.connection, r.catalog, r.canonical,
             r.parameter, r.wire, r.facts, b.capability, r.document)
  }

  function ConsumeFor(gateway: string, r: Request, b: Binding): ConsumeRequest {
    ConsumeRequest(b.permit, Presented(r, b), b.epoch, gateway)
  }

  // ---------------------------------------------------------------- the consume exchange

  datatype ConsumeResponse = ConsumeResponse(
    service: string, correlation: string, answers: string, permit: string, connection: Option<string>,
    canonical: Hash, parameter: Hash, wire: Hash, document: Hash, facts: Hash, capability: Hash,
    epoch: int, granted: bool, nonceConsumed: bool, deadline: Time)

  /** The service echoes the request and adds the database's decision. */
  function Respond(service: string, correlation: string, messageId: string, req: ConsumeRequest,
                   reply: Reply): ConsumeResponse
  {
    ConsumeResponse(service, correlation, messageId, req.permit, req.envelope.connection, req.envelope.canonical,
                    req.envelope.parameter, req.envelope.wire, req.envelope.document, req.envelope.facts,
                    req.envelope.capability, req.epoch, reply.ConsumeGranted?, reply.ConsumeGranted?,
                    if reply.ConsumeGranted? then reply.deadline else 0)
  }

  /** The gateway accepts a response only if it answers this very request, and a grant only inside both expiries. */
  predicate ResponseMatches(resp: ConsumeResponse, service: string, correlation: string, messageId: string,
                            r: Request, b: Binding)
  {
    && resp.service == service
    && resp.correlation == correlation
    && resp.answers == messageId
    && resp.permit == b.permit
    && resp.connection == r.connection
    && resp.canonical == r.canonical
    && resp.parameter == r.parameter
    && resp.wire == r.wire
    && resp.document == r.document
    && resp.facts == r.facts
    && resp.capability == b.capability
    && resp.epoch == b.epoch
    && (resp.granted ==> resp.nonceConsumed && resp.deadline <= b.expiresAt && resp.deadline <= r.expiresAt)
  }

  /** What becomes of the request to the service and of its answer. */
  datatype Exchange =
    | RequestLost                                         // never reaches the database
    | RolledBack                                          // the audit insert failed: denied, nothing committed
    | ReplyLost                                           // committed, but the gateway sees an error
    | Answered(service: string, schemaValid: bool)

  /** How a transport call ends; `RaisedDenial` is the gateway's own refusal exception coming out of the transport. */
  datatype TransportEnd = Returned | Raised | RaisedDenial

  /** What becomes of one attempt to journal the outcome. */
  datatype Delivery = Undelivered | AckLost | Acknowledged

  // ---------------------------------------------------------------- gateways

  datatype Call = Call(request: Request, binding: Binding)

  /** Where a gateway is inside its current call; `sent` records whether transport was reached. */
  datatype Phase =
    | Idle
    | Ready(call: Call, deadline: Time)
    | Journaling(call: Call, document: GatewayMessage, tries: nat, sent: bool)

  /** One transport call of a gateway's lifetime. */
  datatype Send = Send(permit: string, journaled: bool)

  /** `service` is the rate service instance the gateway trusts; `since` is the wire's length when it started. */
  datatype Gateway = Gateway(service: string, latched: bool, phase: Phase, sends: seq<Send>, since: nat)

  /** One transport call, with how it ended. */
  datatype WireEvent = WireEvent(
    gateway: string, request: Request, binding: Binding, at: Time, deadline: Time, end: TransportEnd)

  datatype Host = Host(db: State, gateways: map<string, Gateway>, wire: seq<WireEvent>)

  const INITIAL_HOST := Host(INITIAL, map[], [])

  /** Fresh identifiers the gateway draws for the outcome document, with its time and hash. */
  datatype Stamp = Stamp(id: string, occurredAt: Time, payload: Hash)

  const NO_HEADER := Header(Entries([]), Entries([]), Missing, Missing)

  function OutcomeDocument(gateway: string, call: Call, outcome: OutcomeCode, stamp: Stamp): GatewayMessage {
    Message(stamp.id, SendOutcome, gateway, Some(call.binding.permit), Some(call.binding.epoch), Some(stamp.occurredAt),
            None, Some(call.request.canonical), Some(outcome), NO_HEADER, stamp.payload)
  }

  datatype Event =
    | DatabaseEvent(step: Step)
    | Restart(g: string, service: string)
    | Submit(g: string, message: SendMessage, clock: Time, dbNow: Time, exchange: Exchange, messageId: string,
             stamp: Stamp)
    | Transmit(g: string, clock: Time, end: TransportEnd, stamp: Stamp)
    | Notify(g: string, delivery: Delivery, dbNow: Time)

  // ---------------------------------------------------------------- steps

  function Put(h: Host, g: string, gw: Gateway): Host {
    h.(gateways := h.gateways[g := gw])
  }

  /** The gateway after an answered consume: ready to send, journaling a refusal to send, or done. */
  function AfterAnswer(gw: Gateway, g: string, m: SendMessage, resp: ConsumeResponse, messageId: string,
                       stamp: Stamp): Gateway
    requires m.binding.Some?
  {
    var call := Call(m.request, m.binding.value);
    if ResponseMatches(resp, gw.service, m.correlation, messageId, m.request, m.binding.value) then
      if resp.granted then gw.(phase := Ready(call, resp.deadline)) else gw
    else if resp.granted then gw.(phase := Journaling(call, OutcomeDocument(g, call, NotSent, stamp), 0, false))
    else gw
  }

  function SubmitStep(h: Host, g: string, m: SendMessage, clock: Time, dbNow: Time, exchange: Exchange,
                      messageId: string, stamp: Stamp): Host
    requires g in h.gateways
  {
    var gw := h.gateways[g];
    if !gw.phase.Idle? || !Admits(gw.latched, m, clock) then h
    else
      var req := ConsumeFor(g, m.request, m.binding.value);
      var o := Consume(h.db, req, dbNow);
      match exchange
      case RequestLost => h
      case RolledBack => h
      case ReplyLost => h.(db := o.state)
      case Answered(service, schemaValid) =>
        if !schemaValid then h.(db := o.state)
        else
          var resp := Respond(service, m.correlation, messageId, req, o.reply);
          Put(h.(db := o.state), g, AfterAnswer(gw, g, m, resp, messageId, stamp))
  }

  /** The last checks before the socket. */
  predicate MaySend(call: Call, deadline: Time, clock: Time) {
    && DestinationAllowed(call.request)
    && clock < call.request.expiresAt
    && clock < deadline
    && call.binding.permit != ""
  }

  /** What the gateway will report for a transport call that ended this way. */
  function OutcomeOf(end: TransportEnd): OutcomeCode {
    match end
    case Returned => SentDefiniteResult
    case Raised => SentUnknown
    case RaisedDenial => NotSent
  }

  function TransmitStep(h: Host, g: string, clock: Time, end: TransportEnd, stamp: Stamp): Host
    requires g in h.gateways
  {
    var gw := h.gateways[g];
    if !gw.phase.Ready? then h
    else
      var call := gw.phase.call;
      if !MaySend(call, gw.phase.deadline, clock) then
        Put(h, g, gw.(phase := Journaling(call, OutcomeDocument(g, call, NotSent, stamp), 0, false)))
      else
        Put(h.(wire := h.wire + [WireEvent(g, call.request, call.binding, clock, gw.phase.deadline, end)]), g,
            gw.(phase := Journaling(call, OutcomeDocument(g, call, OutcomeOf(end), stamp), 0, true),
                sends := gw.sends + [Send(call.binding.permit, false)]))
  }

  const JOURNAL_TRIES: nat := 3

  function MarkLast(sends: seq<Send>): seq<Send> {
    if sends == [] then [] else sends[|sends| - 1 := sends[|sends| - 1].(journaled := true)]
  }

  /** The gateway after one attempt: done, trying again, or latched shut after the last failure. */
  function AfterAttempt(gw: Gateway, acknowledged: bool): Gateway
    requires gw.phase.Journaling?
  {
    if acknowledged then gw.(phase := Idle, sends := if gw.phase.sent then MarkLast(gw.sends) else gw.sends)
    else if gw.phase.tries + 1 >= JOURNAL_TRIES then gw.(phase := Idle, latched := true)
    else gw.(phase := gw.phase.(tries := gw.phase.tries + 1))
  }

  function NotifyStep(h: Host, g: string, delivery: Delivery, dbNow: Time): Host
    requires g in h.gateways
  {
    var gw := h.gateways[g];
    if !gw.phase.Journaling? then h
    else if delivery.Undelivered? then Put(h, g, AfterAttempt(gw, false))
    else
      var o := Record(h.db, gw.phase.document, dbNow);
      Put(h.(db := o.state), g, AfterAttempt(gw, delivery.Acknowledged? && o.reply.Recorded?))
  }

  /** No gateway is waiting to journal a document under this identifier. */
  predicate NotPending(gateways: map<string, Gateway>, id: string) {
    forall g :: g in gateways && gateways[g].phase.Journaling? ==> gateways[g].phase.document.Message? ==>
      gateways[g].phase.document.id != id
  }

  /** Identifiers are drawn fresh: no outcome document reuses one, and no other message takes a pending one. */
  predicate FreshIds(h: Host, e: Event) {
    match e
    case DatabaseEvent(RecordStep(m, _)) => m.Message? ==> NotPending(h.gateways, m.id)
    case Submit(_, _, _, _, _, _, stamp) => NotPending(h.gateways, stamp.id) && stamp.id !in h.db.receipts.rows
    case Transmit(_, _, _, stamp) => NotPending(h.gateways, stamp.id) && stamp.id !in h.db.receipts.rows
    case _ => true
  }

  /** One event of the host.  Events of a gateway that does not exist, or with a stale identifier, do not happen. */
  function HostNext(h: Host, e: Event): Host {
    if !FreshIds(h, e) then h
    else
      match e
      case DatabaseEvent(step) => h.(db := Next(h.db, step).state)
      case Restart(g, service) => Put(h, g, Gateway(service, false, Idle, [], |h.wire|))
      case Submit(g, m, clock, dbNow, exchange, messageId, stamp) =>
        if g in h.gateways then SubmitStep(h, g, m, clock, dbNow, exchange, messageId, stamp) else h
      case Transmit(g, clock, end, stamp) => if g in h.gateways then TransmitStep(h, g, clock, end, stamp) else h
      case Notify(g, delivery, dbNow) => if g in h.gateways then NotifyStep(h, g, delivery, dbNow) else h
  }

  function HostRun(h: Host, events: seq<Event>): Host {
    if events == [] then h else HostNext(HostRun(h, events[..|events| - 1]), events[|events| - 1])
  }
}
