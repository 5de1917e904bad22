/**
 Safety of the whole host, for every interleaving: a permit reaches the wire at most once, what is on
 the wire stays within every window's limit, and a gateway never sends again after a send it could
 not journal.
 */
module EgressLaws {
  import opened RateTables
  import opened RateAuthority
  import opened StepShapes
  import opened EgressHost
  import opened PermitLaws
  import opened JournalLaws
  import opened AuthorityRuns

  // ---------------------------------------------------------------- the wire

  /** The permit was reserved for exactly this request and consumed by this gateway. */
  predicate Spent(db: State, g: string, call: Call, deadline: Time) {
    && ConsumedBy(db.permits.rows, call.binding.permit, g)
    && db.permits.rows[call.binding.permit].envelope == Presented(call.request, call.binding)
    && deadline <= db.permits.rows[call.binding.permit].expiresAt
  }

  /** The binding was issued for this request, outlives it, and the request goes to an allowed destination. */
  predicate VettedCall(call: Call) {
    var r, b := call.request, call.binding;
    && b.connection == r.connection && b.catalog == r.catalog && b.canonical == r.canonical
    && b.parameter == r.parameter && b.wire == r.wire && b.document == r.document && b.facts == r.facts
    && r.expiresAt <= b.expiresAt
    && DestinationAllowed(r)
  }

  /** And the deadline lies inside both expiries. */
  predicate Vetted(call: Call, deadline: Time) {
    VettedCall(call) && deadline <= call.binding.expiresAt && deadline <= call.request.expiresAt
  }

  predicate WireSound(db: State, e: WireEvent) {
    && Spent(db, e.gateway, Call(e.request, e.binding), e.deadline)
    && Vetted(Call(e.request, e.binding), e.deadline)
    && e.at < e.deadline
    && e.at < e.request.expiresAt
  }

  ghost predicate OnWire(wire: seq<WireEvent>, permit: string) {
    exists k :: 0 <= k < |wire| && wire[k].binding.permit == permit
  }

  ghost predicate WireInv(db: State, wire: seq<WireEvent>) {
    && (forall k :: 0 <= k < |wire| ==> WireSound(db, wire[k]))
    && (forall i, j :: 0 <= i < j < |wire| ==> wire[i].binding.permit != wire[j].binding.permit)
  }

  // ---------------------------------------------------------------- one gateway

  predicate JournaledUpTo(sends: seq<Send>, n: int) {
    forall k :: 0 <= k < n && k < |sends| ==> sends[k].journaled
  }

  /** A send marked journaled has its outcome row in the database. */
  ghost predicate SendsRecorded(db: State, sends: seq<Send>) {
    forall k :: 0 <= k < |sends| && sends[k].journaled ==> HasOutcome(db.outcomes, sends[k].permit)
  }

  /** What the gateway sent since it started, in order. */
  function SentSince(wire: seq<WireEvent>, g: string, since: nat): seq<string> {
    if |wire| <= since then []
    else
      var last := wire[|wire| - 1];
      SentSince(wire[..|wire| - 1], g, since) + if last.gateway == g then [last.binding.permit] else []
  }

  function PermitsOf(sends: seq<Send>): seq<string> {
    seq(|sends|, k requires 0 <= k < |sends| => sends[k].permit)
  }

  /** The gateway's own list of sends is its part of the wire. */
  predicate SendsOnWire(wire: seq<WireEvent>, g: string, gw: Gateway) {
    gw.since <= |wire| && PermitsOf(gw.sends) == SentSince(wire, g, gw.since)
  }

  /** How a transport call that ended this way is to be reported. */
  predicate ReportsEnd(end: TransportEnd, outcome: Option<OutcomeCode>) {
    || (end.Returned? && outcome == Some(SentDefiniteResult))
    || (end.Raised? && outcome == Some(SentUnknown))
    || (end.RaisedDenial? && outcome == Some(NotSent))
  }

  /** The permit is on the wire with an end that is reported this way. */
  ghost predicate ReportedAs(wire: seq<WireEvent>, permit: string, outcome: Option<OutcomeCode>) {
    exists k :: 0 <= k < |wire| && wire[k].binding.permit == permit && ReportsEnd(wire[k].end, outcome)
  }

  /** What a pending report says about the wire: nothing went out, or how what went out ended. */
  ghost predicate Truthful(wire: seq<WireEvent>, permit: string, outcome: Option<OutcomeCode>, sent: bool) {
    if sent then ReportedAs(wire, permit, outcome) else !OnWire(wire, permit) && outcome == Some(NotSent)
  }

  /** The binding carries the permit's own epoch. */
  predicate OwnEpoch(db: State, b: Binding) {
    b.permit in db.permits.rows && b.epoch == db.permits.rows[b.permit].epoch
  }

  /** The pending document reports this call, and a receipt for it means that it was recorded. */
  predicate PendingSound(db: State, g: string, call: Call, document: GatewayMessage) {
    && document.Message? && document.kind.SendOutcome?
    && document.permit == Some(call.binding.permit)
    && document.gateway == g
    && document.epoch == Some(call.binding.epoch)
    && (document.id in db.receipts.rows ==>
          HasOutcome(db.outcomes, call.binding.permit) && OwnEpoch(db, call.binding))
  }

  ghost predicate PhaseSound(db: State, wire: seq<WireEvent>, g: string, gw: Gateway) {
    match gw.phase
    case Idle => JournaledUpTo(gw.sends, if gw.latched then |gw.sends| - 1 else |gw.sends|)
    case Ready(call, deadline) =>
      && !gw.latched
      && JournaledUpTo(gw.sends, |gw.sends|)
      && Spent(db, g, call, deadline) && Vetted(call, deadline)
      && !OnWire(wire, call.binding.permit)
    case Journaling(call, document, tries, sent) =>
      && !gw.latched
      && tries < JOURNAL_TRIES
      && PendingSound(db, g, call, document)
      && ConsumedBy(db.permits.rows, call.binding.permit, g)
      && Truthful(wire, call.binding.permit, document.outcome, sent)
      && (if sent then |gw.sends| > 0 && JournaledUpTo(gw.sends, |gw.sends| - 1)
                       && gw.sends[|gw.sends| - 1] == Send(call.binding.permit, false)
          else JournaledUpTo(gw.sends, |gw.sends|))
  }

  ghost predicate GatewaySound(db: State, wire: seq<WireEvent>, g: string, gw: Gateway) {
    PhaseSound(db, wire, g, gw) && SendsRecorded(db, gw.sends) && SendsOnWire(wire, g, gw)
  }

  /** Both gateways wait, and under the same identifier. */
  predicate SameWait(a: Gateway, b: Gateway) {
    && a.phase.Journaling? && b.phase.Journaling?
    && a.phase.document.Message? && b.phase.document.Message?
    && a.phase.document.id == b.phase.document.id
  }

  /** No two gateways wait under the same identifier. */
  ghost predicate PendingDistinct(gateways: map<string, Gateway>) {
    forall a, b :: a in gateways && b in gateways && a != b ==> !SameWait(gateways[a], gateways[b])
  }

  /** Database, wire and gateways agree with each other. */
  ghost predicate Linked(h: Host) {
    && PendingDistinct(h.gateways)
    && WireInv(h.db, h.wire)
    && (forall g :: g in h.gateways ==> GatewaySound(h.db, h.wire, g, h.gateways[g]))
  }

  ghost predicate HostInv(h: Host) {
    Inv(h.db) && Linked(h)
  }

  // ---------------------------------------------------------------- the database moves on

  lemma OutcomesStay(a: seq<OutcomeRow>, b: seq<OutcomeRow>, permit: string)
    requires a <= b && HasOutcome(a, permit)
    ensures HasOutcome(b, permit)
  {
    var i :| 0 <= i < |a| && a[i].permit == permit;
    assert b[i].permit == permit;
  }

  lemma SpentStays(db: State, after: State, g: string, call: Call, deadline: Time)
    requires PermitsMoved(db.permits.rows, after.permits.rows) && Spent(db, g, call, deadline)
    ensures Spent(after, g, call, deadline)
  {
    assert PermitMoved(db.permits.rows[call.binding.permit], after.permits.rows[call.binding.permit]);
  }

  lemma WireStays(db: State, after: State, wire: seq<WireEvent>)
    requires PermitsMoved(db.permits.rows, after.permits.rows) && WireInv(db, wire)
    ensures WireInv(after, wire)
  {
    forall k | 0 <= k < |wire| ensures WireSound(after, wire[k]) {
      SpentStays(db, after, wire[k].gateway, Call(wire[k].request, wire[k].binding), wire[k].deadline);
    }
  }

  /** Database progress keeps a gateway sound as long as nobody else takes its pending identifier. */
  lemma GatewayStays(db: State, after: State, wire: seq<WireEvent>, g: string, gw: Gateway)
    requires GatewaySound(db, wire, g, gw)
    requires PermitsMoved(db.permits.rows, after.permits.rows) && db.outcomes <= after.outcomes
    requires gw.phase.Journaling? && gw.phase.document.Message? && gw.phase.document.id !in db.receipts.rows ==>
               gw.phase.document.id !in after.receipts.rows
    ensures GatewaySound(after, wire, g, gw)
  {
    forall k | 0 <= k < |gw.sends| && gw.sends[k].journaled ensures HasOutcome(after.outcomes, gw.sends[k].permit) {
      OutcomesStay(db.outcomes, after.outcomes, gw.sends[k].permit);
    }
    match gw.phase
    case Idle =>
    case Ready(call, deadline) => SpentStays(db, after, g, call, deadline);
    case Journaling(call, document, tries, sent) =>
      assert PermitMoved(db.permits.rows[call.binding.permit], after.permits.rows[call.binding.permit]);
      if HasOutcome(db.outcomes, call.binding.permit) {
        OutcomesStay(db.outcomes, after.outcomes, call.binding.permit);
      }
  }

  /** Only recording a message adds a receipt, and only under its own identifier. */
  lemma NewReceipts(s: State, step: Step, id: string)
    requires id !in s.receipts.rows && id in Next(s, step).state.receipts.rows
    ensures step.RecordStep? && step.message.Message? && step.message.id == id
  {
    match step
    case ReserveStep(req, leaseClock, now) => StepShapesReceipts(s, req, leaseClock, now);
    case RecordStep(m, now) => RecordAllOrNothing(s, m, now);
    case _ =>
  }

  lemma StepShapesReceipts(s: State, req: ReserveRequest, leaseClock: Time, now: Time)
    ensures Reserve(s, req, leaseClock, now).state.receipts == s.receipts
  {
  }

  /** The identifier a gateway waits under, if any. */
  predicate WaitsUnder(gw: Gateway, id: string) {
    gw.phase.Journaling? && gw.phase.document.Message? && gw.phase.document.id == id
  }

  /** Database progress that takes no pending identifier keeps everything linked. */
  lemma LinksStay(h: Host, after: State)
    requires Linked(h)
    requires PermitsMoved(h.db.permits.rows, after.permits.rows) && h.db.outcomes <= after.outcomes
    requires forall g, id :: g in h.gateways && WaitsUnder(h.gateways[g], id) && id in after.receipts.rows ==>
      id in h.db.receipts.rows
    ensures Linked(h.(db := after))
  {
    WireStays(h.db, after, h.wire);
    forall g | g in h.gateways ensures GatewaySound(after, h.wire, g, h.gateways[g]) {
      var gw := h.gateways[g];
      if gw.phase.Journaling? && gw.phase.document.Message? {
        assert WaitsUnder(gw, gw.phase.document.id);
      }
      GatewayStays(h.db, after, h.wire, g, gw);
    }
  }

  lemma StepMoves(s: State, step: Step)
    requires PermitInv(s)
    ensures PermitsMoved(s.permits.rows, Next(s, step).state.permits.rows) && s.outcomes <= Next(s, step).state.outcomes
  {
    StepEvolves(s, step);
  }

  lemma DatabaseEventKeeps(h: Host, step: Step)
    requires PermitInv(h.db) && Linked(h) && FreshIds(h, DatabaseEvent(step))
    ensures Linked(h.(db := Next(h.db, step).state))
  {
    var after := Next(h.db, step).state;
    StepMoves(h.db, step);
    forall g, id | g in h.gateways && WaitsUnder(h.gateways[g], id) && id in after.receipts.rows
      ensures id in h.db.receipts.rows
    {
      if id !in h.db.receipts.rows {
        NewReceipts(h.db, step, id);
      }
    }
    LinksStay(h, after);
  }

  // ---------------------------------------------------------------- a gateway moves

  /** The new record waits under no identifier, its old one, or one nobody else waits under. */
  predicate FreshPending(gateways: map<string, Gateway>, g: string, gw: Gateway) {
    gw.phase.Journaling? && gw.phase.document.Message? ==>
      || NotPending(gateways, gw.phase.document.id)
      || (g in gateways && gateways[g].phase.Journaling? && gateways[g].phase.document == gw.phase.document)
  }

  lemma PendingStaysDistinct(gateways: map<string, Gateway>, g: string, gw: Gateway)
    requires PendingDistinct(gateways) && FreshPending(gateways, g, gw)
    ensures PendingDistinct(gateways[g := gw])
  {
  }

  /** Replacing one gateway's record by a sound one keeps the host. */
  lemma PutKeeps(h: Host, g: string, gw: Gateway)
    requires WireInv(h.db, h.wire) && PendingDistinct(h.gateways)
    requires forall other :: other in h.gateways && other != g ==> GatewaySound(h.db, h.wire, other, h.gateways[other])
    requires GatewaySound(h.db, h.wire, g, gw) && FreshPending(h.gateways, g, gw)
    ensures Linked(Put(h, g, gw))
  {
    PendingStaysDistinct(h.gateways, g, gw);
    forall other | other in Put(h, g, gw).gateways
      ensures GatewaySound(h.db, h.wire, other, Put(h, g, gw).gateways[other])
    {
    }
  }

  lemma PutSound(h: Host, g: string, gw: Gateway)
    requires Linked(h) && GatewaySound(h.db, h.wire, g, gw) && FreshPending(h.gateways, g, gw)
    ensures Linked(Put(h, g, gw))
  {
    PutKeeps(h, g, gw);
  }

  /** A granted consume cannot concern a permit already on the wire. */
  lemma GrantedIsNotOnWire(db: State, wire: seq<WireEvent>, req: ConsumeRequest, dbNow: Time)
    requires PermitInv(db) && WireInv(db, wire) && Consume(db, req, dbNow).reply.ConsumeGranted?
    ensures !OnWire(wire, req.permit)
  {
    ConsumeGrantedIff(db, req, dbNow);
    forall k | 0 <= k < |wire| ensures wire[k].binding.permit != req.permit {
      assert WireSound(db, wire[k]);
    }
  }

  lemma GrantedIsSpent(db: State, g: string, call: Call, dbNow: Time)
    requires PermitInv(db) && Consume(db, ConsumeFor(g, call.request, call.binding), dbNow).reply.ConsumeGranted?
    ensures var o := Consume(db, ConsumeFor(g, call.request, call.binding), dbNow);
      Spent(o.state, g, call, o.reply.deadline)
  {
    ConsumeGrantedIff(db, ConsumeFor(g, call.request, call.binding), dbNow);
    ConsumeGrantedMeans(db, ConsumeFor(g, call.request, call.binding), dbNow);
  }

  /** Whatever the answer says, the gateway is sound after it. */
  lemma AnswerSound(after: State, wire: seq<WireEvent>, gw: Gateway, g: string, m: SendMessage, resp: ConsumeResponse,
                    messageId: string, stamp: Stamp)
    requires GatewaySound(after, wire, g, gw) && gw.phase.Idle? && !gw.latched && m.binding.Some?
    requires stamp.id !in after.receipts.rows && VettedCall(Call(m.request, m.binding.value))
    requires resp.granted ==>
      Spent(after, g, Call(m.request, m.binding.value), resp.deadline) && !OnWire(wire, m.binding.value.permit)
    ensures GatewaySound(after, wire, g, AfterAnswer(gw, g, m, resp, messageId, stamp))
  {
  }

  lemma ConsumeAddsNoReceipt(s: State, req: ConsumeRequest, dbNow: Time)
    ensures Consume(s, req, dbNow).state.receipts == s.receipts
  {
  }

  lemma OneOf(h: Host, g: string)
    requires Linked(h) && g in h.gateways
    ensures GatewaySound(h.db, h.wire, g, h.gateways[g])
  {
  }

  lemma ConsumeEventKeeps(h: Host, req: ConsumeRequest, dbNow: Time)
    requires PermitInv(h.db) && Linked(h)
    ensures Linked(h.(db := Consume(h.db, req, dbNow).state))
  {
    DatabaseEventKeeps(h, ConsumeStep(req, dbNow));
  }

  lemma AnswerKeeps(h: Host, g: string, m: SendMessage, dbNow: Time, service: string, messageId: string, stamp: Stamp)
    requires PermitInv(h.db) && Linked(h) && g in h.gateways
    requires m.binding.Some? && VettedCall(Call(m.request, m.binding.value))
    requires h.gateways[g].phase.Idle? && !h.gateways[g].latched && stamp.id !in h.db.receipts.rows
    ensures var req := ConsumeFor(g, m.request, m.binding.value);
      var o := Consume(h.db, req, dbNow);
      var resp := Respond(service, m.correlation, messageId, req, o.reply);
      GatewaySound(o.state, h.wire, g, AfterAnswer(h.gateways[g], g, m, resp, messageId, stamp))
  {
    var call := Call(m.request, m.binding.value);
    var req := ConsumeFor(g, call.request, call.binding);
    var o := Consume(h.db, req, dbNow);
    var resp := Respond(service, m.correlation, messageId, req, o.reply);
    ConsumeEventKeeps(h, req, dbNow);
    OneOf(h.(db := o.state), g);
    ConsumeAddsNoReceipt(h.db, req, dbNow);
    if o.reply.ConsumeGranted? {
      GrantedIsNotOnWire(h.db, h.wire, req, dbNow);
      GrantedIsSpent(h.db, g, call, dbNow);
    }
    AnswerSound(o.state, h.wire, h.gateways[g], g, m, resp, messageId, stamp);
  }

  lemma AnswerIsFresh(gateways: map<string, Gateway>, gw: Gateway, g: string, m: SendMessage, resp: ConsumeResponse,
                      messageId: string, stamp: Stamp)
    requires NotPending(gateways, stamp.id) && gw.phase.Idle? && m.binding.Some?
    ensures FreshPending(gateways, g, AfterAnswer(gw, g, m, resp, messageId, stamp))
  {
  }

  /** An answered consume, seen by the gateway. */
  lemma AnsweredKeeps(h: Host, g: string, m: SendMessage, dbNow: Time, service: string, messageId: string, stamp: Stamp)
    requires PermitInv(h.db) && Linked(h) && g in h.gateways
    requires m.binding.Some? && VettedCall(Call(m.request, m.binding.value))
    requires h.gateways[g].phase.Idle? && !h.gateways[g].latched
    requires stamp.id !in h.db.receipts.rows && NotPending(h.gateways, stamp.id)
    ensures var req := ConsumeFor(g, m.request, m.binding.value);
      var o := Consume(h.db, req, dbNow);
      var resp := Respond(service, m.correlation, messageId, req, o.reply);
      Linked(Put(h.(db := o.state), g, AfterAnswer(h.gateways[g], g, m, resp, messageId, stamp)))
  {
    var req := ConsumeFor(g, m.request, m.binding.value);
    var o := Consume(h.db, req, dbNow);
    var resp := Respond(service, m.correlation, messageId, req, o.reply);
    ConsumeEventKeeps(h, req, dbNow);
    AnswerKeeps(h, g, m, dbNow, service, messageId, stamp);
    AnswerIsFresh(h.gateways, h.gateways[g], g, m, resp, messageId, stamp);
    PutSound(h.(db := o.state), g, AfterAnswer(h.gateways[g], g, m, resp, messageId, stamp));
  }

  /** The shapes a submission leaves the host in. */
  lemma SubmitCases(h: Host, g: string, m: SendMessage, clock: Time, dbNow: Time, exchange: Exchange,
                    messageId: string, stamp: Stamp)
    requires g in h.gateways
    ensures var t := SubmitStep(h, g, m, clock, dbNow, exchange, messageId, stamp);
      || t == h
      || (&& h.gateways[g].phase.Idle? && !h.gateways[g].latched
          && m.binding.Some? && VettedCall(Call(m.request, m.binding.value))
          && var req := ConsumeFor(g, m.request, m.binding.value);
             var o := Consume(h.db, req, dbNow);
             || t == h.(db := o.state)
             || (&& exchange.Answered?
                 && var resp := Respond(exchange.service, m.correlation, messageId, req, o.reply);
                    t == Put(h.(db := o.state), g, AfterAnswer(h.gateways[g], g, m, resp, messageId, stamp))))
  {
  }

  lemma SubmitKeeps(h: Host, g: string, m: SendMessage, clock: Time, dbNow: Time, exchange: Exchange,
                    messageId: string, stamp: Stamp)
    requires PermitInv(h.db) && Linked(h) && g in h.gateways
    requires stamp.id !in h.db.receipts.rows && NotPending(h.gateways, stamp.id)
    ensures Linked(SubmitStep(h, g, m, clock, dbNow, exchange, messageId, stamp))
  {
    SubmitCases(h, g, m, clock, dbNow, exchange, messageId, stamp);
    if h.gateways[g].phase.Idle? && !h.gateways[g].latched && m.binding.Some?
       && VettedCall(Call(m.request, m.binding.value))
    {
      ConsumeEventKeeps(h, ConsumeFor(g, m.request, m.binding.value), dbNow);
      if exchange.Answered? {
        AnsweredKeeps(h, g, m, dbNow, exchange.service, messageId, stamp);
      }
    }
  }

  lemma OnWireGrows(wire: seq<WireEvent>, e: WireEvent, permit: string)
    ensures OnWire(wire + [e], permit) <==> OnWire(wire, permit) || e.binding.permit == permit
  {
    if k :| 0 <= k < |wire| && wire[k].binding.permit == permit {
      assert (wire + [e])[k].binding.permit == permit;
    }
    assert (wire + [e])[|wire|] == e;
  }

  lemma ReportStays(wire: seq<WireEvent>, e: WireEvent, permit: string, outcome: Option<OutcomeCode>)
    requires ReportedAs(wire, permit, outcome)
    ensures ReportedAs(wire + [e], permit, outcome)
  {
    var k :| 0 <= k < |wire| && wire[k].binding.permit == permit && ReportsEnd(wire[k].end, outcome);
    assert (wire + [e])[k] == wire[k];
  }

  lemma SentGrows(wire: seq<WireEvent>, e: WireEvent, g: string, since: nat)
    requires since <= |wire|
    ensures SentSince(wire + [e], g, since)
         == SentSince(wire, g, since) + if e.gateway == g then [e.binding.permit] else []
  {
    assert (wire + [e])[..|wire|] == wire;
  }

  /** Another gateway's pending permit is not the one being sent, because a permit has one consumer. */
  lemma WireGrows(db: State, wire: seq<WireEvent>, e: WireEvent, g: string, gw: Gateway)
    requires GatewaySound(db, wire, g, gw) && g != e.gateway
    requires ConsumedBy(db.permits.rows, e.binding.permit, e.gateway)
    ensures GatewaySound(db, wire + [e], g, gw)
  {
    SentGrows(wire, e, g, gw.since);
    if !gw.phase.Idle? {
      OnWireGrows(wire, e, gw.phase.call.binding.permit);
    }
    if gw.phase.Journaling? && gw.phase.sent {
      ReportStays(wire, e, gw.phase.call.binding.permit, gw.phase.document.outcome);
    }
  }

  lemma SendKeepsWire(db: State, wire: seq<WireEvent>, e: WireEvent)
    requires WireInv(db, wire) && WireSound(db, e) && !OnWire(wire, e.binding.permit)
    ensures WireInv(db, wire + [e])
  {
    forall k | 0 <= k < |wire| ensures wire[k].binding.permit != e.binding.permit {}
  }

  lemma LongerWireKeeps(h: Host, g: string, e: WireEvent)
    requires Linked(h) && e.gateway == g && WireSound(h.db, e) && !OnWire(h.wire, e.binding.permit)
    ensures WireInv(h.db, h.wire + [e])
    ensures forall other :: other in h.gateways && other != g ==>
      GatewaySound(h.db, h.wire + [e], other, h.gateways[other])
  {
    SendKeepsWire(h.db, h.wire, e);
    forall other | other in h.gateways && other != g
      ensures GatewaySound(h.db, h.wire + [e], other, h.gateways[other])
    {
      WireGrows(h.db, h.wire, e, other, h.gateways[other]);
    }
  }

  lemma SendingIsSound(db: State, wire: seq<WireEvent>, e: WireEvent, gw: Gateway, sending: Gateway)
    requires GatewaySound(db, wire, e.gateway, gw) && gw.phase.Ready?
    requires sending.phase.Journaling? && sending.phase.call == gw.phase.call && sending.phase.tries == 0
      && sending.phase.sent
    requires PendingSound(db, e.gateway, gw.phase.call, sending.phase.document)
    requires !sending.latched && sending.sends == gw.sends + [Send(gw.phase.call.binding.permit, false)]
    requires e.binding == gw.phase.call.binding && ReportsEnd(e.end, sending.phase.document.outcome)
    requires sending.since == gw.since
    ensures GatewaySound(db, wire + [e], e.gateway, sending)
  {
    SentGrows(wire, e, e.gateway, gw.since);
    assert PermitsOf(sending.sends) == PermitsOf(gw.sends) + [e.binding.permit];
    assert (wire + [e])[|wire|] == e;
  }

  lemma SendKeeps(h: Host, g: string, clock: Time, end: TransportEnd, stamp: Stamp)
    requires Linked(h) && g in h.gateways && stamp.id !in h.db.receipts.rows && NotPending(h.gateways, stamp.id)
    requires h.gateways[g].phase.Ready? && MaySend(h.gateways[g].phase.call, h.gateways[g].phase.deadline, clock)
    ensures Linked(TransmitStep(h, g, clock, end, stamp))
  {
    var gw := h.gateways[g];
    assert GatewaySound(h.db, h.wire, g, gw);
    var call := gw.phase.call;
    var e := WireEvent(g, call.request, call.binding, clock, gw.phase.deadline, end);
    LongerWireKeeps(h, g, e);
    var sending := gw.(phase := Journaling(call, OutcomeDocument(g, call, OutcomeOf(end), stamp), 0, true),
                       sends := gw.sends + [Send(call.binding.permit, false)]);
    SendingIsSound(h.db, h.wire, e, gw, sending);
    PutKeeps(h.(wire := h.wire + [e]), g, sending);
  }

  lemma TransmitKeeps(h: Host, g: string, clock: Time, end: TransportEnd, stamp: Stamp)
    requires Linked(h) && g in h.gateways && stamp.id !in h.db.receipts.rows && NotPending(h.gateways, stamp.id)
    ensures Linked(TransmitStep(h, g, clock, end, stamp))
  {
    var gw := h.gateways[g];
    assert GatewaySound(h.db, h.wire, g, gw);
    if gw.phase.Ready? {
      var call := gw.phase.call;
      if !MaySend(call, gw.phase.deadline, clock) {
        PutKeeps(h, g, gw.(phase := Journaling(call, OutcomeDocument(g, call, NotSent, stamp), 0, false)));
      } else {
        SendKeeps(h, g, clock, end, stamp);
      }
    }
  }

  /** An acknowledged attempt means the outcome row is in the database. */
  lemma AcknowledgedIsRecorded(db: State, g: string, call: Call, document: GatewayMessage, dbNow: Time)
    requires PendingSound(db, g, call, document) && Record(db, document, dbNow).reply.Recorded?
    ensures HasOutcome(Record(db, document, dbNow).state.outcomes, call.binding.permit) && OwnEpoch(db, call.binding)
  {
    RecordAllOrNothing(db, document, dbNow);
    if Record(db, document, dbNow).reply == Recorded(true) {
      RecordAppends(db, document, dbNow);
      var after := Record(db, document, dbNow).state;
      assert after.outcomes[|db.outcomes|].permit == call.binding.permit;
    }
  }

  /** One attempt leaves the trying gateway sound, whatever happened to it. */
  lemma AttemptKeeps(db: State, wire: seq<WireEvent>, g: string, gw: Gateway, acknowledged: bool)
    requires GatewaySound(db, wire, g, gw) && gw.phase.Journaling?
    requires acknowledged ==> HasOutcome(db.outcomes, gw.phase.call.binding.permit)
    ensures GatewaySound(db, wire, g, AfterAttempt(gw, acknowledged))
  {
    assert PermitsOf(MarkLast(gw.sends)) == PermitsOf(gw.sends);
  }

  lemma AttemptPutKeeps(h: Host, g: string, acknowledged: bool)
    requires Linked(h) && g in h.gateways && h.gateways[g].phase.Journaling?
    requires acknowledged ==> HasOutcome(h.db.outcomes, h.gateways[g].phase.call.binding.permit)
    ensures Linked(Put(h, g, AfterAttempt(h.gateways[g], acknowledged)))
  {
    OneOf(h, g);
    AttemptKeeps(h.db, h.wire, g, h.gateways[g], acknowledged);
    PutSound(h, g, AfterAttempt(h.gateways[g], acknowledged));
  }

  /** What recording adds: outcome rows at the end, at most one receipt, and no change to permits. */
  lemma RecordMoves(db: State, document: GatewayMessage, dbNow: Time)
    ensures var o := Record(db, document, dbNow);
      && db.permits == o.state.permits && db.outcomes <= o.state.outcomes
      && (forall id :: id in o.state.receipts.rows ==>
            id in db.receipts.rows || (o.reply.Recorded? && document.Message? && document.id == id))
  {
    RecordFrame(db, document, dbNow);
    RecordAllOrNothing(db, document, dbNow);
    if Record(db, document, dbNow).reply == Recorded(true) {
      RecordAppends(db, document, dbNow);
    }
  }

  /** After delivery the pending document is received, and then its outcome row exists. */
  lemma DeliveredStaysSound(db: State, wire: seq<WireEvent>, g: string, gw: Gateway, dbNow: Time)
    requires GatewaySound(db, wire, g, gw) && gw.phase.Journaling?
    ensures GatewaySound(Record(db, gw.phase.document, dbNow).state, wire, g, gw)
    ensures Record(db, gw.phase.document, dbNow).reply.Recorded? ==>
      HasOutcome(Record(db, gw.phase.document, dbNow).state.outcomes, gw.phase.call.binding.permit)
  {
    var o := Record(db, gw.phase.document, dbNow);
    RecordMoves(db, gw.phase.document, dbNow);
    GatewayStays(db, o.state.(receipts := db.receipts), wire, g, gw);
    if o.reply.Recorded? {
      AcknowledgedIsRecorded(db, g, gw.phase.call, gw.phase.document, dbNow);
    }
  }

  /** The other gateways do not notice, since none waits under the delivered identifier. */
  lemma OthersStay(h: Host, g: string, dbNow: Time, other: string)
    requires Linked(h) && g in h.gateways && other in h.gateways && other != g && h.gateways[g].phase.Journaling?
    ensures GatewaySound(Record(h.db, h.gateways[g].phase.document, dbNow).state, h.wire, other, h.gateways[other])
  {
    var document := h.gateways[g].phase.document;
    OneOf(h, g);
    OneOf(h, other);
    RecordMoves(h.db, document, dbNow);
    GatewayStays(h.db, Record(h.db, document, dbNow).state, h.wire, other, h.gateways[other]);
  }

  lemma DeliveredKeeps(h: Host, g: string, dbNow: Time)
    requires Linked(h) && g in h.gateways && h.gateways[g].phase.Journaling?
    ensures Linked(h.(db := Record(h.db, h.gateways[g].phase.document, dbNow).state))
  {
    var document := h.gateways[g].phase.document;
    var after := Record(h.db, document, dbNow).state;
    RecordMoves(h.db, document, dbNow);
    WireStays(h.db, after, h.wire);
    forall other | other in h.gateways ensures GatewaySound(after, h.wire, other, h.gateways[other]) {
      if other == g {
        DeliveredStaysSound(h.db, h.wire, g, h.gateways[g], dbNow);
      } else {
        OthersStay(h, g, dbNow, other);
      }
    }
  }

  lemma NotifyKeeps(h: Host, g: string, delivery: Delivery, dbNow: Time)
    requires Linked(h) && g in h.gateways
    ensures Linked(NotifyStep(h, g, delivery, dbNow))
  {
    var gw := h.gateways[g];
    if gw.phase.Journaling? {
      OneOf(h, g);
      if delivery.Undelivered? {
        AttemptPutKeeps(h, g, false);
      } else {
        var o := Record(h.db, gw.phase.document, dbNow);
        DeliveredStaysSound(h.db, h.wire, g, gw, dbNow);
        DeliveredKeeps(h, g, dbNow);
        AttemptPutKeeps(h.(db := o.state), g, delivery.Acknowledged? && o.reply.Recorded?);
      }
    }
  }

  // ---------------------------------------------------------------- every event

  /** The database transaction an event carries out, if any. */
  function StepOf(h: Host, e: Event): Option<Step> {
    if !FreshIds(h, e) then None
    else
      match e
      case DatabaseEvent(step) => Some(step)
      case Submit(g, m, clock, dbNow, exchange, _, _) =>
        if g in h.gateways && h.gateways[g].phase.Idle? && Admits(h.gateways[g].latched, m, clock)
           && (exchange.ReplyLost? || exchange.Answered?)
        then Some(ConsumeStep(ConsumeFor(g, m.request, m.binding.value), dbNow)) else None
      case Notify(g, delivery, dbNow) =>
        if g in h.gateways && h.gateways[g].phase.Journaling? && !delivery.Undelivered?
        then Some(RecordStep(h.gateways[g].phase.document, dbNow)) else None
      case _ => None
  }

  /** Seen from the database, a host event is one of the authority's steps or nothing. */
  lemma EventIsStep(h: Host, e: Event)
    ensures HostNext(h, e).db == if StepOf(h, e).None? then h.db else Next(h.db, StepOf(h, e).value).state
  {
  }

  lemma RestartKeeps(h: Host, g: string, service: string)
    requires Linked(h)
    ensures Linked(Put(h, g, Gateway(service, false, Idle, [], |h.wire|)))
  {
    PutSound(h, g, Gateway(service, false, Idle, [], |h.wire|));
  }

  lemma GatewayEventKeeps(h: Host, e: Event)
    requires PermitInv(h.db) && Linked(h) && FreshIds(h, e)
    requires (e.Submit? || e.Transmit? || e.Notify?) && e.g in h.gateways
    ensures Linked(HostNext(h, e))
  {
    match e
    case Submit(g, m, clock, dbNow, exchange, messageId, stamp) =>
      SubmitKeeps(h, g, m, clock, dbNow, exchange, messageId, stamp);
    case Transmit(g, clock, end, stamp) => TransmitKeeps(h, g, clock, end, stamp);
    case Notify(g, delivery, dbNow) => NotifyKeeps(h, g, delivery, dbNow);
  }

  lemma EventKeepsLinks(h: Host, e: Event)
    requires PermitInv(h.db) && Linked(h)
    ensures Linked(HostNext(h, e))
  {
    if FreshIds(h, e) {
      match e
      case DatabaseEvent(step) => DatabaseEventKeeps(h, step);
      case Restart(g, service) => RestartKeeps(h, g, service);
      case _ =>
        if e.g in h.gateways {
          GatewayEventKeeps(h, e);
        }
    }
  }

  /** Every event of the host keeps the invariant. */
  lemma EventKeeps(h: Host, e: Event)
    requires HostInv(h)
    ensures HostInv(HostNext(h, e))
  {
    EventKeepsLinks(h, e);
    EventIsStep(h, e);
    if StepOf(h, e).Some? {
      StepKeepsInv(h.db, StepOf(h, e).value);
    }
  }

  // ---------------------------------------------------------------- runs

  lemma {:induction false} RunsCompose(h: Host, a: seq<Event>, b: seq<Event>)
    ensures HostRun(h, a + b) == HostRun(HostRun(h, a), b)
  {
    if b == [] {
      assert a + b == a;
    } else {
      var n := |b| - 1;
      RunsCompose(h, a, b[..n]);
      assert (a + b)[..|a + b| - 1] == a + b[..n];
    }
  }

  lemma OneEvent(h: Host, e: Event)
    ensures HostRun(h, [e]) == HostNext(h, e)
  {
    assert [e][..0] == [];
  }

  lemma RunThenEvent(h: Host, a: seq<Event>, e: Event)
    ensures HostRun(h, a + [e]) == HostNext(HostRun(h, a), e)
  {
    RunsCompose(h, a, [e]);
    OneEvent(HostRun(h, a), e);
  }

  /** The invariant holds after every run of the host. */
  lemma {:induction false} HostRunKeeps(h: Host, events: seq<Event>)
    requires HostInv(h)
    ensures HostInv(HostRun(h, events))
  {
    if events != [] {
      HostRunKeeps(h, events[..|events| - 1]);
      EventKeeps(HostRun(h, events[..|events| - 1]), events[|events| - 1]);
    }
  }

  /** What most results need of the invariant after a run. */
  lemma LinkedAfter(h: Host, events: seq<Event>)
    requires HostInv(h)
    ensures PermitInv(HostRun(h, events).db) && Linked(HostRun(h, events))
  {
    HostRunKeeps(h, events);
  }

  lemma HostReachable(events: seq<Event>)
    ensures HostInv(HostRun(INITIAL_HOST, events))
  {
    InitialInv();
    HostRunKeeps(INITIAL_HOST, events);
  }
}
