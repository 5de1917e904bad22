/** What the gateway's steps do, spelled out: admission, the answer to a consume, transport and journaling. */
module EgressAnswers {
  import opened RateTables
  import opened RateAuthority
  import opened EgressHost
  import opened EgressLaws

  // ---------------------------------------------------------------- destinations

  ghost predicate GoesTo(r: Request, authority: string, transport: Transport, scheme: string, host: string) {
    r.authority == authority && r.transport == transport && r.scheme == scheme && r.host == host
  }

  /** The six destinations there are. */
  lemma DestinationsAre(r: Request)
    ensures DestinationAllowed(r) <==>
      || (&& r.environment == "testnet"
          && (|| GoesTo(r, "BINANCE_TESTNET_FAPI", Rest, "https", "demo-fapi.binance.com")
              || GoesTo(r, "BINANCE_TESTNET_FAPI", WsApi, "wss", "testnet.binancefuture.com")
              || GoesTo(r, "BINANCE_TESTNET_FSTREAM", MarketStreamControl, "wss", "demo-fstream.binance.com")))
      || (&& (r.environment == "shadow" || r.environment == "paper" || r.environment == "production")
          && (|| GoesTo(r, "BINANCE_PRODUCTION_FAPI", Rest, "https", "fapi.binance.com")
              || GoesTo(r, "BINANCE_PRODUCTION_FAPI", WsApi, "wss", "ws-fapi.binance.com")
              || GoesTo(r, "BINANCE_PRODUCTION_FSTREAM", MarketStreamControl, "wss", "fstream.binance.com")))
  {
    assert PRODUCTION_FAPI[8] == 'P' && PRODUCTION_FSTREAM[8] == 'P' && TESTNET_PREFIX[8] == 'T';
    assert TESTNET_FAPI[..16] == TESTNET_PREFIX && TESTNET_FSTREAM[..16] == TESTNET_PREFIX;
  }

  // ---------------------------------------------------------------- submission

  /** Every check on the message itself has passed. */
  ghost predicate Checked(v: Vetting) {
    v.isSendRequest && v.parses && v.callerAllowed && v.catalogCurrent && v.endpointKnown && v.derivationsMatch
  }

  ghost predicate Admissible(latched: bool, m: SendMessage, now: Time) {
    && !latched && Checked(m.vetting) && m.binding.Some?
    && VettedCall(Call(m.request, m.binding.value))
    && m.request.createdAt <= now < m.request.expiresAt && now < m.binding.value.expiresAt
  }

  lemma AdmitsIff(latched: bool, m: SendMessage, now: Time)
    ensures Admits(latched, m, now) <==> Admissible(latched, m, now)
  {
  }

  /** What the gateway presents to be consumed: the request's own figures, the binding's permit, capability and
      epoch. */
  lemma ConsumeForIs(g: string, r: Request, b: Binding)
    ensures var req := ConsumeFor(g, r, b);
      && req.permit == b.permit && req.epoch == b.epoch && req.gateway == g
      && req.envelope == Envelope(r.service, r.instance, r.environment, r.authority, r.endpoint, r.connection,
        r.catalog, r.canonical, r.parameter, r.wire, r.facts, b.capability, r.document)
  {
  }

  /** An answer is accepted exactly if the trusted service gave it and a granted deadline lies inside both expiries. */
  lemma EchoAcceptedIff(trusted: string, service: string, correlation: string, messageId: string, g: string, r: Request,
                        b: Binding, reply: Reply)
    requires VettedCall(Call(r, b))
    ensures ResponseMatches(Respond(service, correlation, messageId, ConsumeFor(g, r, b), reply),
                            trusted, correlation, messageId, r, b)
            <==> service == trusted && (reply.ConsumeGranted? ==> InTime(reply.deadline, r, b))
    ensures Respond(service, correlation, messageId, ConsumeFor(g, r, b), reply).granted == reply.ConsumeGranted?
    ensures reply.ConsumeGranted? ==>
      Respond(service, correlation, messageId, ConsumeFor(g, r, b), reply).deadline == reply.deadline
  {
  }

  /** The deadline lies inside both expiries. */
  predicate InTime(deadline: Time, r: Request, b: Binding) {
    deadline <= b.expiresAt && deadline <= r.expiresAt
  }

  /** A gateway that is busy, latched or not satisfied with the message does nothing; nor does a lost request. */
  lemma SubmitRefuses(h: Host, g: string, m: SendMessage, clock: Time, dbNow: Time, exchange: Exchange,
                      messageId: string, stamp: Stamp)
    requires g in h.gateways
    requires !h.gateways[g].phase.Idle? || !Admissible(h.gateways[g].latched, m, clock)
             || exchange.RequestLost? || exchange.RolledBack?
    ensures SubmitStep(h, g, m, clock, dbNow, exchange, messageId, stamp) == h
  {
    AdmitsIff(h.gateways[g].latched, m, clock);
  }

  /**
   An admitted request consumes its permit.  The gateway becomes ready on an accepted grant, reports NOT_SENT on a
   grant it does not accept, and is done on a denial, a lost reply or an answer that is not valid.
   */
  lemma SubmitAnswers(h: Host, g: string, m: SendMessage, clock: Time, dbNow: Time, exchange: Exchange,
                      messageId: string, stamp: Stamp)
    requires g in h.gateways && h.gateways[g].phase.Idle? && Admissible(h.gateways[g].latched, m, clock)
    requires exchange.ReplyLost? || exchange.Answered?
    ensures var t := SubmitStep(h, g, m, clock, dbNow, exchange, messageId, stamp);
      var gw, r, b := h.gateways[g], m.request, m.binding.value;
      var o := Consume(h.db, ConsumeFor(g, r, b), dbNow);
      && t.db == o.state && t.wire == h.wire && t.gateways == h.gateways[g := t.gateways[g]]
      && (if exchange.ReplyLost? || !exchange.schemaValid || !o.reply.ConsumeGranted? then t.gateways[g] == gw
          else if exchange.service == gw.service && InTime(o.reply.deadline, r, b)
          then t.gateways[g] == gw.(phase := Ready(Call(r, b), o.reply.deadline))
          else
            && t.gateways[g].phase.Journaling? && NotSentReport(t.gateways[g].phase.document, g, Call(r, b), stamp)
            && t.gateways[g] == gw.(phase := Journaling(Call(r, b), t.gateways[g].phase.document, 0, false)))
  {
    AdmitsIff(h.gateways[g].latched, m, clock);
    var gw, r, b := h.gateways[g], m.request, m.binding.value;
    var o := Consume(h.db, ConsumeFor(g, r, b), dbNow);
    DocumentIs(g, Call(r, b), NotSent, stamp);
    if exchange.Answered? && o.reply.ConsumeGranted? {
      EchoAcceptedIff(gw.service, exchange.service, m.correlation, messageId, g, r, b, o.reply);
    }
    assert NotSentReport(OutcomeDocument(g, Call(r, b), NotSent, stamp), g, Call(r, b), stamp);
  }

  // ---------------------------------------------------------------- the document

  /** An outcome report of this gateway about this call. */
  ghost predicate ReportOf(d: GatewayMessage, g: string, call: Call, stamp: Stamp) {
    && d.Message? && d.kind.SendOutcome? && d.id == stamp.id && d.gateway == g && d.payload == stamp.payload
    && d.permit == Some(call.binding.permit) && d.epoch == Some(call.binding.epoch)
    && d.canonical == Some(call.request.canonical) && d.occurredAt == Some(stamp.occurredAt) && d.authority.None?
  }

  ghost predicate NotSentReport(d: GatewayMessage, g: string, call: Call, stamp: Stamp) {
    ReportOf(d, g, call, stamp) && d.outcome == Some(NotSent)
  }

  lemma DocumentIs(g: string, call: Call, outcome: OutcomeCode, stamp: Stamp)
    ensures ReportOf(OutcomeDocument(g, call, outcome, stamp), g, call, stamp)
    ensures OutcomeDocument(g, call, outcome, stamp).outcome == Some(outcome)
  {
  }

  // ---------------------------------------------------------------- transport

  /** The last checks: destination, both times, and a permit. */
  ghost predicate StillGood(call: Call, deadline: Time, clock: Time) {
    DestinationAllowed(call.request) && clock < call.request.expiresAt && clock < deadline && call.binding.permit != ""
  }

  /** A ready call goes out exactly if it is still good; the report to be journaled says how it ended. */
  lemma TransmitAnswers(h: Host, g: string, clock: Time, end: TransportEnd, stamp: Stamp)
    requires g in h.gateways && h.gateways[g].phase.Ready?
    ensures var t := TransmitStep(h, g, clock, end, stamp);
      var gw, call, deadline := h.gateways[g], h.gateways[g].phase.call, h.gateways[g].phase.deadline;
      && t.db == h.db && t.gateways == h.gateways[g := t.gateways[g]]
      && t.gateways[g].phase.Journaling? && t.gateways[g].phase.call == call && t.gateways[g].phase.tries == 0
      && ReportOf(t.gateways[g].phase.document, g, call, stamp)
      && t.gateways[g].phase.sent == StillGood(call, deadline, clock)
      && (if StillGood(call, deadline, clock)
          then t.wire == h.wire + [WireEvent(g, call.request, call.binding, clock, deadline, end)]
               && t.gateways[g].sends == gw.sends + [Send(call.binding.permit, false)]
               && ReportsEnd(end, t.gateways[g].phase.document.outcome)
          else t.wire == h.wire && t.gateways[g].sends == gw.sends
               && t.gateways[g].phase.document.outcome == Some(NotSent))
  {
  }

  /** A gateway that is not ready sends nothing. */
  lemma TransmitNeedsReady(h: Host, g: string, clock: Time, end: TransportEnd, stamp: Stamp)
    requires g in h.gateways && !h.gateways[g].phase.Ready?
    ensures TransmitStep(h, g, clock, end, stamp) == h
  {
  }

  // ---------------------------------------------------------------- journaling

  /** A try succeeds exactly if the report was recorded and the acknowledgement came back; the third failure latches. */
  lemma NotifyAnswers(h: Host, g: string, delivery: Delivery, dbNow: Time)
    requires g in h.gateways && h.gateways[g].phase.Journaling?
    ensures var t, gw := NotifyStep(h, g, delivery, dbNow), h.gateways[g];
      var o := Record(h.db, gw.phase.document, dbNow);
      && t.db == (if delivery.Undelivered? then h.db else o.state) && t.wire == h.wire
      && t.gateways == h.gateways[g := t.gateways[g]]
      && (if delivery.Acknowledged? && o.reply.Recorded?
          then && t.gateways[g].phase.Idle? && t.gateways[g].latched == gw.latched
               && |t.gateways[g].sends| == |gw.sends|
               && (gw.phase.sent && gw.sends != [] ==>
                     t.gateways[g].sends == gw.sends[..|gw.sends| - 1] + [Send(gw.sends[|gw.sends| - 1].permit, true)])
               && (!gw.phase.sent ==> t.gateways[g].sends == gw.sends)
          else if gw.phase.tries < 2
          then t.gateways[g] == gw.(phase := gw.phase.(tries := gw.phase.tries + 1))
          else t.gateways[g] == gw.(phase := Idle, latched := true))
  {
  }
}
