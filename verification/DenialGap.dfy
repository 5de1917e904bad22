/**
 A transport that raises the gateway's own refusal exception after the request has gone out: this run
 of the host reaches a NOT_SENT report for a permit that is on the wire.
 */
module DenialGap {
  import opened RateTables
  import opened RateAuthority
  import opened EgressHost
  import opened EgressLaws
  import opened EgressTheorems

  const REQUEST := Request(
    "svc", "i", "testnet", TESTNET_FAPI, "E", Rest, "https", "demo-fapi.binance.com", None,
    "c", "k", "p", "w", "f", "d", 0, 4 * SECOND)
  const BINDING := Binding("permit", None, "c", "k", "p", "w", "d", "f", "cap", 2, 5 * SECOND)
  const MESSAGE := SendMessage(Vetting(true, true, true, true, true, true), REQUEST, Some(BINDING), "corr")

  const ITEM := CostItem("REQUEST_WEIGHT", "s", "MINUTE_1", 1, 10)
  const POLICY_KEY := PolicyKey(TESTNET_FAPI, "E", "c")
  const POLICY := Policy(true, {"svc"}, {"N"}, map["N" := Items([ITEM])], 0, 100 * SECOND, true)
  const WINDOW_KEY := WindowKey(TESTNET_FAPI, "s", "REQUEST_WEIGHT", "MINUTE_1")
  const RESERVE := ReserveRequest("permit", "key", Presented(REQUEST, BINDING), "N", "nonce", 2, 5 * SECOND)

  const SETUP := [
    InstallPolicyStep(POLICY_KEY, POLICY), OpenWindowStep(WINDOW_KEY, 0, 60 * SECOND, 10, None),
    AcquireStep("a", 1, 60, 0), ReserveStep(RESERVE, 0, 0)]

  const REFUSED := Stamp("m1", 1 * SECOND, "h1")
  const SENT := Stamp("m2", 1 * SECOND, "h2")
  const DEADLINE := 1 * SECOND + 50 * MILLISECOND

  const START := EgressHost.Restart("g", "rate")
  const SUBMIT := EgressHost.Submit("g", MESSAGE, 1 * SECOND, 1 * SECOND, Answered("rate", true), "msg", REFUSED)
  const TRANSMIT := EgressHost.Transmit("g", 1 * SECOND, RaisedDenial, SENT)

  function AsEvents(steps: seq<Step>): seq<Event> {
    if steps == [] then [] else AsEvents(steps[..|steps| - 1]) + [DatabaseEvent(steps[|steps| - 1])]
  }

  const EVENTS := AsEvents(SETUP) + [START] + [SUBMIT] + [TRANSMIT]

  /** Policy and window in place, and "a" holding epoch 2. */
  ghost predicate Prepared(s: State) {
    && s.fencing == Fencing(2, "a", Some(Lease(0, 0, 60 * SECOND)))
    && s.windows == [Window(WINDOW_KEY, 0, 60 * SECOND, 0, 0, 10, None)]
    && s.policies.rows == map[POLICY_KEY := POLICY]
    && s.permits.rows == map[] && s.nonces.rows == map[] && s.keyIndex.rows == map[]
    && s.blocks.rows == map[] && s.receipts.rows == map[]
  }

  /** The permit reserved under epoch 2. */
  ghost predicate Holding(s: State) {
    && s.fencing == Fencing(2, "a", Some(Lease(0, 0, 60 * SECOND)))
    && s.permits.rows == map["permit" := NewPermit(RESERVE, 0)]
    && s.nonces.rows == map["nonce" := Nonce("cap", Reserved, 5 * SECOND, None)]
    && s.receipts.rows == map[]
  }

  lemma ReachPrepared()
    ensures Prepared(Next(Next(Next(INITIAL, SETUP[0]).state, SETUP[1]).state, SETUP[2]).state)
  {
  }

  lemma VectorSelected(s: State)
    requires Prepared(s)
    ensures SelectVector(s.policies.rows, RESERVE, 0) == Success([ITEM])
    ensures Plan(s.windows, TESTNET_FAPI, [ITEM], 0) == Success([Charge(0, 1, 0)])
  {
    assert POLICY_KEY in s.policies.rows && "svc" in POLICY.callers && "N" in POLICY.classes && "N" in POLICY.vectors;
    assert FindWindow(s.windows, WINDOW_KEY, 0) == Some(0);
    assert PlanItem(s.windows, TESTNET_FAPI, ITEM, 0) == Success(Charge(0, 1, 0));
    assert [ITEM][..0] == [];
    assert [] + [Charge(0, 1, 0)] == [Charge(0, 1, 0)];
  }

  lemma GrantHolds(s: State)
    requires Prepared(s)
    ensures ChargesWithin([Charge(0, 1, 0)], s.windows)
    ensures Holding(Grant(s, RESERVE, [Charge(0, 1, 0)], 0))
  {
  }

  lemma ReserveFromPrepared(s: State)
    requires Prepared(s)
    ensures Holding(Next(s, SETUP[3]).state)
  {
    VectorSelected(s);
    GrantHolds(s);
    assert ReserveFresh(s, RESERVE, 0).state == Grant(s, RESERVE, [Charge(0, 1, 0)], 0);
  }

  /** Without gateways the host is the authority alone. */
  lemma {:induction false} AuthorityAlone(steps: seq<Step>)
    ensures HostRun(INITIAL_HOST, AsEvents(steps)) == Host(Run(INITIAL, steps), map[], [])
  {
    if steps != [] {
      var init := steps[..|steps| - 1];
      AuthorityAlone(init);
      RunThenEvent(INITIAL_HOST, AsEvents(init), DatabaseEvent(steps[|steps| - 1]));
    }
  }

  lemma ReachHolding()
    ensures Holding(Run(INITIAL, SETUP))
  {
    RunAppend(INITIAL, [], SETUP[0]);
    RunAppend(INITIAL, [SETUP[0]], SETUP[1]);
    RunAppend(INITIAL, [SETUP[0], SETUP[1]], SETUP[2]);
    RunAppend(INITIAL, [SETUP[0], SETUP[1], SETUP[2]], SETUP[3]);
    assert [] + [SETUP[0]] == [SETUP[0]] && [SETUP[0]] + [SETUP[1]] == [SETUP[0], SETUP[1]];
    assert [SETUP[0], SETUP[1]] + [SETUP[2]] == [SETUP[0], SETUP[1], SETUP[2]];
    assert [SETUP[0], SETUP[1], SETUP[2]] + [SETUP[3]] == SETUP;
    ReachPrepared();
    ReserveFromPrepared(Run(INITIAL, [SETUP[0], SETUP[1], SETUP[2]]));
  }

  lemma Consumed(s: State)
    requires Holding(s)
    ensures Consume(s, ConsumeFor("g", REQUEST, BINDING), 1 * SECOND).reply == ConsumeGranted(DEADLINE)
    ensures Consume(s, ConsumeFor("g", REQUEST, BINDING), 1 * SECOND).state.receipts == s.receipts
  {
  }

  lemma Admitted()
    ensures Admits(false, MESSAGE, 1 * SECOND) && DestinationAllowed(REQUEST)
  {
    assert TESTNET_FAPI[..16] == TESTNET_PREFIX;
    assert PRODUCTION_FAPI[8] == 'P' && PRODUCTION_FSTREAM[8] == 'P';
  }

  lemma Accepted(s: State)
    requires Holding(s)
    ensures ResponseMatches(Respond("rate", "corr", "msg", ConsumeFor("g", REQUEST, BINDING), ConsumeGranted(DEADLINE)),
                            "rate", "corr", "msg", REQUEST, BINDING)
  {
  }

  /** The consume is granted and accepted. */
  lemma SubmitMakesReady(h: Host)
    requires Holding(h.db) && h.wire == [] && h.gateways == map["g" := Gateway("rate", false, Idle, [], 0)]
    ensures var t := HostNext(h, SUBMIT);
      && t.wire == [] && t.db.receipts.rows == map[]
      && t.gateways == map["g" := Gateway("rate", false, Ready(Call(REQUEST, BINDING), DEADLINE), [], 0)]
  {
    Consumed(h.db);
    Admitted();
    Accepted(h.db);
  }

  /** The request goes out and the transport raises a refusal. */
  lemma TransmitRaises(h: Host)
    requires h.wire == [] && h.db.receipts.rows == map[]
    requires h.gateways == map["g" := Gateway("rate", false, Ready(Call(REQUEST, BINDING), DEADLINE), [], 0)]
    ensures var t := HostNext(h, TRANSMIT);
      && Reporting(t, "g", NotSent) && PermitAt(t, "g") == "permit"
      && t.wire == [WireEvent("g", REQUEST, BINDING, 1 * SECOND, DEADLINE, RaisedDenial)]
  {
    Admitted();
  }

  /** A run from the initial host that ends with a NOT_SENT report for a permit on the wire. */
  lemma NotSentButOnWire()
    ensures var h := HostRun(INITIAL_HOST, EVENTS);
      && Reporting(h, "g", NotSent) && PermitAt(h, "g") == "permit"
      && OnWire(h.wire, "permit") && EndedAs(h.wire, "permit", RaisedDenial)
  {
    ReachHolding();
    AuthorityAlone(SETUP);
    RunThenEvent(INITIAL_HOST, AsEvents(SETUP), START);
    RunThenEvent(INITIAL_HOST, AsEvents(SETUP) + [START], SUBMIT);
    RunThenEvent(INITIAL_HOST, AsEvents(SETUP) + [START] + [SUBMIT], TRANSMIT);
    SubmitMakesReady(HostRun(INITIAL_HOST, AsEvents(SETUP) + [START]));
    TransmitRaises(HostRun(INITIAL_HOST, AsEvents(SETUP) + [START] + [SUBMIT]));
    assert HostRun(INITIAL_HOST, EVENTS).wire[0].binding.permit == "permit";
  }
}
