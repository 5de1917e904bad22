/**
 A takeover between reservation and consumption.  Consumption compares the caller's epoch with the
 current one only, while the journal compares with the permit's: this run reaches the gap.
 */
module EpochGap {
  import opened RateTables
  import opened RateAuthority

  const ENVELOPE := Envelope("svc", "i", "testnet", "A", "E", None, "c", "k", "p", "w", "f", "cap", "d")
  const ITEM := CostItem("REQUEST_WEIGHT", "s", "MINUTE_1", 1, 10)
  const POLICY_KEY := PolicyKey("A", "E", "c")
  const POLICY := Policy(true, {"svc"}, {"N"}, map["N" := Items([ITEM])], 0, 100 * SECOND, true)
  const WINDOW_KEY := WindowKey("A", "s", "REQUEST_WEIGHT", "MINUTE_1")
  const RESERVE := ReserveRequest("permit", "key", ENVELOPE, "N", "nonce", 2, 5 * SECOND)
  const CONSUME := ConsumeRequest("permit", ENVELOPE, 3, "gateway")

  const RUN_UP := [InstallPolicyStep(POLICY_KEY, POLICY), OpenWindowStep(WINDOW_KEY, 0, 60 * SECOND, 10, None)]
  const TAKEOVER := [AcquireStep("a", 1, 1, 0), ReserveStep(RESERVE, 0, 0), AcquireStep("b", 2, 60, 1 * SECOND)]

  /** An outcome for the permit, naming the given epoch. */
  function OutcomeNaming(epoch: int): GatewayMessage {
    Message("m", SendOutcome, "gateway", Some("permit"), Some(epoch), Some(2 * SECOND), None, Some("k"),
            Some(SentDefiniteResult), Header(NotAnObject, NotAnObject, Missing, Missing), "h")
  }

  /** The policy and the window are in place, and "a" holds epoch 2. */
  ghost predicate Prepared(s: State) {
    && s.fencing == Fencing(2, "a", Some(Lease(0, 0, 1 * SECOND)))
    && s.windows == [Window(WINDOW_KEY, 0, 60 * SECOND, 0, 0, 10, None)]
    && s.policies.rows == map[POLICY_KEY := POLICY]
    && s.permits.rows == map[] && s.nonces.rows == map[] && s.keyIndex.rows == map[]
    && s.blocks.rows == map[] && s.receipts.rows == map[] && s.outcomes == []
  }

  lemma ReachPrepared()
    ensures Prepared(Run(INITIAL, RUN_UP + [TAKEOVER[0]]))
  {
    RunAppend(INITIAL, [], RUN_UP[0]);
    RunAppend(INITIAL, [RUN_UP[0]], RUN_UP[1]);
    assert [] + [RUN_UP[0]] == [RUN_UP[0]] && [RUN_UP[0]] + [RUN_UP[1]] == RUN_UP;
    RunAppend(INITIAL, RUN_UP, TAKEOVER[0]);
  }

  /** The permit is reserved under epoch 2. */
  ghost predicate Holding(s: State) {
    && s.permits.rows == map["permit" := NewPermit(RESERVE, 0)]
    && s.nonces.rows == map["nonce" := Nonce("cap", Reserved, 5 * SECOND, None)]
    && s.receipts.rows == map[] && s.outcomes == []
  }

  lemma VectorSelected(s: State)
    requires Prepared(s)
    ensures SelectVector(s.policies.rows, RESERVE, 0) == Success([ITEM])
    ensures Plan(s.windows, "A", [ITEM], 0) == Success([Charge(0, 1, 0)])
  {
    assert POLICY_KEY in s.policies.rows && "svc" in POLICY.callers && "N" in POLICY.classes && "N" in POLICY.vectors;
    assert FindWindow(s.windows, WINDOW_KEY, 0) == Some(0);
    assert PlanItem(s.windows, "A", ITEM, 0) == Success(Charge(0, 1, 0));
    assert [ITEM][..0] == [];
    assert [] + [Charge(0, 1, 0)] == [Charge(0, 1, 0)];
  }

  lemma ReserveFromPrepared(s: State)
    requires Prepared(s)
    ensures Next(s, TAKEOVER[1]).reply == ReserveGranted("permit", "N", 2, 5 * SECOND)
    ensures Holding(Next(s, TAKEOVER[1]).state) && Next(s, TAKEOVER[1]).state.fencing == s.fencing
  {
    VectorSelected(s);
  }

  /** "b" takes epoch 3 while the permit is still live. */
  lemma TakeoverKeepsPermit(s: State)
    requires Holding(s) && s.fencing == Fencing(2, "a", Some(Lease(0, 0, 1 * SECOND)))
    ensures Holding(Next(s, TAKEOVER[2]).state)
    ensures Next(s, TAKEOVER[2]).state.fencing == Fencing(3, "b", Some(Lease(1 * SECOND, 1 * SECOND, 61 * SECOND)))
  {
  }

  lemma ConsumeUnderNewEpoch(s: State)
    requires Holding(s) && s.fencing == Fencing(3, "b", Some(Lease(1 * SECOND, 1 * SECOND, 61 * SECOND)))
    ensures var o := Consume(s, CONSUME, 2 * SECOND);
      && o.reply == ConsumeGranted(2 * SECOND + 50 * MILLISECOND)
      && Record(o.state, OutcomeNaming(3), 3 * SECOND) == Outcome(o.state, RecordDenied(GatewayEventBindingMismatch))
      && Record(o.state, OutcomeNaming(2), 3 * SECOND).reply == Recorded(true)
  {
  }

  /**
   A reachable run in which a permit reserved under epoch 2 is spent under epoch 3; its outcome is
   then refused when it names the epoch it was spent under, and recorded when it names its own.
   */
  lemma SpentUnderLaterEpoch()
    ensures var s := Run(INITIAL, RUN_UP + TAKEOVER);
      var o := Consume(s, CONSUME, 2 * SECOND);
      && o.reply.ConsumeGranted?
      && Record(o.state, OutcomeNaming(3), 3 * SECOND) == Outcome(o.state, RecordDenied(GatewayEventBindingMismatch))
      && Record(o.state, OutcomeNaming(2), 3 * SECOND).reply == Recorded(true)
  {
    var prepared := RUN_UP + [TAKEOVER[0]];
    ReachPrepared();
    RunAppend(INITIAL, prepared, TAKEOVER[1]);
    RunAppend(INITIAL, prepared + [TAKEOVER[1]], TAKEOVER[2]);
    assert prepared + [TAKEOVER[1]] + [TAKEOVER[2]] == RUN_UP + TAKEOVER;
    var s := Run(INITIAL, prepared);
    ReserveFromPrepared(s);
    var held := Next(s, TAKEOVER[1]).state;
    TakeoverKeepsPermit(held);
    ConsumeUnderNewEpoch(Next(held, TAKEOVER[2]).state);
  }
}
