/**
 The end-to-end promises, for every run of the host.
 */
module EgressTheorems {
  import opened RateTables
  import opened RateAuthority
  import opened EgressHost
  import opened EgressLaws
  import opened LedgerLaws
  import opened PermitLaws
  import opened JournalLaws
  import opened AuthorityRuns

  // ---------------------------------------------------------------- at most once, within budget

  /** What one permit was charged against a window. */
  function CostOf(allocations: seq<Allocation>, permit: string, window: nat): int {
    if allocations == [] then 0
    else
      var last := allocations[|allocations| - 1];
      CostOf(allocations[..|allocations| - 1], permit, window)
      + if last.permit == permit && last.window == window then last.cost else 0
  }

  /** What everything put on the wire cost a window. */
  function WireCost(wire: seq<WireEvent>, allocations: seq<Allocation>, window: nat): int {
    if wire == [] then 0
    else
      WireCost(wire[..|wire| - 1], allocations, window)
      + CostOf(allocations, wire[|wire| - 1].binding.permit, window)
  }

  ghost predicate DistinctPermits(wire: seq<WireEvent>) {
    forall i, j :: 0 <= i < j < |wire| ==> wire[i].binding.permit != wire[j].binding.permit
  }

  /** One more ledger row adds its cost at most once to a wire of distinct permits. */
  lemma {:induction false} OneMoreRowCost(wire: seq<WireEvent>, allocations: seq<Allocation>, a: Allocation,
                                          window: nat)
    requires DistinctPermits(wire) && a.cost >= 0
    ensures WireCost(wire, allocations + [a], window) - WireCost(wire, allocations, window)
            <= if a.window == window then a.cost else 0
    ensures (forall k :: 0 <= k < |wire| ==> wire[k].binding.permit != a.permit) ==>
      WireCost(wire, allocations + [a], window) == WireCost(wire, allocations, window)
  {
    if wire != [] {
      var init := wire[..|wire| - 1];
      OneMoreRowCost(init, allocations, a, window);
      assert (allocations + [a])[..|allocations|] == allocations;
      if wire[|wire| - 1].binding.permit == a.permit {
        assert forall k :: 0 <= k < |init| ==> init[k].binding.permit != a.permit;
      }
    }
  }

  /** Costs of distinct permits are part of everything granted. */
  lemma {:induction false} WireCostCovered(wire: seq<WireEvent>, allocations: seq<Allocation>, window: nat)
    requires DistinctPermits(wire) && forall k :: 0 <= k < |allocations| ==> allocations[k].cost >= 0
    ensures WireCost(wire, allocations, window) <= Granted(allocations, window)
    decreases |allocations|, |wire|
  {
    if allocations == [] {
      if wire != [] {
        WireCostCovered(wire[..|wire| - 1], allocations, window);
      }
    } else {
      var init := allocations[..|allocations| - 1];
      var a := allocations[|allocations| - 1];
      WireCostCovered(wire, init, window);
      OneMoreRowCost(wire, init, a, window);
      assert allocations == init + [a];
    }
  }

  /** In every run each permit reaches the transport at most once, whatever the gateways do. */
  lemma WireAtMostOnce(events: seq<Event>, i: nat, j: nat)
    requires i < j < |HostRun(INITIAL_HOST, events).wire|
    ensures var wire := HostRun(INITIAL_HOST, events).wire; wire[i].binding.permit != wire[j].binding.permit
  {
    HostReachable(events);
  }

  lemma BudgetOfHost(h: Host, w: nat)
    requires HostInv(h) && w < |h.db.windows|
    ensures WireCost(h.wire, h.db.allocations, w) <= h.db.windows[w].used <= h.db.windows[w].limit
  {
    forall k | 0 <= k < |h.db.allocations| ensures h.db.allocations[k].cost >= 0 {
      assert RowSound(h.db.windows, h.db.allocations, k);
    }
    WireCostCovered(h.wire, h.db.allocations, w);
    GrantedCovered(h.db.windows, h.db.allocations, w);
    assert WindowSound(h.db.windows, h.db.allocations, w);
    UsedWithinLimit(h.db.windows, h.db.allocations, w);
  }

  /** The summed cost of everything ever put on the wire stays within every window's hard limit. */
  lemma WireWithinBudget(events: seq<Event>, w: nat)
    requires w < |HostRun(INITIAL_HOST, events).db.windows|
    ensures var h := HostRun(INITIAL_HOST, events);
      WireCost(h.wire, h.db.allocations, w) <= h.db.windows[w].limit
  {
    HostReachable(events);
    BudgetOfHost(HostRun(INITIAL_HOST, events), w);
  }

  /**
   Whatever is on the wire was reserved for exactly that request, consumed by exactly that gateway,
   bound to it field by field, sent inside every deadline and addressed to an allowed destination.
   */
  lemma WireIsAuthorised(events: seq<Event>, k: nat)
    requires k < |HostRun(INITIAL_HOST, events).wire|
    ensures var h := HostRun(INITIAL_HOST, events);
      var e := h.wire[k];
      var r, b := e.request, e.binding;
      && b.connection == r.connection && b.catalog == r.catalog && b.canonical == r.canonical
      && b.parameter == r.parameter && b.wire == r.wire && b.document == r.document && b.facts == r.facts
      && DestinationAllowed(r)
      && b.permit in h.db.permits.rows
      && var p := h.db.permits.rows[b.permit];
         && p.state.Consumed? && p.gateway == Some(e.gateway)
         && p.envelope == Envelope(r.service, r.instance, r.environment, r.authority, r.endpoint, r.connection,
           r.catalog, r.canonical, r.parameter, r.wire, r.facts, b.capability, r.document)
         && e.at < e.deadline && e.deadline <= p.expiresAt && e.deadline <= b.expiresAt && e.deadline <= r.expiresAt
  {
    HostReachable(events);
    var h := HostRun(INITIAL_HOST, events);
    assert WireSound(h.db, h.wire[k]);
  }

  // ---------------------------------------------------------------- one gateway's lifetime

  /** `g` is not restarted. */
  predicate SameLife(events: seq<Event>, g: string) {
    forall k :: 0 <= k < |events| ==> !(events[k].Restart? && events[k].g == g)
  }

  lemma SinceStays(h: Host, e: Event, g: string)
    requires g in h.gateways && !(e.Restart? && e.g == g)
    ensures g in HostNext(h, e).gateways && HostNext(h, e).gateways[g].since == h.gateways[g].since
  {
  }

  lemma {:induction false} SinceOverLife(h: Host, life: seq<Event>, g: string)
    requires g in h.gateways && SameLife(life, g)
    ensures g in HostRun(h, life).gateways && HostRun(h, life).gateways[g].since == h.gateways[g].since
  {
    if life != [] {
      SinceOverLife(h, life[..|life| - 1], g);
      SinceStays(HostRun(h, life[..|life| - 1]), life[|life| - 1], g);
    }
  }

  lemma {:induction false} SentPrefix(wire: seq<WireEvent>, g: string, since: nat, n: nat)
    requires since <= n <= |wire|
    ensures SentSince(wire[..n], g, since) <= SentSince(wire, g, since)
  {
    if n == |wire| {
      assert wire[..n] == wire;
    } else {
      assert wire[..|wire| - 1][..n] == wire[..n];
      SentPrefix(wire[..|wire| - 1], g, since, n);
    }
  }

  /** A wire event adds its permit to its gateway's list, which later events only extend. */
  lemma SentThrough(wire: seq<WireEvent>, g: string, since: nat, k: nat)
    requires since <= k < |wire| && wire[k].gateway == g
    ensures SentSince(wire[..k], g, since) + [wire[k].binding.permit] <= SentSince(wire, g, since)
  {
    SentGrows(wire[..k], wire[k], g, since);
    assert wire[..k] + [wire[k]] == wire[..k + 1];
    SentPrefix(wire, g, since, k + 1);
  }

  /** Where a wire event stands in its gateway's list of sends. */
  lemma PlaceOf(wire: seq<WireEvent>, g: string, since: nat, k: nat) returns (i: nat)
    requires since <= k < |wire| && wire[k].gateway == g
    ensures i == |SentSince(wire[..k], g, since)| < |SentSince(wire, g, since)|
    ensures SentSince(wire, g, since)[i] == wire[k].binding.permit
  {
    i := |SentSince(wire[..k], g, since)|;
    SentThrough(wire, g, since, k);
  }

  /** An earlier event of the same gateway stands before a later one. */
  lemma PlacesOrdered(wire: seq<WireEvent>, g: string, since: nat, k: nat, m: nat)
    requires since <= k < m < |wire| && wire[k].gateway == g && wire[m].gateway == g
    ensures |SentSince(wire[..k], g, since)| < |SentSince(wire, g, since)| - 1
  {
    SentThrough(wire, g, since, m);
    assert wire[..m][..k] == wire[..k] && wire[..m][k] == wire[k];
    SentThrough(wire[..m], g, since, k);
  }

  /** A wire event without an outcome is an unjournaled entry of its gateway's list. */
  lemma UnjournaledEntry(h: Host, g: string, k: nat) returns (i: nat)
    requires Linked(h) && g in h.gateways
    requires h.gateways[g].since <= k < |h.wire| && h.wire[k].gateway == g
    requires !HasOutcome(h.db.outcomes, h.wire[k].binding.permit)
    ensures i == |SentSince(h.wire[..k], g, h.gateways[g].since)| < |h.gateways[g].sends|
    ensures |h.gateways[g].sends| == |SentSince(h.wire, g, h.gateways[g].since)|
    ensures i == |h.gateways[g].sends| - 1 && (h.gateways[g].latched || h.gateways[g].phase.Journaling?)
  {
    OneOf(h, g);
    var gw := h.gateways[g];
    i := PlaceOf(h.wire, g, gw.since, k);
    assert PermitsOf(gw.sends)[i] == gw.sends[i].permit;
    assert !gw.sends[i].journaled;
  }

  /** A wire event of this lifetime without an outcome is the last, and its gateway is still trying or latched. */
  lemma UnjournaledSend(h: Host, g: string, k: nat)
    requires Linked(h) && g in h.gateways
    requires h.gateways[g].since <= k < |h.wire| && h.wire[k].gateway == g
    requires !HasOutcome(h.db.outcomes, h.wire[k].binding.permit)
    ensures forall m :: k < m < |h.wire| ==> h.wire[m].gateway != g
    ensures h.gateways[g].latched || h.gateways[g].phase.Journaling?
  {
    var i := UnjournaledEntry(h, g, k);
    forall m | k < m < |h.wire| ensures h.wire[m].gateway != g {
      if h.wire[m].gateway == g {
        PlacesOrdered(h.wire, g, h.gateways[g].since, k, m);
      }
    }
  }

  /**
   Over any lifetime of a gateway, from a restart on, at most one of its transport calls lacks an
   outcome row in the database.  That call is its last, and the gateway is still trying or latched.
   */
  lemma OnlyLastSendUnjournaled(before: seq<Event>, g: string, service: string, life: seq<Event>, k: nat)
    requires SameLife(life, g)
    requires var h := HostRun(INITIAL_HOST, before + [Restart(g, service)] + life);
      && |HostRun(INITIAL_HOST, before).wire| <= k < |h.wire| && h.wire[k].gateway == g
      && !HasOutcome(h.db.outcomes, h.wire[k].binding.permit)
    ensures var h := HostRun(INITIAL_HOST, before + [Restart(g, service)] + life);
      && (forall m :: k < m < |h.wire| ==> h.wire[m].gateway != g)
      && g in h.gateways && (h.gateways[g].latched || h.gateways[g].phase.Journaling?)
  {
    var start := HostRun(INITIAL_HOST, before + [Restart(g, service)]);
    HostReachable(before + [Restart(g, service)] + life);
    RunThenEvent(INITIAL_HOST, before, Restart(g, service));
    RunsCompose(INITIAL_HOST, before + [Restart(g, service)], life);
    SinceOverLife(start, life, g);
    UnjournaledSend(HostRun(start, life), g, k);
  }

  predicate ActsFor(e: Event, g: string) {
    !e.DatabaseEvent? && e.g == g
  }

  /** A latched gateway does nothing at all: it stops before the permit is spent and before transport. */
  lemma LatchedIsInert(h: Host, e: Event, g: string)
    requires Linked(h) && g in h.gateways && h.gateways[g].latched
    requires ActsFor(e, g) && !e.Restart?
    ensures HostNext(h, e) == h
  {
    OneOf(h, g);
  }

  predicate SentBy(wire: seq<WireEvent>, g: string, n: nat) {
    exists k :: n <= k < |wire| && wire[k].gateway == g
  }

  /** Events of others leave a gateway's record alone and put nothing on the wire in its name. */
  lemma OthersDoNotSpeak(h: Host, e: Event, g: string)
    requires g in h.gateways && !ActsFor(e, g)
    ensures g in HostNext(h, e).gateways && HostNext(h, e).gateways[g] == h.gateways[g]
    ensures h.wire <= HostNext(h, e).wire && !SentBy(HostNext(h, e).wire, g, |h.wire|)
  {
  }

  /** Once latched, a gateway never sends again in that lifetime, however the host goes on. */
  lemma {:induction false} LatchHolds(h: Host, events: seq<Event>, g: string)
    requires HostInv(h) && g in h.gateways && h.gateways[g].latched && SameLife(events, g)
    ensures var t := HostRun(h, events);
      g in t.gateways && t.gateways[g] == h.gateways[g] && h.wire <= t.wire && !SentBy(t.wire, g, |h.wire|)
  {
    if events != [] {
      LatchHolds(h, events[..|events| - 1], g);
      LinkedAfter(h, events[..|events| - 1]);
      LatchedEvent(h.wire, HostRun(h, events[..|events| - 1]), events[|events| - 1], g);
    }
  }

  lemma LatchedEvent(start: seq<WireEvent>, m: Host, e: Event, g: string)
    requires Linked(m) && g in m.gateways && m.gateways[g].latched && !(e.Restart? && e.g == g)
    requires start <= m.wire && !SentBy(m.wire, g, |start|)
    ensures var t := HostNext(m, e);
      g in t.gateways && t.gateways[g] == m.gateways[g] && start <= t.wire && !SentBy(t.wire, g, |start|)
  {
    if ActsFor(e, g) {
      LatchedIsInert(m, e, g);
    } else {
      OthersDoNotSpeak(m, e, g);
      var t := HostNext(m, e);
      forall k | |start| <= k < |t.wire| ensures t.wire[k].gateway != g {
        if k < |m.wire| {
          assert t.wire[k] == m.wire[k];
        }
      }
    }
  }

  /** Nothing but a restart lifts the latch, and a restart touches neither the wire nor the database. */
  lemma OnlyRestartUnlatches(h: Host, e: Event, g: string)
    requires Linked(h) && g in h.gateways && h.gateways[g].latched
    ensures g in HostNext(h, e).gateways
    ensures HostNext(h, e).gateways[g].latched <==> !(e.Restart? && e.g == g)
    ensures e.Restart? ==> HostNext(h, e).wire == h.wire && HostNext(h, e).db == h.db
  {
    if ActsFor(e, g) {
      if !e.Restart? {
        LatchedIsInert(h, e, g);
      }
    } else {
      OthersDoNotSpeak(h, e, g);
    }
  }

  // ---------------------------------------------------------------- the epoch in the binding

  /**
   A first outcome can be journaled exactly when the binding carries the permit's own epoch.
   Consumption compares the binding only with the current epoch, so a permit reserved before a
   takeover can be spent under the new epoch and then never be journaled.
   */
  lemma JournalableIffOwnEpoch(db: State, g: string, call: Call, deadline: Time, outcome: OutcomeCode, stamp: Stamp,
                               dbNow: Time)
    requires PermitInv(db) && Spent(db, g, call, deadline)
    requires !outcome.OtherOutcome? && call.binding.epoch >= 1
    requires stamp.id !in db.receipts.rows && !HasOutcome(db.outcomes, call.binding.permit)
    ensures Record(db, OutcomeDocument(g, call, outcome, stamp), dbNow).reply.Recorded? <==>
      call.binding.epoch == db.permits.rows[call.binding.permit].epoch
    ensures call.binding.epoch != db.permits.rows[call.binding.permit].epoch ==>
      Record(db, OutcomeDocument(g, call, outcome, stamp), dbNow)
        == Outcome(db, RecordDenied(GatewayEventBindingMismatch))
  {
    assert Coupled(db, call.binding.permit);
    if call.binding.epoch == db.permits.rows[call.binding.permit].epoch {
      FirstOutcomeIsRecorded(db, OutcomeDocument(g, call, outcome, stamp), dbNow);
    }
  }

  /** The gateway has spent a permit under an epoch that is not the permit's, and has no receipt for it. */
  ghost predicate Mismatched(h: Host, g: string) {
    && g in h.gateways
    && var gw := h.gateways[g];
       && !gw.phase.Idle?
       && gw.phase.call.binding.permit in h.db.permits.rows && !OwnEpoch(h.db, gw.phase.call.binding)
       && (gw.phase.Journaling? ==> gw.phase.document.Message? && gw.phase.document.id !in h.db.receipts.rows)
  }

  /** Such a document is refused whenever it is delivered. */
  lemma MismatchIsRefused(db: State, g: string, call: Call, document: GatewayMessage, dbNow: Time)
    requires PendingSound(db, g, call, document) && document.id !in db.receipts.rows
    requires call.binding.permit in db.permits.rows && call.binding.epoch != db.permits.rows[call.binding.permit].epoch
    ensures !Record(db, document, dbNow).reply.Recorded? && Record(db, document, dbNow).state == db
  {
  }

  /** The step records a message under the identifier the gateway waits under. */
  predicate Takes(step: Step, gw: Gateway) {
    step.RecordStep? && step.message.Message? && WaitsUnder(gw, step.message.id)
  }

  /** Nobody else takes a gateway's pending identifier. */
  lemma OthersTakeNothing(h: Host, e: Event, g: string)
    requires Linked(h) && g in h.gateways && !ActsFor(e, g) && StepOf(h, e).Some?
    ensures !Takes(StepOf(h, e).value, h.gateways[g])
  {
  }

  lemma MismatchSurvivesStep(h: Host, step: Step, g: string, t: Host)
    requires PermitInv(h.db) && Mismatched(h, g) && !Takes(step, h.gateways[g])
    requires t.db == Next(h.db, step).state && g in t.gateways && t.gateways[g] == h.gateways[g]
    ensures Mismatched(t, g)
  {
    StepMoves(h.db, step);
    var permit := h.gateways[g].phase.call.binding.permit;
    assert PermitMoved(h.db.permits.rows[permit], t.db.permits.rows[permit]);
    if h.gateways[g].phase.Journaling? && h.gateways[g].phase.document.id in t.db.receipts.rows {
      NewReceipts(h.db, step, h.gateways[g].phase.document.id);
    }
  }

  lemma MismatchSurvivesOthers(h: Host, e: Event, g: string)
    requires PermitInv(h.db) && Linked(h) && Mismatched(h, g) && !ActsFor(e, g)
    ensures Mismatched(HostNext(h, e), g)
  {
    OthersDoNotSpeak(h, e, g);
    EventIsStep(h, e);
    if StepOf(h, e).Some? {
      OthersTakeNothing(h, e, g);
      MismatchSurvivesStep(h, StepOf(h, e).value, g, HostNext(h, e));
    }
  }

  /** Still mismatched, or shut. */
  ghost predicate MismatchedOrShut(h: Host, g: string) {
    Mismatched(h, g) || (g in h.gateways && h.gateways[g].phase.Idle? && h.gateways[g].latched)
  }

  lemma MismatchedTry(h: Host, g: string, delivery: Delivery, dbNow: Time)
    requires Linked(h) && Mismatched(h, g)
    ensures MismatchedOrShut(NotifyStep(h, g, delivery, dbNow), g)
  {
    OneOf(h, g);
    if h.gateways[g].phase.Journaling? {
      var phase := h.gateways[g].phase;
      MismatchIsRefused(h.db, g, phase.call, phase.document, dbNow);
    }
  }

  lemma MismatchedSend(h: Host, g: string, clock: Time, end: TransportEnd, stamp: Stamp)
    requires Mismatched(h, g) && stamp.id !in h.db.receipts.rows
    ensures Mismatched(TransmitStep(h, g, clock, end, stamp), g)
  {
  }

  lemma MismatchedOwnEvent(h: Host, e: Event, g: string)
    requires Linked(h) && Mismatched(h, g) && ActsFor(e, g) && !e.Restart?
    ensures MismatchedOrShut(HostNext(h, e), g)
  {
    if FreshIds(h, e) {
      match e
      case Notify(_, delivery, dbNow) => MismatchedTry(h, g, delivery, dbNow);
      case Transmit(_, clock, end, stamp) => MismatchedSend(h, g, clock, end, stamp);
      case _ =>
    }
  }

  lemma {:induction false} MismatchStays(h: Host, life: seq<Event>, g: string)
    requires HostInv(h) && MismatchedOrShut(h, g) && SameLife(life, g)
    ensures MismatchedOrShut(HostRun(h, life), g)
  {
    if life != [] {
      var init, e := life[..|life| - 1], life[|life| - 1];
      MismatchStays(h, init, g);
      LinkedAfter(h, init);
      MismatchedOrShutEvent(HostRun(h, init), e, g);
      assert HostRun(h, life) == HostNext(HostRun(h, init), e);
    }
  }

  lemma MismatchedOrShutEvent(h: Host, e: Event, g: string)
    requires PermitInv(h.db) && Linked(h) && MismatchedOrShut(h, g) && !(e.Restart? && e.g == g)
    ensures MismatchedOrShut(HostNext(h, e), g)
  {
    if Mismatched(h, g) && ActsFor(e, g) {
      MismatchedOwnEvent(h, e, g);
    } else if Mismatched(h, g) {
      MismatchSurvivesOthers(h, e, g);
    } else if ActsFor(e, g) {
      LatchedIsInert(h, e, g);
    } else {
      OthersDoNotSpeak(h, e, g);
    }
  }

  lemma BusyIsMismatched(h: Host, g: string)
    requires Linked(h) && g in h.gateways && !h.gateways[g].phase.Idle?
    requires !OwnEpoch(h.db, h.gateways[g].phase.call.binding)
    ensures Mismatched(h, g)
  {
    OneOf(h, g);
  }

  /**
   A gateway busy with a permit spent under another epoch than its own ends up shut.  Whether the grant
   was accepted or its answer did not match, and whatever happens next in that lifetime, the gateway is
   never idle again without being latched: when its three tries are used up it is latched.
   */
  lemma OtherEpochEndsLatched(events: seq<Event>, g: string, life: seq<Event>)
    requires SameLife(life, g)
    requires var h := HostRun(INITIAL_HOST, events);
      g in h.gateways && !h.gateways[g].phase.Idle? && !OwnEpoch(h.db, h.gateways[g].phase.call.binding)
    ensures var t := HostRun(INITIAL_HOST, events + life);
      g in t.gateways && (t.gateways[g].phase.Idle? ==> t.gateways[g].latched)
  {
    HostReachable(events);
    BusyIsMismatched(HostRun(INITIAL_HOST, events), g);
    MismatchStays(HostRun(INITIAL_HOST, events), life, g);
    RunsCompose(INITIAL_HOST, events, life);
  }

  // ---------------------------------------------------------------- what a report means

  /** The permit's transport call ended this way. */
  ghost predicate EndedAs(wire: seq<WireEvent>, permit: string, end: TransportEnd) {
    exists k :: 0 <= k < |wire| && wire[k].binding.permit == permit && wire[k].end == end
  }

  /** The gateway is waiting to journal this outcome. */
  predicate Reporting(h: Host, g: string, outcome: OutcomeCode) {
    && g in h.gateways && h.gateways[g].phase.Journaling?
    && h.gateways[g].phase.document.Message? && h.gateways[g].phase.document.outcome == Some(outcome)
  }

  /** The permit the gateway is working on. */
  function PermitAt(h: Host, g: string): string {
    if g in h.gateways && !h.gateways[g].phase.Idle? then h.gateways[g].phase.call.binding.permit else ""
  }

  /** The outcome says what became of the permit's transport call. */
  ghost predicate SaysTheTruth(wire: seq<WireEvent>, permit: string, outcome: OutcomeCode) {
    && (outcome == SentDefiniteResult <==> EndedAs(wire, permit, Returned))
    && (outcome == SentUnknown <==> EndedAs(wire, permit, Raised))
    && (outcome == NotSent <==> !OnWire(wire, permit) || EndedAs(wire, permit, RaisedDenial))
  }

  /** A permit's transport call ends in one way. */
  lemma OneEnd(wire: seq<WireEvent>, permit: string, outcome: OutcomeCode)
    requires forall i, j :: 0 <= i < j < |wire| ==> wire[i].binding.permit != wire[j].binding.permit
    requires ReportedAs(wire, permit, Some(outcome))
    ensures SaysTheTruth(wire, permit, outcome)
  {
    var k :| 0 <= k < |wire| && wire[k].binding.permit == permit && ReportsEnd(wire[k].end, Some(outcome));
    forall i | 0 <= i < |wire| && wire[i].binding.permit == permit ensures i == k {}
  }

  lemma ReportIsTruthful(h: Host, g: string, outcome: OutcomeCode)
    requires Linked(h) && Reporting(h, g, outcome)
    ensures SaysTheTruth(h.wire, PermitAt(h, g), outcome)
  {
    OneOf(h, g);
    if h.gateways[g].phase.sent {
      OneEnd(h.wire, PermitAt(h, g), outcome);
    }
  }

  /**
   In every run a pending report is right about the wire: SENT_DEFINITE_RESULT exactly for a transport call that
   returned, SENT_UNKNOWN exactly for one that raised, and NOT_SENT exactly for a permit that is not on the
   wire or whose call itself raised a refusal.
   */
  lemma PendingReportIsTrue(events: seq<Event>, g: string, outcome: OutcomeCode)
    requires Reporting(HostRun(INITIAL_HOST, events), g, outcome)
    ensures var h := HostRun(INITIAL_HOST, events); SaysTheTruth(h.wire, PermitAt(h, g), outcome)
  {
    HostReachable(events);
    ReportIsTruthful(HostRun(INITIAL_HOST, events), g, outcome);
  }

  /** Spent, not on the wire, and in no gateway's hands. */
  ghost predicate Withheld(h: Host, permit: string) {
    && permit in h.db.permits.rows && h.db.permits.rows[permit].state.Consumed?
    && !OnWire(h.wire, permit)
    && forall g :: g in h.gateways && h.gateways[g].phase.Ready? ==> h.gateways[g].phase.call.binding.permit != permit
  }

  lemma UnsentIsWithheld(h: Host, g: string)
    requires Linked(h) && g in h.gateways && h.gateways[g].phase.Journaling? && !h.gateways[g].phase.sent
    ensures Withheld(h, PermitAt(h, g))
  {
    OneOf(h, g);
    forall other | other in h.gateways && h.gateways[other].phase.Ready?
      ensures h.gateways[other].phase.call.binding.permit != h.gateways[g].phase.call.binding.permit
    {
      OneOf(h, other);
    }
  }

  lemma ConsumedStays(s: State, step: Step, permit: string)
    requires PermitInv(s) && permit in s.permits.rows && s.permits.rows[permit].state.Consumed?
    ensures var t := Next(s, step).state; permit in t.permits.rows && t.permits.rows[permit].state.Consumed?
  {
    StepMoves(s, step);
    assert PermitMoved(s.permits.rows[permit], Next(s, step).state.permits.rows[permit]);
  }

  /** A submission hands its gateway no permit that is spent already. */
  lemma SubmitHandsOutUnspent(h: Host, g: string, m: SendMessage, clock: Time, dbNow: Time, exchange: Exchange,
                              messageId: string, stamp: Stamp, permit: string)
    requires PermitInv(h.db) && g in h.gateways && Withheld(h, permit)
    ensures var t := SubmitStep(h, g, m, clock, dbNow, exchange, messageId, stamp);
      t.gateways[g].phase.Ready? ==> t.gateways[g].phase.call.binding.permit != permit
  {
    if h.gateways[g].phase.Idle? && Admits(h.gateways[g].latched, m, clock) {
      ConsumeGrantedIff(h.db, ConsumeFor(g, m.request, m.binding.value), dbNow);
    }
  }

  lemma TransmitSendsOnlyReady(h: Host, g: string, clock: Time, end: TransportEnd, stamp: Stamp, permit: string)
    requires g in h.gateways && Withheld(h, permit)
    ensures !OnWire(TransmitStep(h, g, clock, end, stamp).wire, permit)
  {
    var gw := h.gateways[g];
    if gw.phase.Ready? && MaySend(gw.phase.call, gw.phase.deadline, clock) {
      var e := WireEvent(g, gw.phase.call.request, gw.phase.call.binding, clock, gw.phase.deadline, end);
      OnWireGrows(h.wire, e, permit);
    }
  }

  /** What an event could do to a withheld permit: put it on the wire or hand it to a gateway. */
  lemma WithheldOnWire(h: Host, e: Event, permit: string)
    requires Withheld(h, permit)
    ensures !OnWire(HostNext(h, e).wire, permit)
  {
    if FreshIds(h, e) && e.Transmit? && e.g in h.gateways {
      TransmitSendsOnlyReady(h, e.g, e.clock, e.end, e.stamp, permit);
    }
  }

  lemma WithheldFromGateways(h: Host, e: Event, permit: string, g: string)
    requires PermitInv(h.db) && Withheld(h, permit) && g in HostNext(h, e).gateways
    ensures HostNext(h, e).gateways[g].phase.Ready? ==> HostNext(h, e).gateways[g].phase.call.binding.permit != permit
  {
    if FreshIds(h, e) && e.Submit? && e.g == g && g in h.gateways {
      SubmitHandsOutUnspent(h, g, e.message, e.clock, e.dbNow, e.exchange, e.messageId, e.stamp, permit);
    }
  }

  lemma WithheldEvent(h: Host, e: Event, permit: string)
    requires PermitInv(h.db) && Withheld(h, permit)
    ensures Withheld(HostNext(h, e), permit)
  {
    EventIsStep(h, e);
    if StepOf(h, e).Some? {
      ConsumedStays(h.db, StepOf(h, e).value, permit);
    }
    WithheldOnWire(h, e, permit);
    forall g | g in HostNext(h, e).gateways && HostNext(h, e).gateways[g].phase.Ready?
      ensures HostNext(h, e).gateways[g].phase.call.binding.permit != permit
    {
      WithheldFromGateways(h, e, permit, g);
    }
  }

  lemma {:induction false} WithheldForever(h: Host, events: seq<Event>, permit: string)
    requires HostInv(h) && Withheld(h, permit)
    ensures Withheld(HostRun(h, events), permit)
  {
    if events != [] {
      var init := events[..|events| - 1];
      WithheldForever(h, init, permit);
      LinkedAfter(h, init);
      WithheldEvent(HostRun(h, init), events[|events| - 1], permit);
    }
  }

  /** A call found unsent while it is being journaled is never sent, however the run goes on. */
  lemma UnsentStaysOffWire(events: seq<Event>, g: string, more: seq<Event>)
    requires var h := HostRun(INITIAL_HOST, events);
      g in h.gateways && h.gateways[g].phase.Journaling? && !h.gateways[g].phase.sent
    ensures !OnWire(HostRun(INITIAL_HOST, events + more).wire, PermitAt(HostRun(INITIAL_HOST, events), g))
  {
    var h := HostRun(INITIAL_HOST, events);
    HostReachable(events);
    UnsentIsWithheld(h, g);
    WithheldForever(h, more, PermitAt(h, g));
    RunsCompose(INITIAL_HOST, events, more);
  }

  lemma NotSentIsFinalFrom(h: Host, g: string, more: seq<Event>)
    requires HostInv(h) && Reporting(h, g, NotSent)
    ensures OnWire(HostRun(h, more).wire, PermitAt(h, g)) <==> EndedAs(h.wire, PermitAt(h, g), RaisedDenial)
  {
    ReportIsTruthful(h, g, NotSent);
    if h.gateways[g].phase.sent {
      OneOf(h, g);
      WireOnlyGrows(h, more);
      OnWireStays(h.wire, HostRun(h, more).wire, PermitAt(h, g));
    } else {
      UnsentIsWithheld(h, g);
      WithheldForever(h, more, PermitAt(h, g));
    }
  }

  /**
   What a caller who retries relies on: a request reported NOT_SENT is on the wire at a later moment
   of the run if and only if its transport call had itself raised a refusal.
   */
  lemma NotSentIsFinal(events: seq<Event>, g: string, more: seq<Event>)
    requires Reporting(HostRun(INITIAL_HOST, events), g, NotSent)
    ensures var h := HostRun(INITIAL_HOST, events);
      OnWire(HostRun(INITIAL_HOST, events + more).wire, PermitAt(h, g)) <==>
        EndedAs(h.wire, PermitAt(h, g), RaisedDenial)
  {
    HostReachable(events);
    NotSentIsFinalFrom(HostRun(INITIAL_HOST, events), g, more);
    RunsCompose(INITIAL_HOST, events, more);
  }

  lemma OnWireStays(wire: seq<WireEvent>, longer: seq<WireEvent>, permit: string)
    requires wire <= longer && OnWire(wire, permit)
    ensures OnWire(longer, permit)
  {
    var k :| 0 <= k < |wire| && wire[k].binding.permit == permit;
    assert longer[k] == wire[k];
  }

  lemma {:induction false} WireOnlyGrows(h: Host, events: seq<Event>)
    ensures h.wire <= HostRun(h, events).wire
  {
    if events != [] {
      WireOnlyGrows(h, events[..|events| - 1]);
      WireGrowsByEvent(HostRun(h, events[..|events| - 1]), events[|events| - 1]);
    }
  }

  lemma WireGrowsByEvent(h: Host, e: Event)
    ensures h.wire <= HostNext(h, e).wire
  {
  }

  // ---------------------------------------------------------------- destinations

  /** Testnet requests only ever go to testnet hosts, and all others only to production hosts. */
  lemma EnvironmentsAreSeparate(r: Request)
    requires DestinationAllowed(r)
    ensures r.environment == "testnet" <==>
      r.host == "demo-fapi.binance.com" || r.host == "testnet.binancefuture.com" || r.host == "demo-fstream.binance.com"
    ensures r.environment != "testnet" <==>
      r.host == "fapi.binance.com" || r.host == "ws-fapi.binance.com" || r.host == "fstream.binance.com"
    ensures r.scheme == "https" <==> r.transport.Rest?
  {
    assert PRODUCTION_FAPI[8] == 'P' && PRODUCTION_FSTREAM[8] == 'P' && TESTNET_PREFIX[8] == 'T';
    assert TESTNET_FAPI[..16] == TESTNET_PREFIX && TESTNET_FSTREAM[..16] == TESTNET_PREFIX;
  }
}
