/**
 The promises of the rate authority, for every run from the migrated database.
 */
module AuthorityTheorems {
  import opened RateTables
  import opened RateAuthority
  import opened StepShapes
  import opened FencingLaws
  import opened LedgerLaws
  import opened PermitLaws
  import opened JournalLaws
  import opened ReadingLaws
  import opened BlockLaws
  import opened AuthorityRuns
  import opened ReservationLaws

  /** Every state any run reaches satisfies the invariant. */
  lemma Reachable(steps: seq<Step>)
    ensures Inv(Run(INITIAL, steps))
  {
    InitialInv();
    RunKeepsInv(INITIAL, steps);
  }

  lemma ReachablePermits(steps: seq<Step>)
    ensures PermitInv(Run(INITIAL, steps))
  {
    Reachable(steps);
  }

  /** The state a step leaves. */
  lemma StepAt(steps: seq<Step>, i: nat)
    requires i < |steps|
    ensures Run(INITIAL, steps[..i + 1]) == Next(Run(INITIAL, steps[..i]), steps[i]).state
  {
    assert steps[..i + 1][..i] == steps[..i];
  }

  /** Between two moments of a run everything has only moved forward. */
  lemma Between(steps: seq<Step>, i: nat, j: nat)
    requires i <= j <= |steps|
    ensures Evolves(Run(INITIAL, steps[..i]), Run(INITIAL, steps[..j]))
  {
    InitialInv();
    RunEvolves(INITIAL, steps[..j], i);
    assert steps[..j][..i] == steps[..i];
  }

  /** What any further run keeps of permits and request keys. */
  lemma Afterwards(s: State, after: seq<Step>)
    requires Inv(s)
    ensures PermitInv(Run(s, after))
    ensures PermitsMoved(s.permits.rows, Run(s, after).permits.rows)
    ensures RowsKept(s.keyIndex.rows, Run(s, after).keyIndex.rows)
  {
    RunKeepsInv(s, after);
    RunEvolves(s, after, 0);
  }

  // ---------------------------------------------------------------- budget

  /** No window is ever overspent, and the ledger accounts for every unit ever granted. */
  lemma NoWindowOverspent(steps: seq<Step>, i: nat)
    requires i < |Run(INITIAL, steps).windows|
    ensures var s := Run(INITIAL, steps);
      && 0 <= Granted(s.allocations, i) <= s.windows[i].used <= s.windows[i].limit
      && s.windows[i].used == LastAfter(s.allocations, i)
  {
    Reachable(steps);
    var s := Run(INITIAL, steps);
    assert WindowSound(s.windows, s.allocations, i);
    GrantedCovered(s.windows, s.allocations, i);
    UsedWithinLimit(s.windows, s.allocations, i);
  }

  /** Each ledger row starts at or above the previous row of its window: nothing is ever refunded. */
  lemma LedgerNeverRefunds(steps: seq<Step>, k: nat)
    requires k < |Run(INITIAL, steps).allocations|
    ensures var s := Run(INITIAL, steps);
      var a := s.allocations[k];
      && a.window < |s.windows|
      && LastAfter(s.allocations[..k], a.window) <= a.before <= a.after <= s.windows[a.window].limit
      && a.after == a.before + a.cost
  {
    Reachable(steps);
    var s := Run(INITIAL, steps);
    assert RowSound(s.windows, s.allocations, k);
  }

  /** Counters only rise: no expiry, refusal or unsent outcome gives a window anything back. */
  lemma CountersNeverFall(steps: seq<Step>, i: nat, w: nat)
    requires i <= |steps| && w < |Run(INITIAL, steps[..i]).windows|
    ensures var s := Run(INITIAL, steps[..i]);
      var t := Run(INITIAL, steps);
      && w < |t.windows|
      && s.windows[w].used <= t.windows[w].used
      && s.windows[w].observed <= t.windows[w].observed
      && t.windows[w].limit == s.windows[w].limit
  {
    InitialInv();
    RunEvolves(INITIAL, steps, i);
    assert WindowGrown(Run(INITIAL, steps[..i]).windows[w], Run(INITIAL, steps).windows[w]);
  }

  /** Window `w` moved to `v` by this item: from the higher of its counters to at most both ceilings. */
  predicate ChargedBy(w: Window, v: Window, row: Allocation, item: CostItem) {
    && row.cost == item.cost && row.after == row.before + item.cost
    && row.before >= w.used && row.before >= w.observed && (row.before == w.used || row.before == w.observed)
    && v == w.(used := row.after)
    && row.after <= w.limit && row.after <= item.ceiling
  }

  /** The window that serves the item was charged, and the ledger row says so. */
  ghost predicate ItemCharged(ws: seq<Window>, vs: seq<Window>, row: Allocation, permit: string, authority: string,
                              item: CostItem, now: Time)
  {
    && row.permit == permit && row.window < |ws| && row.window < |vs|
    && Serves(ws, authority, item, now, row.window)
    && ChargedBy(ws[row.window], vs[row.window], row, item)
  }

  /** No item of the vector is served by window `i`. */
  ghost predicate Unnamed(ws: seq<Window>, authority: string, items: seq<CostItem>, now: Time, i: nat) {
    forall k :: 0 <= k < |items| ==> !Serves(ws, authority, items[k], now, i)
  }

  lemma ChargedItem(ws: seq<Window>, authority: string, items: seq<CostItem>, charges: seq<Charge>, now: Time,
                    permit: string, k: nat)
    requires Plan(ws, authority, items, now) == Success(charges) && k < |items|
    requires ChargesWithin(charges, ws) && DistinctWindows(charges)
    ensures ItemCharged(ws, ChargeAll(ws, charges), LedgerRow(permit, charges[k]), permit, authority, items[k], now)
  {
    PlanSound(ws, authority, items, now, k);
    LookupIsFirst(ws, authority, items[k], now);
    ChargedAt(ws, charges, k);
  }

  lemma UnnamedStays(ws: seq<Window>, authority: string, items: seq<CostItem>, charges: seq<Charge>, now: Time, i: nat)
    requires Plan(ws, authority, items, now) == Success(charges) && i < |ws|
    requires ChargesWithin(charges, ws) && DistinctWindows(charges) && Unnamed(ws, authority, items, now, i)
    ensures ChargeAll(ws, charges)[i] == ws[i]
  {
    forall k | 0 <= k < |charges| ensures charges[k].window != i {
      PlanSound(ws, authority, items, now, k);
      LookupIsFirst(ws, authority, items[k], now);
    }
    ChargeAllAt(ws, charges, i);
  }

  /** Each item moves the window that serves it and adds its row; windows that serve none do not move. */
  ghost predicate AtomicCharge(ws: seq<Window>, after: seq<Window>, rows: seq<Allocation>, more: seq<Allocation>,
                               permit: string, authority: string, items: seq<CostItem>, now: Time)
  {
    && |after| == |ws| && |more| == |rows| + |items| && rows <= more
    && (forall k :: 0 <= k < |items| ==>
          ItemCharged(ws, after, more[|rows| + k], permit, authority, items[k], now))
    && (forall i :: 0 <= i < |ws| && Unnamed(ws, authority, items, now, i) ==> after[i] == ws[i])
  }

  lemma VectorCharged(ws: seq<Window>, rows: seq<Allocation>, authority: string, items: seq<CostItem>,
                      charges: seq<Charge>, now: Time, permit: string)
    requires Plan(ws, authority, items, now) == Success(charges)
    requires ChargesWithin(charges, ws) && DistinctWindows(charges)
    ensures AtomicCharge(ws, ChargeAll(ws, charges), rows, rows + LedgerRows(permit, charges), permit, authority, items,
                         now)
  {
    forall k | 0 <= k < |items|
      ensures ItemCharged(ws, ChargeAll(ws, charges), LedgerRow(permit, charges[k]), permit, authority, items[k], now)
    {
      ChargedItem(ws, authority, items, charges, now, permit, k);
    }
    forall i | 0 <= i < |ws| && Unnamed(ws, authority, items, now, i) ensures ChargeAll(ws, charges)[i] == ws[i] {
      UnnamedStays(ws, authority, items, charges, now, i);
    }
  }

  /** A grant charges the plan of the policy's vector. */
  lemma GrantedPlan(s: State, req: ReserveRequest, leaseClock: Time, now: Time, items: seq<CostItem>)
    requires NewKey(s, req) && Reserve(s, req, leaseClock, now).reply.ReserveGranted?
    requires VectorIs(s.policies.rows, req.envelope, req.opClass, items)
    ensures SelectVector(s.policies.rows, req, now) == Success(items)
    ensures Plan(s.windows, req.envelope.authority, items, now) == Success(Planned(s, req, now))
    ensures ChargesWithin(Planned(s, req, now), s.windows) && DistinctWindows(Planned(s, req, now))
    ensures Reserve(s, req, leaseClock, now).state.windows == ChargeAll(s.windows, Planned(s, req, now))
    ensures Reserve(s, req, leaseClock, now).state.allocations
      == s.allocations + LedgerRows(req.permit, Planned(s, req, now))
  {
    ReserveAllOrNothing(s, req, leaseClock, now);
    SelectedIs(s.policies.rows, req, SelectVector(s.policies.rows, req, now).value, now);
  }

  /** A granted vector is one atomic charge of the policy's items. */
  lemma GrantIsAtomicCharge(s: State, req: ReserveRequest, leaseClock: Time, now: Time, items: seq<CostItem>)
    requires NewKey(s, req) && Reserve(s, req, leaseClock, now).reply.ReserveGranted?
    requires VectorIs(s.policies.rows, req.envelope, req.opClass, items)
    ensures var t := Reserve(s, req, leaseClock, now).state;
      AtomicCharge(s.windows, t.windows, s.allocations, t.allocations, req.permit, req.envelope.authority, items, now)
  {
    GrantedPlan(s, req, leaseClock, now, items);
    VectorCharged(s.windows, s.allocations, req.envelope.authority, items, Planned(s, req, now), now, req.permit);
  }

  /** A vector that one window serves twice never writes anything; past all other gates it aborts. */
  lemma RepeatedWindowAborts(s: State, req: ReserveRequest, leaseClock: Time, now: Time, items: seq<CostItem>)
    requires NewKey(s, req) && VectorIs(s.policies.rows, req.envelope, req.opClass, items)
    requires !ServedApart(s.windows, req.envelope.authority, items, now)
    ensures Reserve(s, req, leaseClock, now).state == s
    ensures GatesOpen(s, req, leaseClock, now) && Covered(s.policies.rows, req.envelope, now)
            && CallerListed(s.policies.rows, req.envelope) && ClassListed(s.policies.rows, req.envelope, req.opClass)
            && (forall k :: 0 <= k < |items| ==> ItemPasses(s.windows, req.envelope.authority, items[k], now))
            && req.nonce !in s.nonces.rows
      ==> Reserve(s, req, leaseClock, now).reply.Aborted?
  {
    PolicyDecides(s.policies.rows, req, now);
    VectorPassesIff(s.windows, req.envelope.authority, items, now);
    if Plan(s.windows, req.envelope.authority, items, now).Success? {
      DistinctIff(s.windows, req.envelope.authority, items, now);
    }
  }

  // ---------------------------------------------------------------- single use

  /** A permit consumed once stays consumed in every later state, so a second consume is refused. */
  lemma ConsumedOnceStates(s: State, req: ConsumeRequest, now: Time, t: State, later: ConsumeRequest, laterNow: Time)
    requires PermitInv(s) && Consume(s, req, now).reply.ConsumeGranted?
    requires PermitInv(t) && PermitsMoved(Consume(s, req, now).state.permits.rows, t.permits.rows)
    requires Consume(t, later, laterNow).reply.ConsumeGranted?
    ensures req.permit != later.permit
    ensures req.permit in t.permits.rows && later.permit in t.permits.rows
    ensures t.permits.rows[req.permit].nonce != t.permits.rows[later.permit].nonce
  {
    ConsumeGrantedMeans(s, req, now);
    ConsumeGrantedIff(t, later, laterNow);
    assert PermitMoved(Consume(s, req, now).state.permits.rows[req.permit], t.permits.rows[req.permit]);
  }

  /** Over any run, two granted consumes concern different permits and different nonces. */
  lemma ConsumedAtMostOnce(steps: seq<Step>, i: nat, j: nat)
    requires i < j < |steps| && steps[i].ConsumeStep? && steps[j].ConsumeStep?
    requires ReplyAt(INITIAL, steps, i).ConsumeGranted? && ReplyAt(INITIAL, steps, j).ConsumeGranted?
    ensures steps[i].consume.permit != steps[j].consume.permit
    ensures var t := Run(INITIAL, steps[..j]);
      && steps[i].consume.permit in t.permits.rows && steps[j].consume.permit in t.permits.rows
      && t.permits.rows[steps[i].consume.permit].nonce != t.permits.rows[steps[j].consume.permit].nonce
  {
    ReachablePermits(steps[..i]);
    ReachablePermits(steps[..j]);
    StepAt(steps, i);
    Between(steps, i + 1, j);
    ConsumedOnceStates(Run(INITIAL, steps[..i]), steps[i].consume, steps[i].now,
                       Run(INITIAL, steps[..j]), steps[j].consume, steps[j].now);
  }

  /** In every reachable state each permit agrees with its nonce row. */
  lemma PermitMatchesNonce(steps: seq<Step>, id: string)
    requires id in Run(INITIAL, steps).permits.rows
    ensures var s := Run(INITIAL, steps);
      var p := s.permits.rows[id];
      && p.nonce in s.nonces.rows
      && s.nonces.rows[p.nonce].state == p.state
      && s.nonces.rows[p.nonce].expiresAt == p.expiresAt
      && s.nonces.rows[p.nonce].payload == p.envelope.capability
      && (p.state.Consumed? <==> p.gateway.Some?)
  {
    Reachable(steps);
    assert Coupled(Run(INITIAL, steps), id);
  }

  // ---------------------------------------------------------------- fencing

  function RequestEpoch(step: Step): Option<int> {
    match step
    case ReserveStep(req, _, _) => Some(req.epoch)
    case ConsumeStep(req, _) => Some(req.epoch)
    case _ => None
  }

  /** A reservation or consumption is granted only under the epoch of the moment, with its lease running. */
  lemma GrantNeedsCurrentEpoch(s: State, step: Step)
    requires step.ReserveStep? || step.ConsumeStep?
    requires Next(s, step).reply.ReserveGranted? || Next(s, step).reply.ConsumeGranted?
    ensures RequestEpoch(step) == Some(s.fencing.epoch)
    ensures LeaseCurrent(s.fencing, s.fencing.epoch, if step.ReserveStep? then step.leaseClock else step.now)
  {
  }

  lemma LeaseGrantedSetsEpoch(s: State, step: Step)
    requires Next(s, step).reply.LeaseGranted?
    ensures Next(s, step).state.fencing.epoch == Next(s, step).reply.leaseEpoch
  {
  }

  lemma EpochsGrow(steps: seq<Step>, i: nat, j: nat)
    requires i <= j <= |steps|
    ensures Run(INITIAL, steps[..i]).fencing.epoch <= Run(INITIAL, steps[..j]).fencing.epoch
  {
    Between(steps, i, j);
  }

  /** Once an epoch has been granted, nothing carrying an older epoch is ever granted again. */
  lemma StaleEpochNeverGranted(steps: seq<Step>, i: nat, j: nat)
    requires i < j < |steps|
    requires ReplyAt(INITIAL, steps, i).LeaseGranted?
    requires steps[j].ReserveStep? || steps[j].ConsumeStep?
    requires ReplyAt(INITIAL, steps, j).ReserveGranted? || ReplyAt(INITIAL, steps, j).ConsumeGranted?
    ensures RequestEpoch(steps[j]).value >= ReplyAt(INITIAL, steps, i).leaseEpoch
  {
    StepAt(steps, i);
    EpochsGrow(steps, i + 1, j);
    LeaseGrantedSetsEpoch(Run(INITIAL, steps[..i]), steps[i]);
    GrantNeedsCurrentEpoch(Run(INITIAL, steps[..j]), steps[j]);
  }

  /** The lease log of every run: growing epochs, each opened once and owned by one instance, no overlap. */
  lemma LeaseLog(steps: seq<Step>)
    ensures var s := Run(INITIAL, steps);
      && EpochsOrdered(s.events)
      && EpochsOpened(s.events, s.fencing.epoch)
      && OneOwnerPerEpoch(s.events)
      && TenuresDisjoint(s.events)
      && (forall i, j :: 0 <= i < j < |s.events| && s.events[i].kind.Acquired? && s.events[j].kind.Acquired? ==>
            s.events[i].resultingEpoch < s.events[j].resultingEpoch)
  {
    Reachable(steps);
  }

  // ---------------------------------------------------------------- journal

  lemma RedeliveryStates(s: State, m: GatewayMessage, now: Time, t: State, later: Time)
    requires Record(s, m, now).reply.Recorded?
    requires RowsKept(Record(s, m, now).state.receipts.rows, t.receipts.rows)
    ensures Record(t, m, later) == Outcome(t, Recorded(false))
  {
    RecordAllOrNothing(s, m, now);
    assert m.id in Record(s, m, now).state.receipts.rows;
    RedeliveryIsIdempotent(t, m, later);
  }

  /** After a message has been recorded, delivering it again at any later point of the run is a no-op. */
  lemma RedeliveryOverRuns(steps: seq<Step>, i: nat, j: nat)
    requires i < j < |steps| && steps[i].RecordStep? && steps[j].RecordStep?
    requires steps[i].message == steps[j].message && ReplyAt(INITIAL, steps, i).Recorded?
    ensures ReplyAt(INITIAL, steps, j) == Recorded(false)
    ensures Run(INITIAL, steps[..j + 1]) == Run(INITIAL, steps[..j])
  {
    StepAt(steps, i);
    StepAt(steps, j);
    Between(steps, i + 1, j);
    RedeliveryStates(Run(INITIAL, steps[..i]), steps[i].message, steps[i].now, Run(INITIAL, steps[..j]), steps[j].now);
  }

  /** Each permit has at most one outcome, sent by the gateway that consumed it. */
  lemma OneOutcomePerPermit(steps: seq<Step>, i: nat)
    requires i < |Run(INITIAL, steps).outcomes|
    ensures var s := Run(INITIAL, steps);
      && ConsumedBy(s.permits.rows, s.outcomes[i].permit, s.outcomes[i].gateway)
      && (forall j :: 0 <= j < |s.outcomes| && s.outcomes[j].permit == s.outcomes[i].permit ==> j == i)
  {
    Reachable(steps);
    assert OutcomeSound(Run(INITIAL, steps), Run(INITIAL, steps).outcomes[i]);
  }

  /** `m` is an outcome report for `permit` from the gateway that presented `envelope`. */
  predicate ReportsOutcome(m: GatewayMessage, req: ConsumeRequest) {
    && m.Message? && m.kind.SendOutcome? && m.occurredAt.Some?
    && m.permit == Some(req.permit) && m.gateway == req.gateway
    && m.canonical == Some(req.envelope.canonical)
    && (m.authority.None? || m.authority == Some(req.envelope.authority))
    && m.outcome.Some? && !m.outcome.value.OtherOutcome?
  }

  lemma OutcomeSurvivesStates(s: State, req: ConsumeRequest, now: Time, t: State, m: GatewayMessage, later: Time)
    requires PermitInv(s) && Consume(s, req, now).reply.ConsumeGranted?
    requires PermitInv(t) && PermitsMoved(Consume(s, req, now).state.permits.rows, t.permits.rows)
    requires ReportsOutcome(m, req) && m.id !in t.receipts.rows && !HasOutcome(t.outcomes, req.permit)
    requires req.permit in t.permits.rows && m.epoch == Some(t.permits.rows[req.permit].epoch)
    ensures Record(t, m, later).reply == Recorded(true)
  {
    ConsumeGrantedMeans(s, req, now);
    ConsumeGrantedIff(s, req, now);
    assert PermitMoved(Consume(s, req, now).state.permits.rows[req.permit], t.permits.rows[req.permit]);
    FirstOutcomeIsRecorded(t, m, later);
  }

  /**
   However many takeovers follow a granted consume, the first outcome its gateway reports with the
   permit's own epoch is recorded.
   */
  lemma OutcomeSurvivesTakeovers(s: State, req: ConsumeRequest, now: Time, after: seq<Step>, m: GatewayMessage,
                                 later: Time)
    requires Inv(s) && Consume(s, req, now).reply.ConsumeGranted? && ReportsOutcome(m, req)
    requires var t := Run(Consume(s, req, now).state, after);
      && m.id !in t.receipts.rows && !HasOutcome(t.outcomes, req.permit)
      && req.permit in t.permits.rows && m.epoch == Some(t.permits.rows[req.permit].epoch)
    ensures Record(Run(Consume(s, req, now).state, after), m, later).reply == Recorded(true)
  {
    StepKeepsInv(s, ConsumeStep(req, now));
    Afterwards(Consume(s, req, now).state, after);
    OutcomeSurvivesStates(s, req, now, Run(Consume(s, req, now).state, after), m, later);
  }

  // ---------------------------------------------------------------- idempotent reservation

  /** What repeating `req` must do in state `t` when permit `id` was granted for it. */
  ghost predicate RepeatsGrant(t: State, req: ReserveRequest, id: string, leaseClock: Time, now: Time) {
    var again := Reserve(t, req, leaseClock, now);
    && id in t.permits.rows
    && again.state == t
    && (again.reply.ReserveGranted? <==>
          && t.permits.rows[id].state.Reserved? && now < t.permits.rows[id].expiresAt
          && LeaseCurrent(t.fencing, req.epoch, leaseClock)
          && now < req.expiresAt <= now + 5 * SECOND
          && !Blocked(t.blocks.rows, req.envelope.authority, now))
    && (again.reply.ReserveGranted? ==> again.reply.permit == id)
  }

  /** A granted request is stored under its key with everything it binds. */
  lemma GrantedIsStored(s: State, req: ReserveRequest, leaseClock: Time, now: Time)
    requires PermitInv(s) && Reserve(s, req, leaseClock, now).reply.ReserveGranted?
    ensures var o := Reserve(s, req, leaseClock, now);
      && req.requestKey in o.state.keyIndex.rows && o.state.keyIndex.rows[req.requestKey] == o.reply.permit
      && o.reply.permit in o.state.permits.rows
      && SameReservation(o.state.permits.rows[o.reply.permit], req, now)
  {
    ReserveAllOrNothing(s, req, leaseClock, now);
  }

  lemma RepeatedReserveStates(s: State, req: ReserveRequest, clock0: Time, now0: Time, t: State, leaseClock: Time,
                              now: Time)
    requires PermitInv(s) && Reserve(s, req, clock0, now0).reply.ReserveGranted?
    requires PermitInv(t) && PermitsMoved(Reserve(s, req, clock0, now0).state.permits.rows, t.permits.rows)
    requires RowsKept(Reserve(s, req, clock0, now0).state.keyIndex.rows, t.keyIndex.rows)
    ensures RepeatsGrant(t, req, Reserve(s, req, clock0, now0).reply.permit, leaseClock, now)
  {
    GrantedIsStored(s, req, clock0, now0);
    var id := Reserve(s, req, clock0, now0).reply.permit;
    assert PermitMoved(Reserve(s, req, clock0, now0).state.permits.rows[id], t.permits.rows[id]);
    ReuseOfRequestKey(t, req, leaseClock, now);
  }

  /**
   Repeating a granted request later in the run charges nothing, and returns the same permit exactly
   while that permit is still reserved and unexpired and the gates are still open.
   */
  lemma RepeatedReserve(s: State, req: ReserveRequest, clock0: Time, now0: Time, after: seq<Step>, leaseClock: Time,
                        now: Time)
    requires Inv(s) && Reserve(s, req, clock0, now0).reply.ReserveGranted?
    ensures var granted := Reserve(s, req, clock0, now0);
      RepeatsGrant(Run(granted.state, after), req, granted.reply.permit, leaseClock, now)
  {
    StepKeepsInv(s, ReserveStep(req, clock0, now0));
    Afterwards(Reserve(s, req, clock0, now0).state, after);
    RepeatedReserveStates(s, req, clock0, now0, Run(Reserve(s, req, clock0, now0).state, after), leaseClock, now);
  }

  // ---------------------------------------------------------------- readings and blocks

  /** In every reachable state a window's reading is the highest value any recorded header reported for it. */
  lemma ReadingsOverRuns(steps: seq<Step>, i: nat)
    requires i < |Run(INITIAL, steps).windows|
    ensures var s := Run(INITIAL, steps); HighestReading(s.windows[i], i, s.allocations, s.observations)
  {
    Reachable(steps);
  }

  /** Over a run a block is never lifted or brought forward. */
  lemma BlocksNeverWeaken(steps: seq<Step>, i: nat, j: nat)
    requires i <= j <= |steps|
    ensures NoWeaker(Run(INITIAL, steps[..i]).blocks.rows, Run(INITIAL, steps[..j]).blocks.rows)
  {
    Between(steps, i, j);
  }

  lemma BlockedIsRefused(t: State, req: ReserveRequest, leaseClock: Time, now: Time)
    requires Blocked(t.blocks.rows, req.envelope.authority, now)
    ensures !Reserve(t, req, leaseClock, now).reply.ReserveGranted? && Reserve(t, req, leaseClock, now).state == t
  {
  }

  /** After a recorded 418 no later reservation for that authority is ever granted. */
  lemma NothingGrantedAfter418(steps: seq<Step>, i: nat, j: nat)
    requires i < j < |steps| && steps[i].RecordStep? && steps[j].ReserveStep?
    requires ReplyAt(INITIAL, steps, i) == Recorded(true)
    requires steps[i].message.kind.HeaderObservation? && steps[i].message.header.status == Number(418)
    requires FiledUnder(Run(INITIAL, steps[..i]), steps[i].message) == Some(steps[j].reserve.envelope.authority)
    ensures !ReplyAt(INITIAL, steps, j).ReserveGranted?
    ensures Run(INITIAL, steps[..j + 1]) == Run(INITIAL, steps[..j])
  {
    StepAt(steps, i);
    StepAt(steps, j);
    Between(steps, i + 1, j);
    TeapotBlocksForever(Run(INITIAL, steps[..i]), steps[i].message, steps[i].now);
    BlockedIsRefused(Run(INITIAL, steps[..j]), steps[j].reserve, steps[j].leaseClock, steps[j].now);
  }
}
