/**
 The stored functions as they run: row updates in place, two passes over the cost vector, loops over
 header entries.  Each procedure is proved to compute exactly the corresponding transition.
 */
module RateDatabase {
  import opened RateTables
  import opened RateAuthority
  import opened StepShapes
  import opened PermitLaws
  import opened AuthorityRuns

  // ---------------------------------------------------------------- facts the loops need

  lemma {:induction false} PlanExtends(ws: seq<Window>, authority: string, items: seq<CostItem>, now: Time, k: nat)
    requires k <= |items|
    ensures Plan(ws, authority, items[..k], now).Failure? ==>
              Plan(ws, authority, items, now) == Plan(ws, authority, items[..k], now)
    ensures Plan(ws, authority, items, now).Success? ==>
              && Plan(ws, authority, items[..k], now).Success?
              && Plan(ws, authority, items[..k], now).value == Plan(ws, authority, items, now).value[..k]
    decreases |items|
  {
    if k == |items| {
      assert items[..k] == items;
    } else {
      var init := items[..|items| - 1];
      assert init[..k] == items[..k];
      PlanExtends(ws, authority, init, now, k);
    }
  }

  lemma PlanStops(ws: seq<Window>, authority: string, items: seq<CostItem>, now: Time, k: nat)
    requires k < |items| && Plan(ws, authority, items[..k], now).Success?
    ensures PlanItem(ws, authority, items[k], now).Failure? ==>
              Plan(ws, authority, items, now) == Failure(PlanItem(ws, authority, items[k], now).error)
    ensures PlanItem(ws, authority, items[k], now).Success? ==> Plan(ws, authority, items[..k + 1], now).Success?
  {
    assert items[..k + 1][..k] == items[..k];
    PlanExtends(ws, authority, items, now, k + 1);
  }

  /** Lookups see only key and times. */
  lemma {:induction false} FindWindowStable(ws: seq<Window>, vs: seq<Window>, key: WindowKey, now: Time)
    requires |ws| == |vs|
    requires forall i :: 0 <= i < |ws| ==>
      ws[i].key == vs[i].key && ws[i].start == vs[i].start && ws[i].end == vs[i].end
    ensures FindWindow(ws, key, now) == FindWindow(vs, key, now)
  {
    if ws != [] {
      FindWindowStable(ws[..|ws| - 1], vs[..|vs| - 1], key, now);
    }
  }

  /**
   What the second pass finds for item `k`, reading the windows the earlier items already changed:
   the same window as the first pass, and the same level unless an earlier item took that window.
   */
  lemma SecondPassAgrees(ws: seq<Window>, authority: string, items: seq<CostItem>, now: Time, k: nat)
    requires Plan(ws, authority, items, now).Success? && k < |items|
    requires var planned := Plan(ws, authority, items, now).value;
      ChargesWithin(planned, ws) && DistinctWindows(planned[..k])
    ensures var planned := Plan(ws, authority, items, now).value;
      var running := ChargeAll(ws, planned[..k]);
      && FindWindow(running, ItemKey(authority, items[k]), now) == Some(planned[k].window)
      && planned[k].cost == items[k].cost
      && ((forall j :: 0 <= j < k ==> planned[j].window != planned[k].window) ==>
            Level(running[planned[k].window]) == planned[k].before)
  {
    var planned := Plan(ws, authority, items, now).value;
    var running := ChargeAll(ws, planned[..k]);
    PlanSound(ws, authority, items, now, k);
    forall i | 0 <= i < |ws|
      ensures ws[i].key == running[i].key && ws[i].start == running[i].start && ws[i].end == running[i].end
    {
      ChargeAllFrame(ws, planned[..k], i);
    }
    FindWindowStable(ws, running, ItemKey(authority, items[k]), now);
    ChargeAllAt(ws, planned[..k], planned[k].window);
  }

  /** A ledger row of this permit for the window exists already exactly when an earlier item took the window. */
  lemma RepeatedRow(rows: seq<Allocation>, permit: string, charges: seq<Charge>, k: nat)
    requires k < |charges| && forall r :: 0 <= r < |rows| ==> rows[r].permit != permit
    ensures HasAllocation(rows + LedgerRows(permit, charges[..k]), permit, charges[k].window) <==>
            exists j :: 0 <= j < k && charges[j].window == charges[k].window
  {
    var all := rows + LedgerRows(permit, charges[..k]);
    if HasAllocation(all, permit, charges[k].window) {
      var r :| 0 <= r < |all| && all[r].permit == permit && all[r].window == charges[k].window;
      assert all[r] == LedgerRow(permit, charges[r - |rows|]);
    }
    if j :| 0 <= j < k && charges[j].window == charges[k].window {
      assert all[|rows| + j] == LedgerRow(permit, charges[j]);
    }
  }

  lemma DistinctGrows(charges: seq<Charge>, k: nat)
    requires k < |charges| && DistinctWindows(charges[..k])
    requires forall j :: 0 <= j < k ==> charges[j].window != charges[k].window
    ensures DistinctWindows(charges[..k + 1])
  {
  }

  lemma ChargeOneMore(ws: seq<Window>, rows: seq<Allocation>, permit: string, charges: seq<Charge>, k: nat)
    requires k < |charges| && ChargesWithin(charges, ws)
    ensures var running := ChargeAll(ws, charges[..k]);
      ChargeAll(ws, charges[..k + 1])
        == running[charges[k].window := running[charges[k].window].(used := charges[k].After())]
    ensures rows + LedgerRows(permit, charges[..k + 1])
      == rows + LedgerRows(permit, charges[..k]) + [LedgerRow(permit, charges[k])]
  {
    assert charges[..k + 1][..k] == charges[..k];
  }

  /** One UPDATE of the trigger: every matching window rises to the reading. */
  function RaiseTo(ws: seq<Window>, allocations: seq<Allocation>, permit: string, limitType: string,
                   interval: string, v: int): (r: seq<Window>)
    ensures |r| == |ws|
    ensures forall i :: 0 <= i < |ws| ==>
      r[i] == (if HasAllocation(allocations, permit, i) && ws[i].key.limitType == limitType
        && ws[i].key.interval == interval
               then ws[i].(observed := Max(ws[i].observed, v)) else ws[i])
  {
    seq(|ws|, i requires 0 <= i < |ws| =>
      if HasAllocation(allocations, permit, i) && ws[i].key.limitType == limitType && ws[i].key.interval == interval
      then ws[i].(observed := Max(ws[i].observed, v)) else ws[i])
  }

  lemma RaiseOneMore(ws: seq<Window>, allocations: seq<Allocation>, permit: string, limitType: string,
                     entries: seq<HeaderEntry>, k: nat)
    requires k < |entries|
    ensures var running := RaiseWindows(ws, allocations, permit, limitType, entries[..k]);
      var interval := IntervalOf(entries[k].name);
      RaiseWindows(ws, allocations, permit, limitType, entries[..k + 1]) ==
        if interval.Some? && entries[k].reading.Number?
        then RaiseTo(running, allocations, permit, limitType, interval.value, entries[k].reading.n) else running
  {
    assert entries[..k + 1][..k] == entries[..k];
  }

  // ---------------------------------------------------------------- the database object

  class Database {
    var fencing: Fencing
    var events: seq<LeaseEvent>
    var windows: seq<Window>
    var allocations: seq<Allocation>
    var permits: Table<string, Permit>
    var keyIndex: Table<string, string>
    var nonces: Table<string, Nonce>
    var policies: Table<PolicyKey, Policy>
    var receipts: Table<string, Receipt>
    var outcomes: seq<OutcomeRow>
    var observations: seq<Observation>
    var blocks: Table<string, Block>

    function View(): State
      reads this
    {
      State(fencing, events, windows, allocations, permits, keyIndex, nonces, policies, receipts, outcomes,
            observations, blocks)
    }

    ghost predicate Valid()
      reads this
    {
      Inv(View())
    }

    constructor ()
      ensures View() == INITIAL && Valid()
    {
      fencing := INITIAL.fencing;
      events, windows, allocations, outcomes, observations := [], [], [], [], [];
      permits, keyIndex, nonces := Table(map[]), Table(map[]), Table(map[]);
      policies, receipts, blocks := Table(map[]), Table(map[]), Table(map[]);
      new;
      InitialInv();
    }

    method AcquireFencingLease(instance: string, expected: int, ttl: int, now: Time) returns (reply: Reply)
      modifies this`fencing, this`events
      ensures Outcome(View(), reply) == Acquire(old(View()), instance, expected, ttl, now)
    {
      if instance == "" || instance == UNINITIALIZED || ttl < 1 || ttl > 300 {
        return LeaseDenied(FencingRequestInvalid, fencing.epoch);
      }
      if expected != fencing.epoch {
        events := events + [LeaseEvent(instance, fencing.epoch, fencing.epoch, Refused, None, now)];
        return LeaseDenied(FencingEpochStale, fencing.epoch);
      }
      var expires := now + ttl * SECOND;
      if fencing.lease.Some? && fencing.lease.value.expires > now {
        var lease := fencing.lease.value;
        if fencing.holder != instance {
          events := events + [LeaseEvent(instance, fencing.epoch, fencing.epoch, Refused, Some(lease.expires), now)];
          return LeaseDenied(FencingLeaseHeld, fencing.epoch);
        }
        if now < lease.acquired {
          return Aborted;
        }
        fencing := fencing.(lease := Some(lease.(renewed := now, expires := expires)));
        events := events + [LeaseEvent(instance, fencing.epoch, fencing.epoch, Renewed, Some(expires), now)];
        return LeaseGranted(Renewed, fencing.epoch, expires);
      }
      var previous := fencing.epoch;
      fencing := Fencing(previous + 1, instance, Some(Lease(now, now, expires)));
      events := events + [LeaseEvent(instance, previous, previous + 1, Acquired, Some(expires), now)];
      return LeaseGranted(Acquired, previous + 1, expires);
    }

    /** First pass: every item against the windows as they stand; `None` when all pass. */
    method CheckVector(authority: string, items: seq<CostItem>, now: Time) returns (denial: Option<Reason>)
      ensures denial.Some? ==> Plan(windows, authority, items, now) == Failure(denial.value)
      ensures denial.None? ==> Plan(windows, authority, items, now).Success?
    {
      for k := 0 to |items|
        invariant Plan(windows, authority, items[..k], now).Success?
      {
        var item := items[k];
        PlanStops(windows, authority, items, now, k);
        if item.cost < 0 || item.ceiling < 1 {
          return Some(RateAuthorityUnavailable);
        }
        var found := FindWindow(windows, ItemKey(authority, item), now);
        if found.None? {
          return Some(RateAuthorityUnavailable);
        }
        var w := windows[found.value];
        if w.blockedUntil.Some? && w.blockedUntil.value > now {
          return Some(RateScopeBlocked);
        }
        if Level(w) + item.cost > Min(w.limit, item.ceiling) {
          return Some(RateClassCeilingExceeded);
        }
      }
      assert items[..|items|] == items;
      denial := None;
    }

    /**
     Second pass: looks every window up again, charges it at its running level and appends the
     ledger row.  A repeated window violates UNIQUE(permit_id, window_id).
     */
    method ApplyVector(permit: string, authority: string, items: seq<CostItem>, now: Time)
      returns (ok: bool, ws: seq<Window>, rows: seq<Allocation>)
      requires Plan(windows, authority, items, now).Success?
      requires forall k :: 0 <= k < |allocations| ==> allocations[k].permit != permit
      ensures ChargesWithin(Plan(windows, authority, items, now).value, windows)
      ensures ok <==> DistinctWindows(Plan(windows, authority, items, now).value)
      ensures ok ==> ws == ChargeAll(windows, Plan(windows, authority, items, now).value)
      ensures ok ==> rows == allocations + LedgerRows(permit, Plan(windows, authority, items, now).value)
    {
      ghost var planned := Plan(windows, authority, items, now).value;
      PlanWithin(windows, authority, items, now);
      ws, rows := windows, allocations;
      assert LedgerRows(permit, planned[..0]) == [];
      for k := 0 to |items|
        invariant |ws| == |windows|
        invariant DistinctWindows(planned[..k])
        invariant ws == ChargeAll(windows, planned[..k])
        invariant rows == allocations + LedgerRows(permit, planned[..k])
      {
        SecondPassAgrees(windows, authority, items, now, k);
        var found := FindWindow(ws, ItemKey(authority, items[k]), now);
        var before := Level(ws[found.value]);
        var after := before + items[k].cost;
        RepeatedRow(allocations, permit, planned, k);
        if HasAllocation(rows, permit, found.value) {
          return false, ws, rows;
        }
        DistinctGrows(planned, k);
        ChargeOneMore(windows, allocations, permit, planned, k);
        ws := ws[found.value := ws[found.value].(used := after)];
        rows := rows + [Allocation(permit, found.value, items[k].cost, before, after)];
      }
      assert planned[..|items|] == planned;
      ok := true;
    }

    /** The rows of a grant, once both passes have gone through. */
    method WriteGrant(req: ReserveRequest, now: Time, ws: seq<Window>, rows: seq<Allocation>)
      modifies this`windows, this`allocations, this`permits, this`keyIndex, this`nonces
      ensures View() == old(View()).(
        nonces := old(nonces).Put(req.nonce, Nonce(req.envelope.capability, Reserved, req.expiresAt, None)),
        permits := old(permits).Put(req.permit, NewPermit(req, now)),
        keyIndex := old(keyIndex).Put(req.requestKey, req.permit),
        windows := ws, allocations := rows)
    {
      nonces := nonces.Put(req.nonce, Nonce(req.envelope.capability, Reserved, req.expiresAt, None));
      permits := permits.Put(req.permit, NewPermit(req, now));
      keyIndex := keyIndex.Put(req.requestKey, req.permit);
      windows, allocations := ws, rows;
    }

    /** The two passes together are the one atomic charge of the transition function. */
    method ReserveNewKey(req: ReserveRequest, now: Time) returns (reply: Reply)
      requires forall k :: 0 <= k < |allocations| ==> allocations[k].permit in permits.rows
      modifies this`windows, this`allocations, this`permits, this`keyIndex, this`nonces
      ensures Outcome(View(), reply) == ReserveFresh(old(View()), req, now)
    {
      var selected := SelectVector(policies.rows, req, now);
      if selected.Failure? {
        return ReserveDenied(selected.error);
      }
      var denial := CheckVector(req.envelope.authority, selected.value, now);
      if denial.Some? {
        return ReserveDenied(denial.value);
      }
      if req.nonce in nonces.rows {
        return ReserveDenied(RateCapabilityReplayed);
      }
      if req.permit in permits.rows {
        return Aborted;
      }
      var ok, ws, rows := ApplyVector(req.permit, req.envelope.authority, selected.value, now);
      if !ok {
        return Aborted;
      }
      ghost var charges := Plan(windows, req.envelope.authority, selected.value, now).value;
      WriteGrant(req, now, ws, rows);
      assert View() == Grant(old(View()), req, charges, now);
      return ReserveGranted(req.permit, req.opClass, req.epoch, req.expiresAt);
    }

    method ReservePermitV2(req: ReserveRequest, leaseClock: Time, now: Time) returns (reply: Reply)
      requires LedgerKeys(View())
      modifies this`windows, this`allocations, this`permits, this`keyIndex, this`nonces
      ensures Outcome(View(), reply) == Reserve(old(View()), req, leaseClock, now)
    {
      if !LeaseCurrent(fencing, req.epoch, leaseClock) {
        return ReserveDenied(RateFencingStale);
      }
      if req.expiresAt <= now || req.expiresAt > now + 5 * SECOND {
        return ReserveDenied(RateAuthorityUnavailable);
      }
      if Blocked(blocks.rows, req.envelope.authority, now) {
        return ReserveDenied(RateScopeBlocked);
      }
      if req.requestKey in keyIndex.rows && keyIndex.rows[req.requestKey] in permits.rows {
        var id := keyIndex.rows[req.requestKey];
        var p := permits.rows[id];
        if SameReservation(p, req, now) {
          return ReserveGranted(id, p.opClass, p.epoch, p.expiresAt);
        }
        return ReserveDenied(RateCapabilityReplayed);
      }
      reply := ReserveNewKey(req, now);
    }

    method ConsumePermitV2(req: ConsumeRequest, now: Time) returns (reply: Reply)
      modifies this`permits, this`nonces
      ensures Outcome(View(), reply) == Consume(old(View()), req, now)
    {
      if !LeaseCurrent(fencing, req.epoch, now) {
        return ConsumeDenied(RateFencingStale);
      }
      if req.permit !in permits.rows {
        return ConsumeDenied(RatePermitUnknown);
      }
      var p := permits.rows[req.permit];
      if p.state.Consumed? {
        return ConsumeDenied(RatePermitAlreadyConsumed);
      }
      if p.state.Expired? || now >= p.expiresAt {
        if p.state.Reserved? {
          permits := permits.Put(req.permit, p.(state := Expired));
        }
        if p.nonce in nonces.rows && nonces.rows[p.nonce].state.Reserved? {
          nonces := nonces.Put(p.nonce, nonces.rows[p.nonce].(state := Expired));
        }
        return ConsumeDenied(RatePermitExpired);
      }
      var mismatch := EnvelopeMismatch(p.envelope, req.envelope);
      if mismatch.Some? {
        return ConsumeDenied(mismatch.value);
      }
      if !NonceUsable(nonces.rows, p.nonce, req.envelope.capability, now) {
        return ConsumeDenied(RateCapabilityInvalidOrReplayed);
      }
      nonces := nonces.Put(p.nonce, nonces.rows[p.nonce].(state := Consumed, consumedAt := Some(now)));
      permits := permits.Put(req.permit, p.(state := Consumed, consumedAt := Some(now), gateway := Some(req.gateway)));
      return ConsumeGranted(Min(now + 50 * MILLISECOND, p.expiresAt));
    }

    /** One of the trigger's two loops; `None` when a reading cannot be cast. */
    method ObserveGroup(ws: seq<Window>, permit: string, limitType: string, group: HeaderGroup)
      returns (r: Option<seq<Window>>)
      ensures r.Some? <==> Readable(group)
      ensures r.Some? ==> r.value == RaiseWindows(ws, allocations, permit, limitType, group.entries)
    {
      if group.NotAnObject? {
        return None;
      }
      var entries := group.entries;
      var running := ws;
      assert RaiseWindows(ws, allocations, permit, limitType, entries[..0]) == ws;
      for k := 0 to |entries|
        invariant running == RaiseWindows(ws, allocations, permit, limitType, entries[..k])
        invariant forall e :: 0 <= e < k ==> IntervalOf(entries[e].name).Some? ==> !entries[e].reading.Garbled?
      {
        RaiseOneMore(ws, allocations, permit, limitType, entries, k);
        var interval := IntervalOf(entries[k].name);
        if interval.None? {
          continue;
        }
        match entries[k].reading {
          case Garbled => return None;
          case Missing =>
          case Number(v) => running := RaiseTo(running, allocations, permit, limitType, interval.value, v);
        }
      }
      assert entries[..|entries|] == entries;
      r := Some(running);
    }

    /** The AFTER INSERT trigger on header observations; nothing is written when it fails. */
    method ReconcileHeader(permit: Option<string>, authority: string, header: Header, source: string, now: Time)
      returns (ok: bool)
      modifies this`windows, this`blocks
      ensures ok <==> Reconcile(old(View()), permit, authority, header, source, now).Some?
      ensures if ok then View() == Reconcile(old(View()), permit, authority, header, source, now).value
              else View() == old(View())
    {
      var id := if permit.Some? then permit.value else "";
      var weighed := ObserveGroup(windows, id, REQUEST_WEIGHT, header.weights);
      if weighed.None? {
        return false;
      }
      var counted := ObserveGroup(weighed.value, id, ORDERS, header.orders);
      if counted.None? {
        return false;
      }
      var raised := if permit.None? then windows else counted.value;
      var updated := BlocksAfter(blocks.rows, raised, authority, header, source, now);
      if updated.None? {
        return false;
      }
      windows, blocks := raised, Table(updated.value);
      return true;
    }

    method RecordGatewayMessage(m: GatewayMessage, now: Time) returns (reply: Reply)
      modifies this`receipts, this`outcomes, this`observations, this`windows, this`blocks
      ensures Outcome(View(), reply) == Record(old(View()), m, now)
    {
      if m.Malformed? || (m.epoch.Some? && m.epoch.value < 1) || m.occurredAt.None? {
        return RecordDenied(GatewayEventInvalid);
      }
      if m.id in receipts.rows {
        if receipts.rows[m.id] == Receipt(m.kind, m.payload) {
          return Recorded(false);
        }
        return RecordDenied(GatewayEventReplayed);
      }
      var denial := MessageDenial(View(), m, now);
      if denial.Some? {
        return RecordDenied(denial.value);
      }
      if m.kind.SendOutcome? {
        if m.outcome.None? {
          return Aborted;
        }
        if m.outcome.value.OtherOutcome? || HasOutcome(outcomes, m.permit.value) {
          return RecordDenied(GatewayEventConflict);
        }
        receipts := receipts.Put(m.id, Receipt(m.kind, m.payload));
        outcomes := outcomes +
          [OutcomeRow(m.id, m.permit.value, m.gateway, m.outcome.value, m.payload, m.occurredAt.value)];
        return Recorded(true);
      }
      var authority := FiledUnder(View(), m);
      if authority.None? {
        return Aborted;
      }
      var receiptsBefore, observationsBefore := receipts, observations;
      receipts := receipts.Put(m.id, Receipt(m.kind, m.payload));
      observations := observations +
        [Observation(m.id, m.kind, authority.value, m.permit, m.gateway, m.epoch, m.header, m.payload,
          m.occurredAt.value)];
      if m.kind.HeaderObservation? {
        var ok := ReconcileHeader(m.permit, authority.value, m.header, m.id, now);
        if !ok {
          receipts, observations := receiptsBefore, observationsBefore;
          return Aborted;
        }
      }
      return Recorded(true);
    }

    method InsertWindow(key: WindowKey, start: Time, end: Time, limit: int, blockedUntil: Option<Time>)
      returns (reply: Reply)
      modifies this`windows
      ensures Outcome(View(), reply) == OpenWindow(old(View()), key, start, end, limit, blockedUntil)
    {
      if end <= start || limit <= 0 {
        return Aborted;
      }
      if exists i :: 0 <= i < |windows| && windows[i].key == key && windows[i].start == start {
        return Aborted;
      }
      windows := windows + [Window(key, start, end, 0, 0, limit, blockedUntil)];
      return Done;
    }

    method InsertPolicy(key: PolicyKey, policy: Policy) returns (reply: Reply)
      modifies this`policies
      ensures Outcome(View(), reply) == InstallPolicy(old(View()), key, policy)
    {
      if key in policies.rows {
        return Aborted;
      }
      policies := policies.Put(key, policy);
      return Done;
    }

    /** One transaction of any kind: the object moves exactly as the state machine does and stays valid. */
    method Perform(step: Step) returns (reply: Reply)
      requires LedgerKeys(View())
      modifies this
      ensures Outcome(View(), reply) == Next(old(View()), step)
      ensures LedgerKeys(View())
      ensures old(Valid()) ==> Valid()
    {
      StepKeepsLedgerKeys(View(), step);
      if Valid() {
        StepKeepsInv(View(), step);
      }
      match step {
        case AcquireStep(instance, expected, ttl, now) => reply := AcquireFencingLease(instance, expected, ttl, now);
        case ReserveStep(req, leaseClock, now) => reply := ReservePermitV2(req, leaseClock, now);
        case ConsumeStep(req, now) => reply := ConsumePermitV2(req, now);
        case RecordStep(m, now) => reply := RecordGatewayMessage(m, now);
        case OpenWindowStep(key, start, end, limit, blockedUntil) =>
          reply := InsertWindow(key, start, end, limit, blockedUntil);
        case InstallPolicyStep(key, policy) => reply := InsertPolicy(key, policy);
      }
    }
  }
}
