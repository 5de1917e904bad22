/**
 What each operation can change, stated once.  A reservation either writes one whole grant or
 nothing; a recorded message never touches permits, nonces or the ledger.
 */
module StepShapes {
  import opened RateTables
  import opened RateAuthority

  // ---------------------------------------------------------------- reservation

  /** All gates pass and the request key is new: this call writes a grant. */
  predicate WritesGrant(s: State, req: ReserveRequest, leaseClock: Time, now: Time) {
    && LeaseCurrent(s.fencing, req.epoch, leaseClock)
    && now < req.expiresAt <= now + 5 * SECOND
    && !Blocked(s.blocks.rows, req.envelope.authority, now)
    && !(req.requestKey in s.keyIndex.rows && s.keyIndex.rows[req.requestKey] in s.permits.rows)
    && SelectVector(s.policies.rows, req, now).Success?
    && Plan(s.windows, req.envelope.authority, SelectVector(s.policies.rows, req, now).value, now).Success?
    && req.nonce !in s.nonces.rows
    && req.permit !in s.permits.rows
    && DistinctWindows(Planned(s, req, now))
  }

  function Planned(s: State, req: ReserveRequest, now: Time): seq<Charge>
    requires SelectVector(s.policies.rows, req, now).Success?
    requires Plan(s.windows, req.envelope.authority, SelectVector(s.policies.rows, req, now).value, now).Success?
  {
    Plan(s.windows, req.envelope.authority, SelectVector(s.policies.rows, req, now).value, now).value
  }

  /** Reserve is all or nothing. */
  lemma ReserveAllOrNothing(s: State, req: ReserveRequest, leaseClock: Time, now: Time)
    ensures WritesGrant(s, req, leaseClock, now) ==>
      && ChargesWithin(Planned(s, req, now), s.windows)
      && Reserve(s, req, leaseClock, now) ==
           Outcome(Grant(s, req, Planned(s, req, now), now),
                   ReserveGranted(req.permit, req.opClass, req.epoch, req.expiresAt))
    ensures !WritesGrant(s, req, leaseClock, now) ==> Reserve(s, req, leaseClock, now).state == s
  {
    if WritesGrant(s, req, leaseClock, now) {
      PlanWithin(s.windows, req.envelope.authority, SelectVector(s.policies.rows, req, now).value, now);
    }
  }

  /** A planned charge names the window found for its item, starts at its level and respects both ceilings. */
  lemma {:induction false} PlanSound(ws: seq<Window>, authority: string, items: seq<CostItem>, now: Time, k: nat)
    requires Plan(ws, authority, items, now).Success? && k < |items|
    ensures var c := Plan(ws, authority, items, now).value[k];
      && FindWindow(ws, ItemKey(authority, items[k]), now) == Some(c.window)
      && c.window < |ws|
      && c.cost == items[k].cost >= 0
      && c.before == Level(ws[c.window])
      && c.After() <= ws[c.window].limit
      && c.After() <= items[k].ceiling
  {
    if k < |items| - 1 {
      PlanSound(ws, authority, items[..|items| - 1], now, k);
    }
  }

  /** If no two windows of a key are open together, the lookup has no choice to make. */
  lemma FindWindowUnique(ws: seq<Window>, key: WindowKey, now: Time, i: nat)
    requires i < |ws| && OpenAt(ws[i], key, now)
    requires forall a, b :: 0 <= a < b < |ws| && ws[a].key == ws[b].key ==>
      ws[a].end <= ws[b].start || ws[b].end <= ws[a].start
    ensures FindWindow(ws, key, now) == Some(i)
  {
    var found := FindWindow(ws, key, now);
    assert OpenAt(ws[found.value], key, now);
  }

  /** The exact effect of a vector charge: a named window ends at its charge, every other is untouched. */
  lemma {:induction false} ChargeAllAt(ws: seq<Window>, charges: seq<Charge>, i: nat)
    requires ChargesWithin(charges, ws) && DistinctWindows(charges) && i < |ws|
    ensures (forall k :: 0 <= k < |charges| ==> charges[k].window != i) ==> ChargeAll(ws, charges)[i] == ws[i]
    ensures forall k :: 0 <= k < |charges| && charges[k].window == i ==>
              ChargeAll(ws, charges)[i] == ws[i].(used := charges[k].After())
  {
    if charges != [] {
      var n := |charges| - 1;
      var init := charges[..n];
      assert forall k :: 0 <= k < n ==> init[k] == charges[k];
      ChargeAllAt(ws, init, i);
      if charges[n].window == i {
        assert forall k :: 0 <= k < n ==> init[k].window != i;
      }
    }
  }

  /** The same for one charge of the vector. */
  lemma ChargedAt(ws: seq<Window>, charges: seq<Charge>, k: nat)
    requires ChargesWithin(charges, ws) && DistinctWindows(charges) && k < |charges|
    ensures ChargeAll(ws, charges)[charges[k].window] == ws[charges[k].window].(used := charges[k].After())
  {
    ChargeAllAt(ws, charges, charges[k].window);
  }

  /** A vector charge changes only the used amounts. */
  lemma {:induction false} ChargeAllFrame(ws: seq<Window>, charges: seq<Charge>, i: nat)
    requires ChargesWithin(charges, ws) && i < |ws|
    ensures var w := ChargeAll(ws, charges)[i]; w == ws[i].(used := w.used)
  {
    if charges != [] {
      ChargeAllFrame(ws, charges[..|charges| - 1], i);
    }
  }

  // ---------------------------------------------------------------- journal

  /** A window after some headers: only its reading can have risen. */
  predicate OnlyRaised(before: Window, after: Window) {
    after == before.(observed := after.observed) && before.observed <= after.observed
  }

  predicate AllOnlyRaised(before: seq<Window>, after: seq<Window>) {
    |before| == |after| && forall i :: 0 <= i < |before| ==> OnlyRaised(before[i], after[i])
  }

  lemma {:induction false} RaisedByGrows(observed: int, entries: seq<HeaderEntry>, interval: string)
    ensures observed <= RaisedBy(observed, entries, interval)
  {
    if entries != [] {
      RaisedByGrows(observed, entries[..|entries| - 1], interval);
    }
  }

  lemma RaiseOnlyRaises(ws: seq<Window>, allocations: seq<Allocation>, permit: string, limitType: string,
                        entries: seq<HeaderEntry>)
    ensures AllOnlyRaised(ws, RaiseWindows(ws, allocations, permit, limitType, entries))
  {
    forall i | 0 <= i < |ws|
      ensures OnlyRaised(ws[i], RaiseWindows(ws, allocations, permit, limitType, entries)[i])
    {
      RaisedByGrows(ws[i].observed, entries, ws[i].key.interval);
    }
  }

  /** The windows after both header groups of one message. */
  function RaisedWindows(ws: seq<Window>, allocations: seq<Allocation>, permit: string, header: Header): seq<Window>
    requires header.weights.Entries? && header.orders.Entries?
  {
    RaiseWindows(RaiseWindows(ws, allocations, permit, REQUEST_WEIGHT, header.weights.entries),
                 allocations, permit, ORDERS, header.orders.entries)
  }

  /** Everything `Record` leaves alone, and what it may append. */
  lemma RecordFrame(s: State, m: GatewayMessage, now: Time)
    ensures var after := Record(s, m, now).state;
      && after.fencing == s.fencing && after.events == s.events
      && after.allocations == s.allocations && after.permits == s.permits
      && after.keyIndex == s.keyIndex && after.nonces == s.nonces && after.policies == s.policies
      && AllOnlyRaised(s.windows, after.windows)
  {
    if m.Message? && m.permit.Some? && Readable(m.header.weights) && Readable(m.header.orders) {
      RaiseOnlyRaises(s.windows, s.allocations, m.permit.value, REQUEST_WEIGHT, m.header.weights.entries);
      RaiseOnlyRaises(RaiseWindows(s.windows, s.allocations, m.permit.value, REQUEST_WEIGHT, m.header.weights.entries),
                      s.allocations, m.permit.value, ORDERS, m.header.orders.entries);
    }
  }

  /** Lease requests, new windows and new policies leave permits, ledger and journal alone. */
  lemma QuietFrame(s: State, step: Step)
    requires step.AcquireStep? || step.OpenWindowStep? || step.InstallPolicyStep?
    ensures var after := Next(s, step).state;
      && after.allocations == s.allocations && after.permits == s.permits
      && after.keyIndex == s.keyIndex && after.nonces == s.nonces
      && after.receipts == s.receipts && after.outcomes == s.outcomes && after.observations == s.observations
      && after.blocks == s.blocks && s.fencing.epoch <= after.fencing.epoch
      && s.windows <= after.windows && s.events <= after.events
  {
  }
}
