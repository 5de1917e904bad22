/**
 Header reconciliation over whole runs: a window's reading is the highest value any recorded header
 reported for it, whatever the order or repetition of the reports.
 */
module ReadingLaws {
  import opened RateTables
  import opened RateAuthority
  import opened StepShapes
  import opened JournalLaws
  import opened HeaderNames

  ghost predicate GroupReports(g: HeaderGroup, interval: string, v: int) {
    g.Entries? && exists e :: 0 <= e < |g.entries| && Reports(g.entries[e], interval, v)
  }

  /** A recorded header, sent for a permit charged to window `i`, reports `v` for it. */
  ghost predicate ReportedBy(o: Observation, allocations: seq<Allocation>, i: nat, key: WindowKey, v: int) {
    && o.kind.HeaderObservation?
    && o.permit.Some?
    && (exists k :: 0 <= k < |allocations| && allocations[k].permit == o.permit.value && allocations[k].window == i)
    && (|| (key.limitType == "REQUEST_WEIGHT" && GroupReports(o.header.weights, key.interval, v))
        || (key.limitType == "ORDERS" && GroupReports(o.header.orders, key.interval, v)))
  }

  /** Some recorded header reports `v` for the window. */
  ghost predicate Reported(w: Window, i: nat, allocations: seq<Allocation>, observations: seq<Observation>, v: int) {
    exists o :: 0 <= o < |observations| && ReportedBy(observations[o], allocations, i, w.key, v)
  }

  /** The window's reading is the maximum of 0 and all its reports. */
  ghost predicate HighestReading(w: Window, i: nat, allocations: seq<Allocation>, observations: seq<Observation>) {
    && 0 <= w.observed
    && (forall v :: Reported(w, i, allocations, observations, v) ==> v <= w.observed)
    && (w.observed == 0 || Reported(w, i, allocations, observations, w.observed))
  }

  ghost predicate ReadingInv(s: State) {
    forall i :: 0 <= i < |s.windows| ==> HighestReading(s.windows[i], i, s.allocations, s.observations)
  }

  /** The same by the interval the trigger reads off the name. */
  predicate Read(e: HeaderEntry, interval: string, v: int) {
    IntervalOf(e.name) == Some(interval) && e.reading == Number(v)
  }

  lemma {:induction false} RaisedByRead(observed: int, entries: seq<HeaderEntry>, interval: string)
    ensures var r := RaisedBy(observed, entries, interval);
      && observed <= r
      && (forall e, v :: 0 <= e < |entries| && Read(entries[e], interval, v) ==> v <= r)
      && (r == observed || exists e :: 0 <= e < |entries| && Read(entries[e], interval, r))
  {
    if entries != [] {
      var n := |entries| - 1;
      var init := entries[..n];
      RaisedByRead(observed, init, interval);
      var r := RaisedBy(observed, entries, interval);
      if r != observed && r == RaisedBy(observed, init, interval) {
        var e :| 0 <= e < |init| && Read(init[e], interval, r);
        assert Read(entries[e], interval, r);
      } else if r != observed {
        assert Read(entries[n], interval, r);
      }
      forall e, v | 0 <= e < |entries| && Read(entries[e], interval, v) ensures v <= r {
        if e < n {
          assert Read(init[e], interval, v);
        }
      }
    }
  }

  lemma ReadIsReported(e: HeaderEntry, interval: string, v: int)
    ensures Read(e, interval, v) <==> Reports(e, interval, v)
  {
    IntervalIsSpelled(e.name, interval);
  }

  /** `RaisedBy` is the maximum of the start value and the readings of entries whose names spell the interval. */
  lemma RaisedByIsMax(observed: int, entries: seq<HeaderEntry>, interval: string)
    ensures var r := RaisedBy(observed, entries, interval);
      && observed <= r
      && (forall e, v :: 0 <= e < |entries| && Reports(entries[e], interval, v) ==> v <= r)
      && (r == observed || GroupReports(Entries(entries), interval, r))
  {
    RaisedByRead(observed, entries, interval);
    forall e, v | 0 <= e < |entries| ensures Read(entries[e], interval, v) <==> Reports(entries[e], interval, v) {
      ReadIsReported(entries[e], interval, v);
    }
  }

  /** A charged window after one header is exactly the maximum with that header's reports. */
  lemma RaisedIsHighest(w: Window, entries: seq<HeaderEntry>, limitType: string)
    requires w.key.limitType == limitType
    ensures var r := RaiseWindow(w, true, limitType, entries).observed;
      && w.observed <= r
      && (forall v :: GroupReports(Entries(entries), w.key.interval, v) ==> v <= r)
      && (r == w.observed || GroupReports(Entries(entries), w.key.interval, r))
  {
    RaisedByIsMax(w.observed, entries, w.key.interval);
  }

  lemma LimitTypesDiffer()
    ensures REQUEST_WEIGHT != ORDERS
  {
    assert |REQUEST_WEIGHT| == 14;
  }

  lemma OneMoreRow(w: Window, after: Window, i: nat, allocations: seq<Allocation>, observations: seq<Observation>,
                   o: Observation, v: int)
    requires after.key == w.key
    ensures Reported(after, i, allocations, observations + [o], v) <==>
            Reported(w, i, allocations, observations, v) || ReportedBy(o, allocations, i, w.key, v)
  {
    var longer := observations + [o];
    if Reported(w, i, allocations, observations, v) {
      var k :| 0 <= k < |observations| && ReportedBy(observations[k], allocations, i, w.key, v);
      assert ReportedBy(longer[k], allocations, i, w.key, v);
    } else if ReportedBy(o, allocations, i, w.key, v) {
      assert ReportedBy(longer[|observations|], allocations, i, w.key, v);
    }
  }

  lemma HeaderKeepsWindow(w: Window, i: nat, allocations: seq<Allocation>, observations: seq<Observation>,
                          o: Observation)
    requires HighestReading(w, i, allocations, observations)
    requires o.kind.HeaderObservation? && o.permit.Some? && Readable(o.header.weights) && Readable(o.header.orders)
    ensures var charged := HasAllocation(allocations, o.permit.value, i);
      var weighed := RaiseWindow(w, charged, REQUEST_WEIGHT, o.header.weights.entries);
      HighestReading(RaiseWindow(weighed, charged, ORDERS, o.header.orders.entries), i, allocations, observations + [o])
  {
    LimitTypesDiffer();
    var charged := HasAllocation(allocations, o.permit.value, i);
    var weighed := RaiseWindow(w, charged, REQUEST_WEIGHT, o.header.weights.entries);
    var after := RaiseWindow(weighed, charged, ORDERS, o.header.orders.entries);
    var longer := observations + [o];
    if charged && w.key.limitType == REQUEST_WEIGHT {
      RaisedIsHighest(w, o.header.weights.entries, REQUEST_WEIGHT);
    } else if charged && w.key.limitType == ORDERS {
      RaisedIsHighest(w, o.header.orders.entries, ORDERS);
    }
    forall v ensures Reported(after, i, allocations, longer, v) <==>
      Reported(w, i, allocations, observations, v) || ReportedBy(o, allocations, i, w.key, v)
    {
      OneMoreRow(w, after, i, allocations, observations, o, v);
    }
    assert after.observed != w.observed ==> ReportedBy(o, allocations, i, w.key, after.observed);
  }

  /** A row that is not a header of a charged permit says nothing about the window. */
  lemma SilentRowKeepsWindow(w: Window, i: nat, allocations: seq<Allocation>, observations: seq<Observation>,
                             o: Observation)
    requires HighestReading(w, i, allocations, observations)
    requires !o.kind.HeaderObservation? || o.permit.None?
    ensures HighestReading(w, i, allocations, observations + [o])
  {
    forall v
      ensures Reported(w, i, allocations, observations + [o], v) <==> Reported(w, i, allocations, observations, v)
    {
      OneMoreRow(w, w, i, allocations, observations, o, v);
    }
  }

  /** Where a first recorded header leaves the windows. */
  lemma RecordedHeaderRaises(s: State, m: GatewayMessage, now: Time)
    requires Record(s, m, now).reply == Recorded(true)
    ensures m.kind.HeaderObservation? ==>
      && m.permit.Some? && Readable(m.header.weights) && Readable(m.header.orders)
      && Record(s, m, now).state.windows == RaisedWindows(s.windows, s.allocations, m.permit.value, m.header)
    ensures !m.kind.HeaderObservation? ==> Record(s, m, now).state.windows == s.windows
  {
  }

  lemma RecordKeepsReadings(s: State, m: GatewayMessage, now: Time)
    requires ReadingInv(s)
    ensures ReadingInv(Record(s, m, now).state)
  {
    RecordAllOrNothing(s, m, now);
    if Record(s, m, now).reply == Recorded(true) {
      var after := Record(s, m, now).state;
      RecordAppends(s, m, now);
      RecordFrame(s, m, now);
      RecordedHeaderRaises(s, m, now);
      forall i | 0 <= i < |after.windows|
        ensures HighestReading(after.windows[i], i, after.allocations, after.observations)
      {
        assert HighestReading(s.windows[i], i, s.allocations, s.observations);
        if m.kind.HeaderObservation? {
          HeaderKeepsWindow(s.windows[i], i, s.allocations, s.observations, after.observations[|s.observations|]);
        } else if !m.kind.SendOutcome? {
          SilentRowKeepsWindow(s.windows[i], i, s.allocations, s.observations, after.observations[|s.observations|]);
        }
      }
    }
  }

  /** Rows of a permit no header mentions do not change what any header reports. */
  lemma NewRowsReportNothing(allocations: seq<Allocation>, more: seq<Allocation>, o: Observation, i: nat,
                             key: WindowKey, v: int)
    requires o.permit.Some? ==> forall k :: 0 <= k < |more| ==> more[k].permit != o.permit.value
    ensures ReportedBy(o, allocations + more, i, key, v) <==> ReportedBy(o, allocations, i, key, v)
  {
    if o.permit.Some? {
      var id := o.permit.value;
      var rows := allocations + more;
      if HasAllocation(allocations, id, i) {
        var k :| 0 <= k < |allocations| && allocations[k].permit == id && allocations[k].window == i;
        assert rows[k].permit == id && rows[k].window == i;
      }
      if HasAllocation(rows, id, i) {
        var k :| 0 <= k < |rows| && rows[k].permit == id && rows[k].window == i;
        assert k < |allocations|;
        assert allocations[k].permit == id && allocations[k].window == i;
      }
    }
  }

  lemma GrantKeepsReadings(s: State, req: ReserveRequest, charges: seq<Charge>, now: Time)
    requires ReadingInv(s) && JournalInv(s) && ChargesWithin(charges, s.windows)
    requires req.permit !in s.permits.rows
    ensures ReadingInv(Grant(s, req, charges, now))
  {
    var after := Grant(s, req, charges, now);
    var more := LedgerRows(req.permit, charges);
    forall i | 0 <= i < |after.windows|
      ensures HighestReading(after.windows[i], i, after.allocations, after.observations)
    {
      ChargeAllFrame(s.windows, charges, i);
      var w := s.windows[i];
      assert HighestReading(w, i, s.allocations, s.observations);
      forall v ensures Reported(after.windows[i], i, after.allocations, s.observations, v) <==>
                       Reported(w, i, s.allocations, s.observations, v)
      {
        forall o | 0 <= o < |s.observations|
          ensures ReportedBy(s.observations[o], after.allocations, i, w.key, v) <==>
                  ReportedBy(s.observations[o], s.allocations, i, w.key, v)
        {
          assert ObservationSound(s, s.observations[o]);
          NewRowsReportNothing(s.allocations, more, s.observations[o], i, w.key, v);
        }
      }
    }
  }

  /** Every step keeps every window at its highest reading. */
  lemma StepKeepsReadings(s: State, step: Step)
    requires ReadingInv(s) && JournalInv(s)
    requires forall k :: 0 <= k < |s.allocations| ==> s.allocations[k].window < |s.windows|
    ensures ReadingInv(Next(s, step).state)
  {
    match step
    case AcquireStep(_, _, _, _) =>
    case ReserveStep(req, leaseClock, now) =>
      ReserveAllOrNothing(s, req, leaseClock, now);
      if WritesGrant(s, req, leaseClock, now) {
        GrantKeepsReadings(s, req, Planned(s, req, now), now);
      }
    case ConsumeStep(_, _) =>
    case RecordStep(m, now) => RecordKeepsReadings(s, m, now);
    case OpenWindowStep(_, _, _, _, _) =>
    case InstallPolicyStep(_, _) =>
  }

  // ---------------------------------------------------------------- what it buys

  /** Two histories that report the same values for a window, in any order, give it the same reading. */
  lemma ReadingIsOrderIndependent(s: State, t: State, i: nat)
    requires ReadingInv(s) && ReadingInv(t) && i < |s.windows| && i < |t.windows|
    requires s.windows[i].key == t.windows[i].key
    requires forall v :: Reported(s.windows[i], i, s.allocations, s.observations, v) <==>
                         Reported(t.windows[i], i, t.allocations, t.observations, v)
    ensures s.windows[i].observed == t.windows[i].observed
  {
    assert HighestReading(s.windows[i], i, s.allocations, s.observations);
    assert HighestReading(t.windows[i], i, t.allocations, t.observations);
  }

  /** The next grant against a window starts no lower than anything reported for it. */
  lemma GrantStartsAboveReadings(s: State, req: ReserveRequest, leaseClock: Time, now: Time, k: nat, v: int)
    requires ReadingInv(s) && WritesGrant(s, req, leaseClock, now) && k < |Planned(s, req, now)|
    ensures var i := Planned(s, req, now)[k].window;
      && i < |s.windows|
      && (Reported(s.windows[i], i, s.allocations, s.observations, v) ==> v <= Planned(s, req, now)[k].before)
  {
    PlanSound(s.windows, req.envelope.authority, SelectVector(s.policies.rows, req, now).value, now, k);
    var i := Planned(s, req, now)[k].window;
    assert HighestReading(s.windows[i], i, s.allocations, s.observations);
  }
}
