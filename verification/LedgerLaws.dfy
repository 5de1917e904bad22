/**
 The window ledger over whole runs: no window ever exceeds its hard limit, charges chain without
 refunds, and the granted costs are covered by the amount used.
 */
module LedgerLaws {
  import opened RateTables
  import opened RateAuthority
  import opened StepShapes

  /** The `after` of the last row charged to a window, 0 if there is none. */
  function LastAfter(allocations: seq<Allocation>, window: nat): int {
    if allocations == [] then 0
    else
      var last := allocations[|allocations| - 1];
      if last.window == window then last.after else LastAfter(allocations[..|allocations| - 1], window)
  }

  /** Everything ever granted against a window. */
  function Granted(allocations: seq<Allocation>, window: nat): int {
    if allocations == [] then 0
    else
      var last := allocations[|allocations| - 1];
      Granted(allocations[..|allocations| - 1], window) + if last.window == window then last.cost else 0
  }

  predicate RowSound(ws: seq<Window>, allocations: seq<Allocation>, k: nat)
    requires k < |allocations|
  {
    var a := allocations[k];
    && a.window < |ws|
    && a.cost >= 0
    && a.after == a.before + a.cost
    && a.before >= LastAfter(allocations[..k], a.window)
    && a.after <= ws[a.window].limit
  }

  predicate WindowSound(ws: seq<Window>, allocations: seq<Allocation>, i: nat)
    requires i < |ws|
  {
    && ws[i].start < ws[i].end
    && 0 < ws[i].limit
    && 0 <= ws[i].observed
    && ws[i].used == LastAfter(allocations, i)
  }

  /** Windows and ledger agree, and every row chains onto the one before it. */
  ghost predicate LedgerSound(ws: seq<Window>, allocations: seq<Allocation>) {
    && (forall i :: 0 <= i < |ws| ==> WindowSound(ws, allocations, i))
    && (forall k :: 0 <= k < |allocations| ==> RowSound(ws, allocations, k))
  }

  /** No refunds: what was granted never exceeds what the window counts as used, which starts at 0. */
  lemma {:induction false} GrantedCovered(ws: seq<Window>, allocations: seq<Allocation>, window: nat)
    requires forall k :: 0 <= k < |allocations| ==> RowSound(ws, allocations, k)
    ensures 0 <= Granted(allocations, window) <= LastAfter(allocations, window)
  {
    if allocations != [] {
      var n := |allocations| - 1;
      var init := allocations[..n];
      forall k | 0 <= k < n ensures RowSound(ws, init, k) {
        assert RowSound(ws, allocations, k);
        assert init[..k] == allocations[..k];
      }
      GrantedCovered(ws, init, window);
      assert RowSound(ws, allocations, n);
      GrantedCovered(ws, init, allocations[n].window);
    }
  }

  /** The last charge stays within the limit, so the amount used does too. */
  lemma {:induction false} UsedWithinLimit(ws: seq<Window>, allocations: seq<Allocation>, i: nat)
    requires i < |ws| && 0 < ws[i].limit
    requires forall k :: 0 <= k < |allocations| ==> RowSound(ws, allocations, k)
    ensures LastAfter(allocations, i) <= ws[i].limit
  {
    if allocations != [] {
      var n := |allocations| - 1;
      var init := allocations[..n];
      forall k | 0 <= k < n ensures RowSound(ws, init, k) {
        assert RowSound(ws, allocations, k);
        assert init[..k] == allocations[..k];
      }
      UsedWithinLimit(ws, init, i);
      assert RowSound(ws, allocations, n);
    }
  }

  /** A row sound for some windows stays sound when rows follow it and limits stay. */
  lemma RowStaysSound(ws: seq<Window>, after: seq<Window>, allocations: seq<Allocation>, more: seq<Allocation>, k: nat)
    requires k < |allocations| && RowSound(ws, allocations, k)
    requires |ws| <= |after| && forall i :: 0 <= i < |ws| ==> after[i].limit == ws[i].limit
    ensures RowSound(after, allocations + more, k)
  {
    assert (allocations + more)[..k] == allocations[..k];
  }

  /** One charge onto the current level keeps the ledger. */
  lemma ChargeKeepsLedger(ws: seq<Window>, allocations: seq<Allocation>, permit: string, c: Charge)
    requires LedgerSound(ws, allocations)
    requires c.window < |ws| && c.cost >= 0 && ws[c.window].used <= c.before && c.After() <= ws[c.window].limit
    ensures LedgerSound(ws[c.window := ws[c.window].(used := c.After())], allocations + [LedgerRow(permit, c)])
  {
    var after := ws[c.window := ws[c.window].(used := c.After())];
    var row := LedgerRow(permit, c);
    var rows := allocations + [row];
    assert rows[..|allocations|] == allocations;
    forall k | 0 <= k < |rows| ensures RowSound(after, rows, k) {
      if k < |allocations| {
        RowStaysSound(ws, after, allocations, [row], k);
      } else {
        assert WindowSound(ws, allocations, c.window);
      }
    }
    forall i | 0 <= i < |after| ensures WindowSound(after, rows, i) {
      assert WindowSound(ws, allocations, i);
    }
  }

  /** A whole vector of distinct planned charges keeps the ledger. */
  lemma {:induction false} VectorKeepsLedger(ws: seq<Window>, allocations: seq<Allocation>, permit: string,
                                             charges: seq<Charge>)
    requires LedgerSound(ws, allocations) && ChargesWithin(charges, ws) && DistinctWindows(charges)
    requires forall k :: 0 <= k < |charges| ==>
      var c := charges[k]; c.cost >= 0 && ws[c.window].used <= c.before && c.After() <= ws[c.window].limit
    ensures LedgerSound(ChargeAll(ws, charges), allocations + LedgerRows(permit, charges))
  {
    if charges == [] {
      assert allocations + LedgerRows(permit, charges) == allocations;
    } else {
      var n := |charges| - 1;
      var init := charges[..n];
      var c := charges[n];
      VectorKeepsLedger(ws, allocations, permit, init);
      ChargeAllAt(ws, init, c.window);
      ChargeKeepsLedger(ChargeAll(ws, init), allocations + LedgerRows(permit, init), permit, c);
      assert allocations + LedgerRows(permit, charges)
        == allocations + LedgerRows(permit, init) + [LedgerRow(permit, c)];
    }
  }

  lemma GrantKeepsLedger(s: State, req: ReserveRequest, leaseClock: Time, now: Time)
    requires LedgerSound(s.windows, s.allocations) && WritesGrant(s, req, leaseClock, now)
    ensures var after := Reserve(s, req, leaseClock, now).state; LedgerSound(after.windows, after.allocations)
  {
    ReserveAllOrNothing(s, req, leaseClock, now);
    var items := SelectVector(s.policies.rows, req, now).value;
    forall k | 0 <= k < |items|
      ensures var c := Planned(s, req, now)[k];
              c.cost >= 0 && s.windows[c.window].used <= c.before && c.After() <= s.windows[c.window].limit
    {
      PlanSound(s.windows, req.envelope.authority, items, now, k);
    }
    VectorKeepsLedger(s.windows, s.allocations, req.permit, Planned(s, req, now));
  }

  lemma RaiseKeepsLedger(ws: seq<Window>, after: seq<Window>, allocations: seq<Allocation>)
    requires LedgerSound(ws, allocations) && AllOnlyRaised(ws, after)
    ensures LedgerSound(after, allocations)
  {
    forall i | 0 <= i < |after| ensures WindowSound(after, allocations, i) {
      assert WindowSound(ws, allocations, i) && OnlyRaised(ws[i], after[i]);
    }
    forall k | 0 <= k < |allocations| ensures RowSound(after, allocations, k) {
      assert RowSound(ws, allocations, k);
      assert OnlyRaised(ws[allocations[k].window], after[allocations[k].window]);
    }
  }

  lemma {:induction false} LastAfterOfNone(ws: seq<Window>, allocations: seq<Allocation>, window: nat)
    requires forall k :: 0 <= k < |allocations| ==> allocations[k].window != window
    ensures LastAfter(allocations, window) == 0
  {
    if allocations != [] {
      LastAfterOfNone(ws, allocations[..|allocations| - 1], window);
    }
  }

  lemma OpenKeepsLedger(ws: seq<Window>, allocations: seq<Allocation>, w: Window)
    requires LedgerSound(ws, allocations)
    requires w.start < w.end && 0 < w.limit && w.observed == 0 && w.used == 0
    ensures LedgerSound(ws + [w], allocations)
  {
    var after := ws + [w];
    forall k | 0 <= k < |allocations| ensures RowSound(after, allocations, k) {
      assert RowSound(ws, allocations, k);
    }
    forall k | 0 <= k < |allocations| ensures allocations[k].window != |ws| {
      assert RowSound(ws, allocations, k);
    }
    LastAfterOfNone(ws, allocations, |ws|);
    forall i | 0 <= i < |after| ensures WindowSound(after, allocations, i) {
      if i < |ws| {
        assert WindowSound(ws, allocations, i);
      }
    }
  }

  /** Every step of the authority keeps the ledger. */
  lemma StepKeepsLedger(s: State, step: Step)
    requires LedgerSound(s.windows, s.allocations)
    ensures var after := Next(s, step).state; LedgerSound(after.windows, after.allocations)
  {
    match step
    case AcquireStep(_, _, _, _) =>
    case ReserveStep(req, leaseClock, now) =>
      ReserveAllOrNothing(s, req, leaseClock, now);
      if WritesGrant(s, req, leaseClock, now) {
        GrantKeepsLedger(s, req, leaseClock, now);
      }
    case ConsumeStep(_, _) =>
    case RecordStep(m, now) =>
      RecordFrame(s, m, now);
      RaiseKeepsLedger(s.windows, Record(s, m, now).state.windows, s.allocations);
    case OpenWindowStep(key, start, end, limit, blockedUntil) =>
      if Next(s, step).reply.Done? {
        OpenKeepsLedger(s.windows, s.allocations, Window(key, start, end, 0, 0, limit, blockedUntil));
      }
    case InstallPolicyStep(_, _) =>
  }
}
