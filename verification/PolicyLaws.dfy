/**
 Policies over whole runs: every permit was reserved by a caller and for a class its signed policy
 lists, while that policy was valid, and was charged exactly that policy's vector.
 */
module PolicyLaws {
  import opened RateTables
  import opened RateAuthority
  import opened StepShapes
  import opened PermitLaws
  import opened AuthorityRuns
  import opened ReservationLaws

  /** These rows charge the permit these items, in order. */
  ghost predicate RowsCharge(rows: seq<Allocation>, id: string, items: seq<CostItem>) {
    |rows| == |items| && forall k :: 0 <= k < |rows| ==> rows[k].permit == id && rows[k].cost == items[k].cost
  }

  /** The ledger rows from `n` on charge the permit these items, in order. */
  ghost predicate ChargedAs(allocations: seq<Allocation>, id: string, items: seq<CostItem>, n: nat) {
    n + |items| <= |allocations| && RowsCharge(allocations[n..n + |items|], id, items)
  }

  ghost predicate ChargedInFull(s: State, id: string, p: Permit) {
    exists items, n: nat :: VectorIs(s.policies.rows, p.envelope, p.opClass, items)
      && ChargedAs(s.allocations, id, items, n)
  }

  /** A signed policy in force when the permit was reserved lists its caller and class, and its vector was charged. */
  ghost predicate Backed(s: State, id: string, p: Permit) {
    && Covered(s.policies.rows, p.envelope, p.reservedAt)
    && CallerListed(s.policies.rows, p.envelope)
    && ClassListed(s.policies.rows, p.envelope, p.opClass)
    && ChargedInFull(s, id, p)
  }

  ghost predicate AllBacked(s: State) {
    forall id :: id in s.permits.rows ==> Backed(s, id, s.permits.rows[id])
  }

  lemma PoliciesStay(s: State, step: Step)
    ensures RowsKept(s.policies.rows, Next(s, step).state.policies.rows)
  {
    match step
    case ReserveStep(req, leaseClock, now) => ReserveAllOrNothing(s, req, leaseClock, now);
    case RecordStep(m, now) => RecordFrame(s, m, now);
    case _ =>
  }

  lemma BackedStays(s: State, t: State, id: string, p: Permit, q: Permit)
    requires Backed(s, id, p) && RowsKept(s.policies.rows, t.policies.rows) && s.allocations <= t.allocations
    requires q.envelope == p.envelope && q.opClass == p.opClass && q.reservedAt == p.reservedAt
    ensures Backed(t, id, q)
  {
    var items, n: nat :| VectorIs(s.policies.rows, p.envelope, p.opClass, items)
      && ChargedAs(s.allocations, id, items, n);
    assert t.allocations[n..n + |items|] == s.allocations[n..n + |items|];
    assert VectorIs(t.policies.rows, q.envelope, q.opClass, items) && ChargedAs(t.allocations, id, items, n);
  }

  lemma GrantIsBacked(s: State, req: ReserveRequest, leaseClock: Time, now: Time)
    requires WritesGrant(s, req, leaseClock, now)
    ensures Backed(Reserve(s, req, leaseClock, now).state, req.permit, NewPermit(req, now))
  {
    ReserveAllOrNothing(s, req, leaseClock, now);
    var items, charges := SelectVector(s.policies.rows, req, now).value, Planned(s, req, now);
    SelectedIs(s.policies.rows, req, items, now);
    forall k | 0 <= k < |items| ensures charges[k].cost == items[k].cost {
      PlanSound(s.windows, req.envelope.authority, items, now, k);
    }
    var rows := LedgerRows(req.permit, charges);
    assert (s.allocations + rows)[|s.allocations|..|s.allocations| + |items|] == rows;
    assert ChargedAs(s.allocations + rows, req.permit, items, |s.allocations|);
  }

  /** Only a written grant adds a permit. */
  lemma NewPermits(s: State, step: Step, id: string)
    requires PermitInv(s) && id in Next(s, step).state.permits.rows && id !in s.permits.rows
    ensures step.ReserveStep? && WritesGrant(s, step.reserve, step.leaseClock, step.now) && id == step.reserve.permit
    ensures Next(s, step).state.permits.rows[id] == NewPermit(step.reserve, step.now)
  {
    match step
    case ReserveStep(req, leaseClock, now) => ReserveAllOrNothing(s, req, leaseClock, now);
    case ConsumeStep(req, now) =>
      assert req.permit in s.permits.rows ==> Coupled(s, req.permit);
      ConsumeMoves(s, req, now);
    case RecordStep(m, now) => RecordFrame(s, m, now);
    case _ => QuietFrame(s, step);
  }

  lemma StepKeepsBacking(s: State, step: Step)
    requires PermitInv(s) && AllBacked(s)
    ensures AllBacked(Next(s, step).state)
  {
    var t := Next(s, step).state;
    PoliciesStay(s, step);
    StepEvolves(s, step);
    forall id | id in t.permits.rows ensures Backed(t, id, t.permits.rows[id]) {
      if id in s.permits.rows {
        assert PermitMoved(s.permits.rows[id], t.permits.rows[id]);
        BackedStays(s, t, id, s.permits.rows[id], t.permits.rows[id]);
      } else {
        NewPermits(s, step, id);
        GrantIsBacked(s, step.reserve, step.leaseClock, step.now);
      }
    }
  }

  /** In every reachable state each permit is backed by its policy. */
  lemma {:induction false} EveryPermitIsBacked(steps: seq<Step>)
    ensures AllBacked(Run(INITIAL, steps))
  {
    if steps != [] {
      var init := steps[..|steps| - 1];
      EveryPermitIsBacked(init);
      InitialInv();
      RunKeepsInv(INITIAL, init);
      StepKeepsBacking(Run(INITIAL, init), steps[|steps| - 1]);
    }
  }
}
