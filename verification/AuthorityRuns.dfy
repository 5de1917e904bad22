/**
 Whole runs of the rate authority: every state reached from the migrated database by any steps, and
 what any two moments of one run have to do with each other.
 */
module AuthorityRuns {
  import opened RateTables
  import opened RateAuthority
  import opened StepShapes
  import opened FencingLaws
  import opened LedgerLaws
  import opened PermitLaws
  import opened JournalLaws
  import opened ReadingLaws
  import opened BlockLaws

  // ---------------------------------------------------------------- the invariant

  ghost predicate Inv(s: State) {
    && FencingInv(s)
    && LedgerSound(s.windows, s.allocations)
    && PermitInv(s)
    && LedgerKeys(s)
    && JournalInv(s)
    && ReadingInv(s)
  }

  lemma FencingRowOnly(s: State, after: State)
    requires FencingInv(s) && after.fencing == s.fencing && after.events == s.events
    ensures FencingInv(after)
  {
  }

  /** Only acquiring touches the fencing row or its log. */
  lemma OnlyAcquireFences(s: State, step: Step)
    requires !step.AcquireStep?
    ensures Next(s, step).state.fencing == s.fencing && Next(s, step).state.events == s.events
  {
    match step
    case ReserveStep(req, leaseClock, now) => ReserveAllOrNothing(s, req, leaseClock, now);
    case RecordStep(m, now) => RecordFrame(s, m, now);
    case _ =>
  }

  lemma StepKeepsFencing(s: State, step: Step)
    requires FencingInv(s)
    ensures FencingInv(Next(s, step).state)
  {
    if step.AcquireStep? {
      AcquireKeepsFencing(s, step.instance, step.expected, step.ttl, step.now);
    } else {
      OnlyAcquireFences(s, step);
      FencingRowOnly(s, Next(s, step).state);
    }
  }

  lemma LedgerRowsInRange(s: State)
    requires LedgerSound(s.windows, s.allocations)
    ensures forall k :: 0 <= k < |s.allocations| ==> s.allocations[k].window < |s.windows|
  {
    forall k | 0 <= k < |s.allocations| ensures s.allocations[k].window < |s.windows| {
      assert RowSound(s.windows, s.allocations, k);
    }
  }

  lemma StepKeepsInv(s: State, step: Step)
    requires Inv(s)
    ensures Inv(Next(s, step).state)
  {
    LedgerRowsInRange(s);
    StepKeepsFencing(s, step);
    StepKeepsLedger(s, step);
    StepKeepsPermits(s, step);
    StepKeepsLedgerKeys(s, step);
    StepKeepsJournal(s, step);
    StepKeepsReadings(s, step);
  }

  /** The invariant holds in every state any run reaches. */
  lemma {:induction false} RunKeepsInv(s: State, steps: seq<Step>)
    requires Inv(s)
    ensures Inv(Run(s, steps))
  {
    if steps != [] {
      RunKeepsInv(s, steps[..|steps| - 1]);
      StepKeepsInv(Run(s, steps[..|steps| - 1]), steps[|steps| - 1]);
    }
  }

  lemma InitialInv()
    ensures Inv(INITIAL)
  {
  }

  // ---------------------------------------------------------------- evolution

  /** Permits keep what they bind and leave the reserved state at most once. */
  predicate PermitMoved(p: Permit, q: Permit) {
    || q == p
    || (p.state.Reserved? && !q.state.Reserved?
        && q == p.(state := q.state, consumedAt := q.consumedAt, gateway := q.gateway))
  }

  /** Windows keep their identity and limit; neither counter goes down. */
  predicate WindowGrown(w: Window, v: Window) {
    v == w.(used := v.used, observed := v.observed) && w.used <= v.used && w.observed <= v.observed
  }

  ghost predicate WindowsGrown(ws: seq<Window>, vs: seq<Window>) {
    |ws| <= |vs| && forall i :: 0 <= i < |ws| ==> WindowGrown(ws[i], vs[i])
  }

  ghost predicate PermitsMoved(ps: map<string, Permit>, qs: map<string, Permit>) {
    forall id :: id in ps ==> id in qs && PermitMoved(ps[id], qs[id])
  }

  ghost predicate RowsKept<K, V>(m: map<K, V>, n: map<K, V>) {
    forall k :: k in m ==> k in n && n[k] == m[k]
  }

  /** Everything that only ever moves forward. */
  ghost predicate Evolves(s: State, t: State) {
    && s.fencing.epoch <= t.fencing.epoch
    && s.events <= t.events
    && WindowsGrown(s.windows, t.windows)
    && s.allocations <= t.allocations
    && PermitsMoved(s.permits.rows, t.permits.rows)
    && RowsKept(s.keyIndex.rows, t.keyIndex.rows)
    && RowsKept(s.receipts.rows, t.receipts.rows)
    && s.outcomes <= t.outcomes
    && s.observations <= t.observations
    && NoWeaker(s.blocks.rows, t.blocks.rows)
  }

  lemma PrefixTransitive<T>(a: seq<T>, b: seq<T>, c: seq<T>)
    requires a <= b <= c
    ensures a <= c
  {
  }

  lemma EvolvesTransitive(s: State, t: State, u: State)
    requires Evolves(s, t) && Evolves(t, u)
    ensures Evolves(s, u)
  {
    PrefixTransitive(s.events, t.events, u.events);
    PrefixTransitive(s.allocations, t.allocations, u.allocations);
    PrefixTransitive(s.outcomes, t.outcomes, u.outcomes);
    PrefixTransitive(s.observations, t.observations, u.observations);
    forall i | 0 <= i < |s.windows| ensures WindowGrown(s.windows[i], u.windows[i]) {
      assert WindowGrown(s.windows[i], t.windows[i]) && WindowGrown(t.windows[i], u.windows[i]);
    }
  }

  lemma GrantEvolves(s: State, req: ReserveRequest, leaseClock: Time, now: Time)
    requires PermitInv(s) && WritesGrant(s, req, leaseClock, now)
    ensures Evolves(s, Reserve(s, req, leaseClock, now).state)
  {
    ReserveAllOrNothing(s, req, leaseClock, now);
    var charges := Planned(s, req, now);
    var after := Grant(s, req, charges, now);
    forall i | 0 <= i < |s.windows| ensures WindowGrown(s.windows[i], after.windows[i]) {
      ChargeAllAt(s.windows, charges, i);
      if k :| 0 <= k < |charges| && charges[k].window == i {
        PlanSound(s.windows, req.envelope.authority, SelectVector(s.policies.rows, req, now).value, now, k);
      }
    }
  }

  lemma ConsumeEvolves(s: State, req: ConsumeRequest, now: Time)
    requires PermitInv(s)
    ensures Evolves(s, Consume(s, req, now).state)
  {
    if req.permit in s.permits.rows {
      assert Coupled(s, req.permit);
    }
    ConsumeMoves(s, req, now);
  }

  lemma RecordEvolves(s: State, m: GatewayMessage, now: Time)
    ensures Evolves(s, Record(s, m, now).state)
  {
    RecordFrame(s, m, now);
    RecordAllOrNothing(s, m, now);
    RecordStrengthens(s, m, now);
    var after := Record(s, m, now).state;
    forall i | 0 <= i < |s.windows| ensures WindowGrown(s.windows[i], after.windows[i]) {
      assert OnlyRaised(s.windows[i], after.windows[i]);
    }
    if Record(s, m, now).reply == Recorded(true) {
      RecordAppends(s, m, now);
    }
  }

  /** No step of any kind takes anything back. */
  lemma StepEvolves(s: State, step: Step)
    requires PermitInv(s)
    ensures Evolves(s, Next(s, step).state)
  {
    match step
    case ReserveStep(req, leaseClock, now) =>
      ReserveAllOrNothing(s, req, leaseClock, now);
      if WritesGrant(s, req, leaseClock, now) {
        GrantEvolves(s, req, leaseClock, now);
      }
    case ConsumeStep(req, now) => ConsumeEvolves(s, req, now);
    case RecordStep(m, now) => RecordEvolves(s, m, now);
    case _ => QuietFrame(s, step);
  }

  /** Between any two moments of a run, everything has only moved forward. */
  lemma {:induction false} RunEvolves(s: State, steps: seq<Step>, i: nat)
    requires Inv(s) && i <= |steps|
    ensures Evolves(Run(s, steps[..i]), Run(s, steps))
  {
    if i == |steps| {
      assert steps[..i] == steps;
    } else {
      var init := steps[..|steps| - 1];
      assert init[..i] == steps[..i];
      RunEvolves(s, init, i);
      RunKeepsInv(s, init);
      StepEvolves(Run(s, init), steps[|steps| - 1]);
      EvolvesTransitive(Run(s, steps[..i]), Run(s, init), Run(s, steps));
    }
  }
}
