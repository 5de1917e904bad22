/**
 Recorded outcomes over whole runs: as long as only gateways report outcomes, every outcome row says
 what became of its permit's transport call.
 */
module OutcomeLaws {
  import opened RateTables
  import opened RateAuthority
  import opened EgressHost
  import opened EgressLaws
  import opened PermitLaws
  import opened JournalLaws
  import opened EgressTheorems

  /** No other database user reports a send outcome. */
  predicate OnlyGatewaysReport(e: Event) {
    e.DatabaseEvent? && e.step.RecordStep? && e.step.message.Message? ==> !e.step.message.kind.SendOutcome?
  }

  /** The row tells how its permit's call ended, or the permit is spent and will never be sent. */
  ghost predicate RowTrue(h: Host, row: OutcomeRow) {
    ReportedAs(h.wire, row.permit, Some(row.outcome)) || (row.outcome == NotSent && Withheld(h, row.permit))
  }

  ghost predicate RowsTrue(h: Host) {
    forall i :: 0 <= i < |h.db.outcomes| ==> RowTrue(h, h.db.outcomes[i])
  }

  lemma ReportLasts(wire: seq<WireEvent>, longer: seq<WireEvent>, permit: string, outcome: Option<OutcomeCode>)
    requires wire <= longer && ReportedAs(wire, permit, outcome)
    ensures ReportedAs(longer, permit, outcome)
  {
    var k :| 0 <= k < |wire| && wire[k].binding.permit == permit && ReportsEnd(wire[k].end, outcome);
    assert longer[k] == wire[k];
  }

  lemma RowStaysTrue(h: Host, e: Event, row: OutcomeRow)
    requires PermitInv(h.db) && RowTrue(h, row)
    ensures RowTrue(HostNext(h, e), row)
  {
    if ReportedAs(h.wire, row.permit, Some(row.outcome)) {
      WireGrowsByEvent(h, e);
      ReportLasts(h.wire, HostNext(h, e).wire, row.permit, Some(row.outcome));
    } else {
      WithheldEvent(h, e, row.permit);
    }
  }

  /** The row an event adds, if any, is its own gateway's pending report. */
  lemma NewRows(h: Host, e: Event)
    requires OnlyGatewaysReport(e) && Linked(h)
    ensures var t := HostNext(h, e);
      || t.db.outcomes == h.db.outcomes
      || (&& e.Notify? && e.g in h.gateways && h.gateways[e.g].phase.Journaling?
          && |t.db.outcomes| == |h.db.outcomes| + 1 && h.db.outcomes <= t.db.outcomes
          && h.gateways[e.g].phase.document.Message?
          && t.db.outcomes[|h.db.outcomes|].permit == PermitAt(h, e.g)
          && h.gateways[e.g].phase.document.outcome == Some(t.db.outcomes[|h.db.outcomes|].outcome))
  {
    EventIsStep(h, e);
    if StepOf(h, e).Some? {
      OutcomeStep(h.db, StepOf(h, e).value);
      if e.Notify? {
        OneOf(h, e.g);
      }
    }
  }

  lemma OutcomeStep(s: State, step: Step)
    ensures var t := Next(s, step).state;
      || t.outcomes == s.outcomes
      || (&& step.RecordStep? && step.message.Message? && step.message.kind.SendOutcome?
          && step.message.permit.Some? && step.message.outcome.Some?
          && |t.outcomes| == |s.outcomes| + 1 && s.outcomes <= t.outcomes
          && t.outcomes[|s.outcomes|].permit == step.message.permit.value
          && t.outcomes[|s.outcomes|].outcome == step.message.outcome.value)
  {
    match step
    case RecordStep(m, now) =>
      RecordAllOrNothing(s, m, now);
      if Record(s, m, now).reply == Recorded(true) {
        RecordAppends(s, m, now);
      }
    case _ =>
  }

  lemma PendingIsTrue(h: Host, g: string, row: OutcomeRow)
    requires Linked(h) && g in h.gateways && h.gateways[g].phase.Journaling? && h.gateways[g].phase.document.Message?
    requires row.permit == PermitAt(h, g) && h.gateways[g].phase.document.outcome == Some(row.outcome)
    ensures RowTrue(h, row)
  {
    OneOf(h, g);
    if !h.gateways[g].phase.sent {
      UnsentIsWithheld(h, g);
    }
  }

  lemma EventKeepsRowsTrue(h: Host, e: Event)
    requires PermitInv(h.db) && Linked(h) && RowsTrue(h) && OnlyGatewaysReport(e)
    ensures RowsTrue(HostNext(h, e))
  {
    var t := HostNext(h, e);
    NewRows(h, e);
    forall i | 0 <= i < |t.db.outcomes| ensures RowTrue(t, t.db.outcomes[i]) {
      if i == |h.db.outcomes| {
        PendingIsTrue(h, e.g, t.db.outcomes[i]);
      }
      RowStaysTrue(h, e, t.db.outcomes[i]);
    }
  }

  lemma {:induction false} RunKeepsRowsTrue(events: seq<Event>)
    requires forall k :: 0 <= k < |events| ==> OnlyGatewaysReport(events[k])
    ensures RowsTrue(HostRun(INITIAL_HOST, events))
  {
    if events != [] {
      var init := events[..|events| - 1];
      RunKeepsRowsTrue(init);
      HostReachable([]);
      LinkedAfter(INITIAL_HOST, init);
      EventKeepsRowsTrue(HostRun(INITIAL_HOST, init), events[|events| - 1]);
    }
  }

  /** In every run in which only gateways report outcomes, every outcome row says what became of its permit. */
  lemma RecordedOutcomeIsTrue(events: seq<Event>, i: nat)
    requires forall k :: 0 <= k < |events| ==> OnlyGatewaysReport(events[k])
    requires i < |HostRun(INITIAL_HOST, events).db.outcomes|
    ensures var h := HostRun(INITIAL_HOST, events);
      SaysTheTruth(h.wire, h.db.outcomes[i].permit, h.db.outcomes[i].outcome)
  {
    var h := HostRun(INITIAL_HOST, events);
    RunKeepsRowsTrue(events);
    HostReachable([]);
    LinkedAfter(INITIAL_HOST, events);
    assert RowTrue(h, h.db.outcomes[i]);
    if ReportedAs(h.wire, h.db.outcomes[i].permit, Some(h.db.outcomes[i].outcome)) {
      OneEnd(h.wire, h.db.outcomes[i].permit, h.db.outcomes[i].outcome);
    }
  }
}
