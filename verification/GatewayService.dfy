/**
 The send pipeline as it runs: one gateway object with its failure latch, talking to the database
 object.  Every call is shown to be a run of the host's small steps, with other database users
 acting in between.
 */
module GatewayService {
  import opened RateTables
  import opened RateAuthority
  import opened RateDatabase
  import opened EgressHost
  import opened EgressLaws
  import opened PermitLaws
  import opened JournalLaws
  import opened EgressAnswers
  import opened OutcomeLaws

  datatype CallResult =
    | DeniedBeforeConsume
    | ConsumeRefused
    | NotSentAfterConsume
    | SendUnknown
    | SendDefinite
    | AllocatorUnavailable
    | AllocatorResponseInvalid

  /** One try at journaling: what other users do first, and how the attempt goes. */
  datatype Attempt = Attempt(meanwhile: seq<Step>, delivery: Delivery, dbNow: Time)

  /** Everything a call meets from outside: clocks, fresh identifiers, lost messages, other users. */
  datatype Weather = Weather(
    clock: Time, dbNow: Time, exchange: Exchange, messageId: string, refusalStamp: Stamp,
    beforeSend: seq<Step>, sendClock: Time, end: TransportEnd, sendStamp: Stamp,
    attempts: seq<Attempt>)

  predicate LeavesAlone(steps: seq<Step>, id: string) {
    forall k :: 0 <= k < |steps| && steps[k].RecordStep? && steps[k].message.Message? ==> steps[k].message.id != id
  }

  /** Nobody else uses the call's own identifiers. */
  predicate OwnIds(w: Weather) {
    && |w.attempts| == JOURNAL_TRIES
    && LeavesAlone(w.beforeSend, w.sendStamp.id)
    && (forall k :: 0 <= k < |w.attempts| ==>
          LeavesAlone(w.attempts[k].meanwhile, w.refusalStamp.id)
            && LeavesAlone(w.attempts[k].meanwhile, w.sendStamp.id))
  }

  /** The host after another user's step, which takes no identifier a gateway waits under. */
  ghost function OthersAct(h: Host, steps: seq<Step>, k: nat): (after: Host)
    requires k < |steps|
    requires forall g :: g in h.gateways && h.gateways[g].phase.Journaling? && h.gateways[g].phase.document.Message? ==>
               LeavesAlone(steps, h.gateways[g].phase.document.id)
    ensures after == HostNext(h, DatabaseEvent(steps[k]))
    ensures after.gateways == h.gateways && after.wire == h.wire && h.db.outcomes <= after.db.outcomes
    ensures forall id :: id !in h.db.receipts.rows && LeavesAlone(steps, id) ==> id !in after.db.receipts.rows
  {
    ReceiptsOfOthers(h.db, steps, k);
    OutcomeStep(h.db, steps[k]);
    h.(db := Next(h.db, steps[k]).state)
  }

  lemma ReceiptsOfOthers(s: State, steps: seq<Step>, k: nat)
    requires k < |steps|
    ensures forall id :: id !in s.receipts.rows && LeavesAlone(steps, id) ==>
      id !in Next(s, steps[k]).state.receipts.rows
  {
    forall id | id !in s.receipts.rows && LeavesAlone(steps, id) ensures id !in Next(s, steps[k]).state.receipts.rows {
      if id in Next(s, steps[k]).state.receipts.rows {
        NewReceipts(s, steps[k], id);
      }
    }
  }

  /** The database holds an outcome row for this permit with this code. */
  ghost predicate RowSays(db: State, permit: string, outcome: OutcomeCode) {
    exists i :: 0 <= i < |db.outcomes| && db.outcomes[i].permit == permit && db.outcomes[i].outcome == outcome
  }

  /** The report is one of an outcome, and it has its row if it has a receipt. */
  ghost predicate Reportable(db: State, d: GatewayMessage) {
    && d.Message? && d.kind.SendOutcome? && d.permit.Some? && d.outcome.Some?
    && (d.id in db.receipts.rows ==> RowSays(db, d.permit.value, d.outcome.value))
  }

  lemma RowStays(db: State, after: State, permit: string, outcome: OutcomeCode)
    requires db.outcomes <= after.outcomes && RowSays(db, permit, outcome)
    ensures RowSays(after, permit, outcome)
  {
    var i :| 0 <= i < |db.outcomes| && db.outcomes[i].permit == permit && db.outcomes[i].outcome == outcome;
    assert after.outcomes[i] == db.outcomes[i];
  }

  lemma RecordFiles(db: State, d: GatewayMessage, now: Time)
    requires Reportable(db, d)
    ensures var o := Record(db, d, now);
      Reportable(o.state, d) && (o.reply.Recorded? ==> RowSays(o.state, d.permit.value, d.outcome.value))
  {
    var o := Record(db, d, now);
    RecordAllOrNothing(db, d, now);
    if o.reply == Recorded(true) {
      RecordAppends(db, d, now);
      assert o.state.outcomes[|db.outcomes|].permit == d.permit.value;
    }
  }

  /** A notify, by the database state and reply it produced. */
  lemma NotifyShape(h: Host, g: string, document: GatewayMessage, delivery: Delivery, dbNow: Time)
    requires g in h.gateways && h.gateways[g].phase.Journaling? && h.gateways[g].phase.document == document
    ensures HostNext(h, Notify(g, delivery, dbNow)) ==
      if delivery.Undelivered? then Put(h, g, AfterAttempt(h.gateways[g], false))
      else
        var o := Next(h.db, RecordStep(document, dbNow));
        Put(h.(db := o.state), g, AfterAttempt(h.gateways[g], delivery.Acknowledged? && o.reply.Recorded?))
  {
  }

  /** A submission, by the database state and reply it produced. */
  lemma SubmitShape(h: Host, g: string, m: SendMessage, w: Weather)
    requires g in h.gateways && h.gateways[g].phase.Idle? && NotPending(h.gateways, w.refusalStamp.id)
    requires w.refusalStamp.id !in h.db.receipts.rows
    ensures var gw := h.gateways[g];
      var after := HostNext(h, SubmitEvent(g, m, w));
      if !Admits(gw.latched, m, w.clock) || w.exchange.RequestLost? || w.exchange.RolledBack? then after == h
      else
        var req := ConsumeFor(g, m.request, m.binding.value);
        var o := Next(h.db, ConsumeStep(req, w.dbNow));
        if w.exchange.ReplyLost? || !w.exchange.schemaValid then after == h.(db := o.state)
        else
          after == Put(h.(db := o.state), g,
                       AfterAnswer(gw, g, m, Respond(w.exchange.service, m.correlation, w.messageId, req, o.reply),
                                   w.messageId, w.refusalStamp))
  {
  }

  /** The gateway after `k` failed tries. */
  function Tried(gw: Gateway, k: nat): Gateway
    requires gw.phase.Journaling?
  {
    if k < JOURNAL_TRIES then gw.(phase := gw.phase.(tries := k)) else gw.(phase := Idle, latched := true)
  }

  lemma OneMoreTry(gw: Gateway, k: nat)
    requires gw.phase.Journaling? && k < JOURNAL_TRIES
    ensures Tried(gw, k).phase.Journaling? && Tried(gw, k).phase.document == gw.phase.document
    ensures AfterAttempt(Tried(gw, k), false) == Tried(gw, k + 1)
    ensures AfterAttempt(Tried(gw, k), true) == AfterAttempt(gw, true)
  {
  }

  function SubmitEvent(g: string, m: SendMessage, w: Weather): Event {
    EgressHost.Submit(g, m, w.clock, w.dbNow, w.exchange, w.messageId, w.refusalStamp)
  }

  function TransmitEvent(g: string, w: Weather): Event {
    EgressHost.Transmit(g, w.sendClock, w.end, w.sendStamp)
  }

  /** How the consume exchange leaves the call. */
  datatype Verdict = Stop(result: CallResult) | GoAhead(deadline: Time) | ReportNotSent

  /** How the consume exchange has to leave the call: by admission, by what became of it, and by the database's
      answer. */
  ghost function Expected(latched: bool, trusted: string, g: string, db: State, m: SendMessage, w: Weather): Verdict {
    if !Admissible(latched, m, w.clock) then Stop(DeniedBeforeConsume)
    else if w.exchange.RequestLost? || w.exchange.ReplyLost? then Stop(AllocatorUnavailable)
    else if w.exchange.RolledBack? then Stop(ConsumeRefused)
    else if !w.exchange.schemaValid then Stop(AllocatorResponseInvalid)
    else
      var reply := Consume(db, ConsumeFor(g, m.request, m.binding.value), w.dbNow).reply;
      var known := w.exchange.service == trusted;
      if !reply.ConsumeGranted? then Stop(if known then ConsumeRefused else AllocatorResponseInvalid)
      else if known && InTime(reply.deadline, m.request, m.binding.value) then GoAhead(reply.deadline)
      else ReportNotSent
  }

  class GatewaySendApplication {
    const instanceId: string
    const rateInstance: string
    const database: Database
    var outcomeJournalFailed: bool

    constructor (instanceId: string, rateInstance: string, database: Database)
      ensures this.instanceId == instanceId && this.rateInstance == rateInstance && this.database == database
      ensures !outcomeJournalFailed
    {
      this.instanceId, this.rateInstance, this.database := instanceId, rateInstance, database;
      outcomeJournalFailed := false;
    }

    /** `h` is the host as this gateway sees it: the database object and its own record. */
    ghost predicate Sees(h: Host)
      reads this, database
    {
      && LedgerKeys(h.db)
      && h.db == database.View()
      && h.gateways.Keys == {instanceId}
      && h.gateways[instanceId].service == rateInstance
    }

    /** Between calls: idle, and latched exactly when the flag is up. */
    ghost predicate AtRest(h: Host)
      reads this, database
    {
      && Sees(h)
      && h.gateways[instanceId].phase.Idle?
      && h.gateways[instanceId].latched == outcomeJournalFailed
    }

    /** Other users of the database take their turn. */
    method Meanwhile(steps: seq<Step>, ghost h: Host) returns (ghost after: Host, ghost trace: seq<Event>)
      requires Sees(h)
      requires h.gateways[instanceId].phase.Journaling? && h.gateways[instanceId].phase.document.Message? ==>
                 LeavesAlone(steps, h.gateways[instanceId].phase.document.id)
      modifies database
      ensures Sees(after) && after == HostRun(h, trace)
      ensures after.gateways == h.gateways && after.wire == h.wire && h.db.outcomes <= after.db.outcomes
      ensures forall id :: id !in h.db.receipts.rows && LeavesAlone(steps, id) ==> id !in after.db.receipts.rows
    {
      after, trace := h, [];
      for k := 0 to |steps|
        invariant Sees(after) && after == HostRun(h, trace)
        invariant after.gateways == h.gateways && after.wire == h.wire && h.db.outcomes <= after.db.outcomes
        invariant forall id :: id !in h.db.receipts.rows && LeavesAlone(steps, id) ==> id !in after.db.receipts.rows
      {
        ghost var before := after;
        var _ := database.Perform(steps[k]);
        after := OthersAct(before, steps, k);
        RunThenEvent(h, trace, DatabaseEvent(steps[k]));
        trace := trace + [DatabaseEvent(steps[k])];
      }
    }

    /** One notify: it succeeds only if the document was delivered, recorded and acknowledged. */
    method Notify(document: GatewayMessage, delivery: Delivery, dbNow: Time, ghost h: Host)
      returns (ok: bool, ghost after: Host)
      requires Sees(h) && h.gateways[instanceId].phase.Journaling? && h.gateways[instanceId].phase.document == document
      requires Reportable(h.db, document)
      modifies database
      ensures Sees(after) && after == HostNext(h, EgressHost.Notify(instanceId, delivery, dbNow))
      ensures after.gateways[instanceId] == AfterAttempt(h.gateways[instanceId], ok) && after.wire == h.wire
      ensures Reportable(after.db, document)
        && (ok ==> RowSays(after.db, document.permit.value, document.outcome.value))
    {
      RecordFiles(h.db, document, dbNow);
      NotifyShape(h, instanceId, document, delivery, dbNow);
      if delivery.Undelivered? {
        return false, Put(h, instanceId, AfterAttempt(h.gateways[instanceId], false));
      }
      var reply := database.Perform(RecordStep(document, dbNow));
      ok := delivery.Acknowledged? && reply.Recorded?;
      after := Put(h.(db := database.View()), instanceId, AfterAttempt(h.gateways[instanceId], ok));
    }

    /** One try: others act first, then the document goes out once. */
    method Try(document: GatewayMessage, attempt: Attempt, ghost h: Host)
      returns (ok: bool, ghost after: Host, ghost trace: seq<Event>)
      requires Sees(h) && h.gateways[instanceId].phase.Journaling? && h.gateways[instanceId].phase.document == document
      requires Reportable(h.db, document) && LeavesAlone(attempt.meanwhile, document.id)
      modifies database
      ensures Sees(after) && after == HostRun(h, trace)
      ensures after.gateways[instanceId] == AfterAttempt(h.gateways[instanceId], ok) && after.wire == h.wire
      ensures Reportable(after.db, document)
        && (ok ==> RowSays(after.db, document.permit.value, document.outcome.value))
    {
      ghost var quiet: Host;
      quiet, trace := Meanwhile(attempt.meanwhile, h);
      if RowSays(h.db, document.permit.value, document.outcome.value) {
        RowStays(h.db, quiet.db, document.permit.value, document.outcome.value);
      }
      ok, after := Notify(document, attempt.delivery, attempt.dbNow, quiet);
      RunThenEvent(h, trace, EgressHost.Notify(instanceId, attempt.delivery, attempt.dbNow));
      trace := trace + [EgressHost.Notify(instanceId, attempt.delivery, attempt.dbNow)];
    }

    /** Three tries to journal the outcome; when all fail the gateway latches shut. */
    method SendOutcome(document: GatewayMessage, attempts: seq<Attempt>, ghost h: Host)
      returns (ok: bool, ghost after: Host, ghost trace: seq<Event>)
      requires Sees(h) && |attempts| == JOURNAL_TRIES
      requires h.gateways[instanceId].phase.Journaling? && h.gateways[instanceId].phase.document == document
      requires h.gateways[instanceId].phase.tries == 0 && !outcomeJournalFailed && !h.gateways[instanceId].latched
      requires Reportable(h.db, document)
      requires forall k :: 0 <= k < |attempts| ==> LeavesAlone(attempts[k].meanwhile, document.id)
      modifies this`outcomeJournalFailed, database
      ensures AtRest(after) && after == HostRun(h, trace) && after.wire == h.wire
      ensures ok <==> !outcomeJournalFailed
      ensures ok ==> after.gateways[instanceId] == AfterAttempt(h.gateways[instanceId], true)
      ensures ok ==> RowSays(after.db, document.permit.value, document.outcome.value)
    {
      ghost var gw := h.gateways[instanceId];
      ghost var more: seq<Event>;
      ok, after, trace := false, h, [];
      for k := 0 to JOURNAL_TRIES
        invariant Sees(after) && after == HostRun(h, trace) && after.wire == h.wire
        invariant !outcomeJournalFailed && Reportable(after.db, document)
        invariant after.gateways[instanceId] == Tried(gw, k)
      {
        ghost var before := trace;
        OneMoreTry(gw, k);
        ok, after, more := Try(document, attempts[k], after);
        trace := before + more;
        assert after == HostRun(h, trace) by {
          RunsCompose(h, before, more);
        }
        if ok {
          return;
        }
      }
      outcomeJournalFailed := true;
      ok := false;
    }

    /** Admission and the consume exchange. */
    method Submit(m: SendMessage, w: Weather, ghost h: Host) returns (verdict: Verdict, ghost after: Host)
      requires AtRest(h) && w.refusalStamp.id !in h.db.receipts.rows
      modifies database
      ensures Sees(after) && after == HostNext(h, SubmitEvent(instanceId, m, w)) && after.wire == h.wire
      ensures outcomeJournalFailed ==> verdict == Stop(DeniedBeforeConsume) && after == h
      ensures verdict.Stop? ==> after.gateways == h.gateways
      ensures verdict.Stop? ==> !verdict.result.SendDefinite? && !verdict.result.SendUnknown?
      ensures !verdict.Stop? ==> m.binding.Some? && !outcomeJournalFailed
      ensures verdict.GoAhead? ==>
        var call := Call(m.request, m.binding.value);
        after.gateways[instanceId] == h.gateways[instanceId].(phase := Ready(call, verdict.deadline))
      ensures verdict.ReportNotSent? ==>
        var call := Call(m.request, m.binding.value);
        var document := OutcomeDocument(instanceId, call, NotSent, w.refusalStamp);
        after.gateways[instanceId] == h.gateways[instanceId].(phase := Journaling(call, document, 0, false))
      ensures after.db.receipts == h.db.receipts
      ensures verdict == Expected(outcomeJournalFailed, rateInstance, instanceId, h.db, m, w)
    {
      SubmitShape(h, instanceId, m, w);
      AdmitsIff(outcomeJournalFailed, m, w.clock);
      after := h;
      if !Admits(outcomeJournalFailed, m, w.clock) {
        return Stop(DeniedBeforeConsume), h;
      }
      var b := m.binding.value;
      if w.exchange.RequestLost? {
        return Stop(AllocatorUnavailable), h;
      }
      if w.exchange.RolledBack? {
        return Stop(ConsumeRefused), h;
      }
      var req := ConsumeFor(instanceId, m.request, b);
      var reply := database.Perform(ConsumeStep(req, w.dbNow));
      after := h.(db := database.View());
      if w.exchange.ReplyLost? {
        return Stop(AllocatorUnavailable), after;
      }
      if !w.exchange.schemaValid {
        return Stop(AllocatorResponseInvalid), after;
      }
      var resp := Respond(w.exchange.service, m.correlation, w.messageId, req, reply);
      EchoAcceptedIff(rateInstance, w.exchange.service, m.correlation, w.messageId, instanceId, m.request, b, reply);
      after := Put(after, instanceId,
        AfterAnswer(h.gateways[instanceId], instanceId, m, resp, w.messageId, w.refusalStamp));
      if !ResponseMatches(resp, rateInstance, m.correlation, w.messageId, m.request, b) {
        verdict := if resp.granted then ReportNotSent else Stop(AllocatorResponseInvalid);
      } else {
        verdict := if resp.granted then GoAhead(resp.deadline) else Stop(ConsumeRefused);
      }
    }

    /** `send_once`: the last checks, then the one transport call. */
    method Transmit(call: Call, deadline: Time, w: Weather, ghost h: Host)
      returns (sent: bool, document: GatewayMessage, ghost after: Host)
      requires Sees(h) && h.gateways[instanceId].phase == Ready(call, deadline) && w.sendStamp.id !in h.db.receipts.rows
      ensures Sees(after) && after == HostNext(h, TransmitEvent(instanceId, w))
      ensures document.Message? && document.id == w.sendStamp.id
      ensures after.gateways[instanceId] == h.gateways[instanceId].(phase := Journaling(call, document, 0, sent),
        sends := if sent then h.gateways[instanceId].sends + [Send(call.binding.permit, false)]
          else h.gateways[instanceId].sends)
      ensures after.wire == h.wire +
        if sent then [WireEvent(instanceId, call.request, call.binding, w.sendClock, deadline, w.end)] else []
      ensures ReportOf(document, instanceId, call, w.sendStamp)
      ensures sent == StillGood(call, deadline, w.sendClock)
      ensures if sent then ReportsEnd(w.end, document.outcome) else document.outcome == Some(NotSent)
    {
      sent := MaySend(call, deadline, w.sendClock);
      document := OutcomeDocument(instanceId, call, if sent then OutcomeOf(w.end) else NotSent, w.sendStamp);
      after := HostNext(h, TransmitEvent(instanceId, w));
    }

    /** Others act, then the request goes out unless a last check fails. */
    method SendOnce(call: Call, deadline: Time, w: Weather, ghost h: Host)
      returns (sent: bool, document: GatewayMessage, ghost after: Host, ghost trace: seq<Event>)
      requires Sees(h) && h.gateways[instanceId].phase == Ready(call, deadline)
      requires w.sendStamp.id !in h.db.receipts.rows && LeavesAlone(w.beforeSend, w.sendStamp.id)
      modifies database
      ensures Sees(after) && after == HostRun(h, trace)
      ensures document.Message? && document.id == w.sendStamp.id
      ensures after.gateways[instanceId] == h.gateways[instanceId].(phase := Journaling(call, document, 0, sent),
        sends := if sent then h.gateways[instanceId].sends + [Send(call.binding.permit, false)]
          else h.gateways[instanceId].sends)
      ensures after.wire == h.wire +
        if sent then [WireEvent(instanceId, call.request, call.binding, w.sendClock, deadline, w.end)] else []
      ensures ReportOf(document, instanceId, call, w.sendStamp) && document.id !in after.db.receipts.rows
      ensures sent == StillGood(call, deadline, w.sendClock)
      ensures if sent then ReportsEnd(w.end, document.outcome) else document.outcome == Some(NotSent)
    {
      ghost var quiet: Host;
      quiet, trace := Meanwhile(w.beforeSend, h);
      sent, document, after := Transmit(call, deadline, w, quiet);
      RunThenEvent(h, trace, TransmitEvent(instanceId, w));
      trace := trace + [TransmitEvent(instanceId, w)];
    }

    /**
     One whole call.  It is a run of the host in which this gateway transports at most once; a latched
     gateway changes nothing, and a call that cannot journal its outcome leaves the latch set.
     */
    method HandleCall(m: SendMessage, w: Weather, ghost h: Host)
      returns (result: CallResult, ghost after: Host, ghost trace: seq<Event>)
      requires AtRest(h) && OwnIds(w)
      requires w.refusalStamp.id !in h.db.receipts.rows && w.sendStamp.id !in h.db.receipts.rows
      modifies this`outcomeJournalFailed, database
      ensures AtRest(after) && after == HostRun(h, trace)
      ensures old(outcomeJournalFailed) ==> result.DeniedBeforeConsume? && after == h
      ensures h.wire <= after.wire && |after.wire| <= |h.wire| + 1
      ensures result.DeniedBeforeConsume? || result.ConsumeRefused? ==> after.wire == h.wire
      ensures result.NotSentAfterConsume? ==> after.wire == h.wire || w.end.RaisedDenial?
      ensures result.SendDefinite? || result.SendUnknown? ==>
        m.binding.Some? && |after.wire| == |h.wire| + 1 && after.wire[|h.wire|].binding == m.binding.value
      ensures outcomeJournalFailed && !old(outcomeJournalFailed) ==> result.AllocatorUnavailable?
      ensures |after.wire| > |h.wire| && result.AllocatorUnavailable? ==> outcomeJournalFailed
      ensures var v := Expected(old(outcomeJournalFailed), rateInstance, instanceId, h.db, m, w);
        && (v.Stop? ==> result == v.result)
        && (!v.Stop? ==>
              var call := Call(m.request, m.binding.value);
              var sent := v.GoAhead? && StillGood(call, v.deadline, w.sendClock);
              && (sent <==> |after.wire| == |h.wire| + 1)
              && (outcomeJournalFailed <==> result.AllocatorUnavailable?)
              && (result.SendDefinite? <==> !outcomeJournalFailed && sent && w.end.Returned?)
              && (result.SendUnknown? <==> !outcomeJournalFailed && sent && w.end.Raised?)
              && (result.NotSentAfterConsume? <==> !outcomeJournalFailed && (!sent || w.end.RaisedDenial?))
              && (result.SendDefinite? ==> RowSays(after.db, call.binding.permit, OutcomeCode.SentDefiniteResult))
              && (result.SendUnknown? ==> RowSays(after.db, call.binding.permit, OutcomeCode.SentUnknown))
              && (result.NotSentAfterConsume? ==> RowSays(after.db, call.binding.permit, OutcomeCode.NotSent)))
    {
      ghost var h1: Host, others: seq<Event>;
      var verdict;
      verdict, h1 := Submit(m, w, h);
      OneEvent(h, SubmitEvent(instanceId, m, w));
      trace := [SubmitEvent(instanceId, m, w)];
      if verdict.Stop? {
        return verdict.result, h1, trace;
      }
      var call := Call(m.request, m.binding.value);
      var document, sent := OutcomeDocument(instanceId, call, NotSent, w.refusalStamp), false;
      DocumentIs(instanceId, call, NotSent, w.refusalStamp);
      if verdict.GoAhead? {
        sent, document, h1, others := SendOnce(call, verdict.deadline, w, h1);
        RunsCompose(h, trace, others);
        trace := trace + others;
      }
      var ok;
      ok, after, others := SendOutcome(document, w.attempts, h1);
      RunsCompose(h, trace, others);
      trace := trace + others;
      if !ok {
        result := AllocatorUnavailable;
      } else if !sent || w.end.RaisedDenial? {
        result := NotSentAfterConsume;
      } else {
        result := if w.end.Returned? then SendDefinite else SendUnknown;
      }
    }
  }
}
