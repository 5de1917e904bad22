/**
 The gateway journal over whole runs: one receipt per message, one outcome per permit, and only
 from the gateway that consumed it.
 */
module JournalLaws {
  import opened RateTables
  import opened RateAuthority
  import opened StepShapes
  import opened PermitLaws

  /** A permit consumed by a gateway. */
  predicate ConsumedBy(permits: map<string, Permit>, id: string, gateway: string) {
    id in permits && permits[id].state.Consumed? && permits[id].gateway == Some(gateway)
  }

  predicate OutcomeSound(s: State, row: OutcomeRow) {
    && ConsumedBy(s.permits.rows, row.permit, row.gateway)
    && row.message in s.receipts.rows
    && s.receipts.rows[row.message] == Receipt(SendOutcome, row.payload)
  }

  predicate ObservationSound(s: State, row: Observation) {
    && row.message in s.receipts.rows
    && (row.permit.Some? ==> ConsumedBy(s.permits.rows, row.permit.value, row.gateway))
  }

  ghost predicate JournalInv(s: State) {
    && (forall i :: 0 <= i < |s.outcomes| ==> OutcomeSound(s, s.outcomes[i]))
    && (forall i :: 0 <= i < |s.observations| ==> ObservationSound(s, s.observations[i]))
    && (forall i, j :: 0 <= i < j < |s.outcomes| ==> s.outcomes[i].permit != s.outcomes[j].permit)
    && (forall i, j :: 0 <= i < j < |s.outcomes| ==> s.outcomes[i].message != s.outcomes[j].message)
  }

  /** Consumed permits and receipts stay, so the journal stays sound when its rows stay. */
  lemma KeepJournal(s: State, after: State)
    requires JournalInv(s) && after.outcomes == s.outcomes && after.observations == s.observations
    requires after.receipts == s.receipts
    requires forall id :: id in s.permits.rows && s.permits.rows[id].state.Consumed? ==>
               id in after.permits.rows && after.permits.rows[id] == s.permits.rows[id]
    ensures JournalInv(after)
  {
    forall i | 0 <= i < |after.outcomes| ensures OutcomeSound(after, after.outcomes[i]) {
      assert OutcomeSound(s, s.outcomes[i]);
    }
    forall i | 0 <= i < |after.observations| ensures ObservationSound(after, after.observations[i]) {
      assert ObservationSound(s, s.observations[i]);
    }
  }

  /** A message that passes the binding check was sent by the gateway that consumed the permit. */
  lemma BindingMeans(s: State, m: GatewayMessage, now: Time)
    requires PermitInv(s) && m.Message? && MessageDenial(s, m, now).None? && m.permit.Some?
    ensures ConsumedBy(s.permits.rows, m.permit.value, m.gateway)
  {
    assert Coupled(s, m.permit.value);
  }

  /** Anything but a first recording leaves the database exactly as it was. */
  lemma RecordAllOrNothing(s: State, m: GatewayMessage, now: Time)
    ensures Record(s, m, now).reply != Recorded(true) ==> Record(s, m, now).state == s
    ensures Record(s, m, now).reply == Recorded(true) ==>
      && m.Message? && m.id !in s.receipts.rows && m.occurredAt.Some?
      && MessageDenial(s, m, now).None?
      && Record(s, m, now).state.receipts == s.receipts.Put(m.id, Receipt(m.kind, m.payload))
  {
  }

  /** The journal rows a first recording writes. */
  lemma RecordAppends(s: State, m: GatewayMessage, now: Time)
    requires Record(s, m, now).reply == Recorded(true)
    ensures var after := Record(s, m, now).state;
      if m.kind.SendOutcome? then
        && m.permit.Some? && m.outcome.Some? && m.occurredAt.Some?
        && !HasOutcome(s.outcomes, m.permit.value)
        && after.observations == s.observations && after.blocks == s.blocks && after.windows == s.windows
        && after.outcomes ==
             s.outcomes + [OutcomeRow(m.id, m.permit.value, m.gateway, m.outcome.value, m.payload, m.occurredAt.value)]
      else
        && FiledUnder(s, m).Some?
        && after.outcomes == s.outcomes
        && after.observations ==
             s.observations + [Observation(m.id, m.kind, FiledUnder(s, m).value, m.permit, m.gateway, m.epoch,
                                           m.header, m.payload, m.occurredAt.value)]
  {
  }

  /** Receipts only grow, and permits stay: the earlier rows stay sound. */
  lemma AppendKeepsRows(s: State, after: State, id: string)
    requires JournalInv(s) && id !in s.receipts.rows
    requires after.permits == s.permits && after.receipts.rows.Keys == s.receipts.rows.Keys + {id}
    requires forall k :: k in s.receipts.rows ==> after.receipts.rows[k] == s.receipts.rows[k]
    ensures forall i :: 0 <= i < |s.outcomes| ==> OutcomeSound(after, s.outcomes[i]) && s.outcomes[i].message != id
    ensures forall i :: 0 <= i < |s.observations| ==> ObservationSound(after, s.observations[i])
  {
    forall i | 0 <= i < |s.outcomes| ensures OutcomeSound(after, s.outcomes[i]) && s.outcomes[i].message != id {
      assert OutcomeSound(s, s.outcomes[i]);
    }
    forall i | 0 <= i < |s.observations| ensures ObservationSound(after, s.observations[i]) {
      assert ObservationSound(s, s.observations[i]);
    }
  }

  lemma OutcomeRowKeepsJournal(s: State, after: State, row: OutcomeRow)
    requires JournalInv(s) && row.message !in s.receipts.rows && !HasOutcome(s.outcomes, row.permit)
    requires ConsumedBy(s.permits.rows, row.permit, row.gateway)
    requires after.permits == s.permits && after.observations == s.observations
    requires after.receipts == s.receipts.Put(row.message, Receipt(SendOutcome, row.payload))
    requires after.outcomes == s.outcomes + [row]
    ensures JournalInv(after)
  {
    AppendKeepsRows(s, after, row.message);
    forall i | 0 <= i < |s.outcomes| ensures s.outcomes[i].permit != row.permit {}
  }

  lemma ObservationRowKeepsJournal(s: State, after: State, row: Observation, receipt: Receipt)
    requires JournalInv(s) && row.message !in s.receipts.rows
    requires row.permit.Some? ==> ConsumedBy(s.permits.rows, row.permit.value, row.gateway)
    requires after.permits == s.permits && after.outcomes == s.outcomes
    requires after.receipts == s.receipts.Put(row.message, receipt)
    requires after.observations == s.observations + [row]
    ensures JournalInv(after)
  {
    AppendKeepsRows(s, after, row.message);
  }

  lemma RecordKeepsJournal(s: State, m: GatewayMessage, now: Time)
    requires PermitInv(s) && JournalInv(s)
    ensures JournalInv(Record(s, m, now).state)
  {
    RecordAllOrNothing(s, m, now);
    if Record(s, m, now).reply == Recorded(true) {
      var after := Record(s, m, now).state;
      RecordAppends(s, m, now);
      RecordFrame(s, m, now);
      if m.permit.Some? {
        BindingMeans(s, m, now);
      }
      if m.kind.SendOutcome? {
        OutcomeRowKeepsJournal(s, after, after.outcomes[|s.outcomes|]);
      } else {
        ObservationRowKeepsJournal(s, after, after.observations[|s.observations|], Receipt(m.kind, m.payload));
      }
    }
  }

  /** A consume never touches a permit that is already consumed. */
  lemma ConsumeKeepsJournal(s: State, req: ConsumeRequest, now: Time)
    requires PermitInv(s) && JournalInv(s)
    ensures JournalInv(Consume(s, req, now).state)
  {
    if req.permit in s.permits.rows {
      assert Coupled(s, req.permit);
    }
    ConsumeMoves(s, req, now);
    KeepJournal(s, Consume(s, req, now).state);
  }

  lemma ReserveKeepsJournal(s: State, req: ReserveRequest, leaseClock: Time, now: Time)
    requires JournalInv(s)
    ensures JournalInv(Reserve(s, req, leaseClock, now).state)
  {
    ReserveAllOrNothing(s, req, leaseClock, now);
    KeepJournal(s, Reserve(s, req, leaseClock, now).state);
  }

  /** Every step keeps the journal sound. */
  lemma StepKeepsJournal(s: State, step: Step)
    requires PermitInv(s) && JournalInv(s)
    ensures JournalInv(Next(s, step).state)
  {
    match step
    case ReserveStep(req, leaseClock, now) => ReserveKeepsJournal(s, req, leaseClock, now);
    case ConsumeStep(req, now) => ConsumeKeepsJournal(s, req, now);
    case RecordStep(m, now) => RecordKeepsJournal(s, m, now);
    case _ =>
      QuietFrame(s, step);
      KeepJournal(s, Next(s, step).state);
  }

  /** Once a message has its receipt, delivering the same message again changes nothing. */
  lemma RedeliveryIsIdempotent(s: State, m: GatewayMessage, now: Time)
    requires m.Message? && m.id in s.receipts.rows && s.receipts.rows[m.id] == Receipt(m.kind, m.payload)
    requires m.occurredAt.Some? && (m.epoch.Some? ==> m.epoch.value >= 1)
    ensures Record(s, m, now) == Outcome(s, Recorded(false))
  {
  }

  /**
   The first outcome a consumed permit gets is recorded whatever lease is current by then: only the
   permit's own epoch is compared.
   */
  lemma FirstOutcomeIsRecorded(s: State, m: GatewayMessage, now: Time)
    requires PermitInv(s)
    requires m.Message? && m.kind.SendOutcome? && m.occurredAt.Some? && m.id !in s.receipts.rows
    requires m.permit.Some? && ConsumedBy(s.permits.rows, m.permit.value, m.gateway)
    requires m.epoch == Some(s.permits.rows[m.permit.value].epoch)
    requires m.canonical == Some(s.permits.rows[m.permit.value].envelope.canonical)
    requires m.authority.None? || m.authority == Some(s.permits.rows[m.permit.value].envelope.authority)
    requires m.outcome.Some? && !m.outcome.value.OtherOutcome?
    requires !HasOutcome(s.outcomes, m.permit.value)
    ensures Record(s, m, now).reply == Recorded(true)
    ensures HasOutcome(Record(s, m, now).state.outcomes, m.permit.value)
  {
    assert Coupled(s, m.permit.value);
    var after := Record(s, m, now).state;
    assert after.outcomes[|s.outcomes|].permit == m.permit.value;
  }
}
