/**
 Permits and capability nonces over whole runs: the two rows move together, so each permit and
 each nonce is consumed at most once.
 */
module PermitLaws {
  import opened RateTables
  import opened RateAuthority
  import opened StepShapes

  /** A permit row and its nonce row agree, and the row obeys the table's own checks. */
  predicate Coupled(s: State, id: string)
    requires id in s.permits.rows
  {
    var p := s.permits.rows[id];
    && p.nonce in s.nonces.rows
    && s.nonces.rows[p.nonce] == Nonce(p.envelope.capability, p.state, p.expiresAt, p.consumedAt)
    && (p.state.Consumed? <==> p.consumedAt.Some?)
    && (p.state.Consumed? <==> p.gateway.Some?)
    && p.reservedAt < p.expiresAt
    && 1 <= p.epoch <= s.fencing.epoch
    && p.requestKey in s.keyIndex.rows
    && s.keyIndex.rows[p.requestKey] == id
  }

  /** UNIQUE(capability_nonce). */
  ghost predicate NoncesUnshared(permits: map<string, Permit>) {
    forall a, b :: a in permits && b in permits && permits[a].nonce == permits[b].nonce ==> a == b
  }

  /** The unique index on request keys is exact. */
  ghost predicate KeysIndexed(permits: map<string, Permit>, keyIndex: map<string, string>) {
    forall key :: key in keyIndex ==> keyIndex[key] in permits && permits[keyIndex[key]].requestKey == key
  }

  ghost predicate AllCoupled(s: State) {
    s.fencing.epoch >= 1 && forall id :: id in s.permits.rows ==> Coupled(s, id)
  }

  ghost predicate PermitInv(s: State) {
    AllCoupled(s) && NoncesUnshared(s.permits.rows) && KeysIndexed(s.permits.rows, s.keyIndex.rows)
  }

  /** Ledger rows belong to permits and charge each window once per permit. */
  ghost predicate LedgerKeys(s: State) {
    && (forall k :: 0 <= k < |s.allocations| ==> s.allocations[k].permit in s.permits.rows)
    && (forall i, j :: 0 <= i < j < |s.allocations| ==>
          s.allocations[i].permit != s.allocations[j].permit || s.allocations[i].window != s.allocations[j].window)
  }

  lemma GrantKeepsCoupling(s: State, req: ReserveRequest, charges: seq<Charge>, now: Time, id: string)
    requires AllCoupled(s) && ChargesWithin(charges, s.windows)
    requires req.permit !in s.permits.rows && req.nonce !in s.nonces.rows && req.requestKey !in s.keyIndex.rows
    requires now < req.expiresAt && req.epoch == s.fencing.epoch
    requires id in Grant(s, req, charges, now).permits.rows
    ensures Coupled(Grant(s, req, charges, now), id)
  {
    if id != req.permit {
      assert Coupled(s, id);
    }
  }

  lemma NewPermitKeepsKeys(permits: map<string, Permit>, keyIndex: map<string, string>, id: string, p: Permit)
    requires NoncesUnshared(permits) && KeysIndexed(permits, keyIndex) && id !in permits
    requires forall other :: other in permits ==> permits[other].nonce != p.nonce
    ensures NoncesUnshared(permits[id := p]) && KeysIndexed(permits[id := p], keyIndex[p.requestKey := id])
  {
  }

  lemma GrantKeepsPermits(s: State, req: ReserveRequest, charges: seq<Charge>, now: Time)
    requires PermitInv(s) && ChargesWithin(charges, s.windows)
    requires req.permit !in s.permits.rows && req.nonce !in s.nonces.rows
    requires req.requestKey !in s.keyIndex.rows
    requires now < req.expiresAt && req.epoch == s.fencing.epoch
    ensures PermitInv(Grant(s, req, charges, now))
  {
    forall id | id in Grant(s, req, charges, now).permits.rows ensures Coupled(Grant(s, req, charges, now), id) {
      GrantKeepsCoupling(s, req, charges, now, id);
    }
    forall id | id in s.permits.rows ensures s.permits.rows[id].nonce != req.nonce {
      assert Coupled(s, id);
    }
    NewPermitKeepsKeys(s.permits.rows, s.keyIndex.rows, req.permit, NewPermit(req, now));
  }

  lemma GrantKeepsLedgerKeys(s: State, req: ReserveRequest, charges: seq<Charge>, now: Time)
    requires LedgerKeys(s) && ChargesWithin(charges, s.windows) && DistinctWindows(charges)
    requires req.permit !in s.permits.rows
    ensures LedgerKeys(Grant(s, req, charges, now))
  {
  }

  /** The permit and its nonce change state together; every other pair is left alone. */
  lemma MoveKeepsCoupling(s: State, after: State, id: string, p: Permit, n: Nonce)
    requires AllCoupled(s) && NoncesUnshared(s.permits.rows) && id in s.permits.rows
    requires after.fencing == s.fencing && after.keyIndex == s.keyIndex
    requires p.nonce == s.permits.rows[id].nonce
    requires after.permits == s.permits.Put(id, p) && after.nonces == s.nonces.Put(p.nonce, n)
    requires Coupled(after, id)
    ensures AllCoupled(after)
  {
    forall other | other in after.permits.rows ensures Coupled(after, other) {
      if other != id {
        assert Coupled(s, other);
        assert s.permits.rows[other].nonce != s.permits.rows[id].nonce;
      }
    }
  }

  lemma MoveKeepsKeys(permits: map<string, Permit>, keyIndex: map<string, string>, id: string, p: Permit)
    requires NoncesUnshared(permits) && KeysIndexed(permits, keyIndex) && id in permits
    requires p.nonce == permits[id].nonce && p.requestKey == permits[id].requestKey
    ensures NoncesUnshared(permits[id := p]) && KeysIndexed(permits[id := p], keyIndex)
  {
  }

  lemma MoveKeepsPermits(s: State, after: State, id: string, p: Permit, n: Nonce)
    requires PermitInv(s) && id in s.permits.rows
    requires after.fencing == s.fencing && after.keyIndex == s.keyIndex
    requires p.nonce == s.permits.rows[id].nonce && p.requestKey == s.permits.rows[id].requestKey
    requires after.permits == s.permits.Put(id, p) && after.nonces == s.nonces.Put(p.nonce, n)
    requires Coupled(after, id)
    ensures PermitInv(after)
  {
    MoveKeepsCoupling(s, after, id, p, n);
    MoveKeepsKeys(s.permits.rows, s.keyIndex.rows, id, p);
  }

  /** What a consume does to a coupled permit: refuse and leave everything, expire both rows, or consume both. */
  lemma ConsumeMoves(s: State, req: ConsumeRequest, now: Time)
    requires req.permit in s.permits.rows ==> Coupled(s, req.permit)
    ensures var o := Consume(s, req, now);
      || o.state == s
      || (&& req.permit in s.permits.rows && s.permits.rows[req.permit].state.Reserved?
          && var p := s.permits.rows[req.permit];
             var moved := if o.reply.ConsumeGranted?
                          then p.(state := Consumed, consumedAt := Some(now), gateway := Some(req.gateway))
                          else p.(state := Expired);
             o.state == s.(permits := s.permits.Put(req.permit, moved),
                           nonces := s.nonces.Put(p.nonce,
                             Nonce(p.envelope.capability, moved.state, p.expiresAt, moved.consumedAt))))
  {
  }

  lemma ConsumeKeepsPermits(s: State, req: ConsumeRequest, now: Time)
    requires PermitInv(s)
    ensures PermitInv(Consume(s, req, now).state)
  {
    ConsumeMoves(s, req, now);
    var after := Consume(s, req, now).state;
    if req.permit in s.permits.rows && after != s {
      var p := after.permits.rows[req.permit];
      assert Coupled(s, req.permit);
      MoveKeepsPermits(s, after, req.permit, p, after.nonces.rows[p.nonce]);
    }
  }

  lemma EpochKeepsPermits(s: State, after: State)
    requires PermitInv(s)
    requires after.permits == s.permits && after.nonces == s.nonces && after.keyIndex == s.keyIndex
    requires s.fencing.epoch <= after.fencing.epoch
    ensures PermitInv(after)
  {
    forall id | id in after.permits.rows ensures Coupled(after, id) {
      assert Coupled(s, id);
    }
  }

  /** Every step of the authority keeps permits and nonces coupled. */
  lemma StepKeepsPermits(s: State, step: Step)
    requires PermitInv(s)
    ensures PermitInv(Next(s, step).state)
  {
    match step
    case ReserveStep(req, leaseClock, now) =>
      ReserveAllOrNothing(s, req, leaseClock, now);
      if WritesGrant(s, req, leaseClock, now) {
        GrantKeepsPermits(s, req, Planned(s, req, now), now);
      }
    case ConsumeStep(req, now) => ConsumeKeepsPermits(s, req, now);
    case RecordStep(m, now) =>
      RecordFrame(s, m, now);
      EpochKeepsPermits(s, Record(s, m, now).state);
    case _ =>
      QuietFrame(s, step);
      EpochKeepsPermits(s, Next(s, step).state);
  }

  lemma StepKeepsLedgerKeys(s: State, step: Step)
    requires LedgerKeys(s)
    ensures LedgerKeys(Next(s, step).state)
  {
    match step
    case ReserveStep(req, leaseClock, now) =>
      ReserveAllOrNothing(s, req, leaseClock, now);
      if WritesGrant(s, req, leaseClock, now) {
        GrantKeepsLedgerKeys(s, req, Planned(s, req, now), now);
      }
    case ConsumeStep(req, now) =>
    case RecordStep(m, now) => RecordFrame(s, m, now);
    case _ => QuietFrame(s, step);
  }

  // ---------------------------------------------------------------- what coupling buys

  /**
   When a consume is granted, exactly: current lease, reserved and unexpired permit, same envelope.
   The nonce adds no further condition, so the "nonce not reserved" refusal cannot happen.
   */
  lemma ConsumeGrantedIff(s: State, req: ConsumeRequest, now: Time)
    requires PermitInv(s)
    ensures Consume(s, req, now).reply.ConsumeGranted? <==>
      && LeaseCurrent(s.fencing, req.epoch, now)
      && req.permit in s.permits.rows
      && s.permits.rows[req.permit].state.Reserved?
      && now < s.permits.rows[req.permit].expiresAt
      && s.permits.rows[req.permit].envelope == req.envelope
    ensures Consume(s, req, now).reply == ConsumeDenied(RateCapabilityInvalidOrReplayed) ==>
      req.permit in s.permits.rows && s.permits.rows[req.permit].envelope.capability != req.envelope.capability
  {
    if req.permit in s.permits.rows {
      assert Coupled(s, req.permit);
    }
  }

  /** A granted consume leaves the permit consumed by that gateway, with a deadline inside its validity. */
  lemma ConsumeGrantedMeans(s: State, req: ConsumeRequest, now: Time)
    requires PermitInv(s) && Consume(s, req, now).reply.ConsumeGranted?
    ensures var o := Consume(s, req, now);
      && req.permit in s.permits.rows && req.permit in o.state.permits.rows
      && o.state.permits.rows[req.permit] ==
           s.permits.rows[req.permit].(state := Consumed, consumedAt := Some(now), gateway := Some(req.gateway))
      && o.state.nonces.rows[s.permits.rows[req.permit].nonce].state.Consumed?
      && now < o.reply.deadline <= now + 50 * MILLISECOND
      && o.reply.deadline <= s.permits.rows[req.permit].expiresAt
      && o.state.windows == s.windows && o.state.allocations == s.allocations
  {
    ConsumeGrantedIff(s, req, now);
    assert Coupled(s, req.permit);
  }

  /** Startup's integrity counts are zero: no nonce is shared and no consumed permit lacks a gateway. */
  lemma IntegrityCountsZero(s: State)
    requires PermitInv(s)
    ensures (set a, b | a in s.permits.rows && b in s.permits.rows && a != b
                        && s.permits.rows[a].nonce == s.permits.rows[b].nonce :: (a, b)) == {}
    ensures (set id | id in s.permits.rows && s.permits.rows[id].state.Consumed? && s.permits.rows[id].gateway.None?)
      == {}
  {
    forall id | id in s.permits.rows && s.permits.rows[id].state.Consumed? ensures s.permits.rows[id].gateway.Some? {
      assert Coupled(s, id);
    }
  }

  // ---------------------------------------------------------------- idempotent reservation

  /**
   A request key that already has a permit never writes anything.  It is granted again, with the
   stored permit, exactly while that permit is reserved, unexpired and bound identically, the lease
   is current, the requested expiry is still acceptable and the authority is not blocked.
   */
  lemma ReuseOfRequestKey(s: State, req: ReserveRequest, leaseClock: Time, now: Time)
    requires PermitInv(s) && req.requestKey in s.keyIndex.rows
    ensures var o := Reserve(s, req, leaseClock, now);
      var id := s.keyIndex.rows[req.requestKey];
      && id in s.permits.rows
      && o.state == s
      && (o.reply.ReserveGranted? <==>
            && SameReservation(s.permits.rows[id], req, now)
            && LeaseCurrent(s.fencing, req.epoch, leaseClock)
            && now < req.expiresAt <= now + 5 * SECOND
            && !Blocked(s.blocks.rows, req.envelope.authority, now))
      && (o.reply.ReserveGranted? ==>
            o.reply == ReserveGranted(id, s.permits.rows[id].opClass, s.permits.rows[id].epoch,
              s.permits.rows[id].expiresAt))
      && (!o.reply.ReserveGranted? ==> o.reply.ReserveDenied?)
  {
    assert s.keyIndex.rows[req.requestKey] in s.permits.rows;
  }
}
