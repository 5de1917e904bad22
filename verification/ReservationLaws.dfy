/**
 When a reservation is granted and what it writes, spelled out over the rows: the gates, the signed
 policy, the window of every item, and the reason of every refusal.
 */
module ReservationLaws {
  import opened RateTables
  import opened RateAuthority
  import opened StepShapes

  // ---------------------------------------------------------------- gates

  ghost predicate LeaseRuns(s: State, epoch: int, clock: Time) {
    s.fencing.epoch == epoch && s.fencing.lease.Some? && clock < s.fencing.lease.value.expires
  }

  /** The requested expiry lies in the next five seconds. */
  ghost predicate ExpiryAcceptable(req: ReserveRequest, now: Time) {
    now < req.expiresAt <= now + 5_000_000
  }

  ghost predicate AuthorityBlocked(s: State, authority: string, now: Time) {
    && authority in s.blocks.rows
    && (s.blocks.rows[authority].until.None? || now < s.blocks.rows[authority].until.value)
  }

  ghost predicate GatesOpen(s: State, req: ReserveRequest, leaseClock: Time, now: Time) {
    && LeaseRuns(s, req.epoch, leaseClock)
    && ExpiryAcceptable(req, now)
    && !AuthorityBlocked(s, req.envelope.authority, now)
  }

  /** No permit is stored under the request key. */
  ghost predicate NewKey(s: State, req: ReserveRequest) {
    req.requestKey !in s.keyIndex.rows || s.keyIndex.rows[req.requestKey] !in s.permits.rows
  }

  // ---------------------------------------------------------------- policy

  /** The policy row of an envelope's endpoint. */
  function RowOf(e: Envelope): PolicyKey {
    PolicyKey(e.authority, e.endpoint, e.catalog)
  }

  /** A signed, contracted policy row covers this endpoint at this time. */
  ghost predicate Covered(policies: map<PolicyKey, Policy>, e: Envelope, now: Time) {
    && RowOf(e) in policies
    && policies[RowOf(e)].signed && policies[RowOf(e)].contracted
    && policies[RowOf(e)].validFrom <= now < policies[RowOf(e)].validUntil
  }

  ghost predicate CallerListed(policies: map<PolicyKey, Policy>, e: Envelope) {
    RowOf(e) in policies && e.service in policies[RowOf(e)].callers
  }

  ghost predicate ClassListed(policies: map<PolicyKey, Policy>, e: Envelope, opClass: string) {
    RowOf(e) in policies && opClass in policies[RowOf(e)].classes && opClass in policies[RowOf(e)].vectors
  }

  /** The policy's cost vector of the class is this nonempty list. */
  ghost predicate VectorIs(policies: map<PolicyKey, Policy>, e: Envelope, opClass: string, items: seq<CostItem>) {
    && RowOf(e) in policies && opClass in policies[RowOf(e)].vectors
    && policies[RowOf(e)].vectors[opClass] == Items(items) && items != []
  }

  /** What the policy allows this request, and why it does not otherwise. */
  lemma PolicyDecides(policies: map<PolicyKey, Policy>, req: ReserveRequest, now: Time)
    ensures var e, selected := req.envelope, SelectVector(policies, req, now);
      && (selected == Failure(RateEndpointUnknown) <==> !Covered(policies, e, now))
      && (selected == Failure(RateCallerNotAllowed) <==> Covered(policies, e, now) && !CallerListed(policies, e))
      && (selected == Failure(RateCausalRoleInvalid) <==>
            Covered(policies, e, now) && CallerListed(policies, e) && !ClassListed(policies, e, req.opClass))
      && (selected.Success? ==>
            && Covered(policies, e, now) && CallerListed(policies, e) && ClassListed(policies, e, req.opClass)
            && VectorIs(policies, e, req.opClass, selected.value))
      && (selected.Failure? ==>
            || selected.error.RateEndpointUnknown? || selected.error.RateCallerNotAllowed?
            || selected.error.RateCausalRoleInvalid? || selected.error.RateAuthorityUnavailable?)
      && (selected == Failure(RateAuthorityUnavailable) <==>
            && Covered(policies, e, now) && CallerListed(policies, e) && ClassListed(policies, e, req.opClass)
            && forall items :: !VectorIs(policies, e, req.opClass, items))
  {
    var e := req.envelope;
    if Covered(policies, e, now) && CallerListed(policies, e) && ClassListed(policies, e, req.opClass) {
      var vector := policies[RowOf(e)].vectors[req.opClass];
      assert vector.Items? && vector.items != [] ==> VectorIs(policies, e, req.opClass, vector.items);
    }
  }

  // ---------------------------------------------------------------- windows

  /** Window `i` is open for the item. */
  ghost predicate OpenFor(ws: seq<Window>, authority: string, item: CostItem, now: Time, i: nat) {
    && i < |ws|
    && ws[i].key.authority == authority && ws[i].key.scope == item.scope
    && ws[i].key.limitType == item.limitType && ws[i].key.interval == item.interval
    && ws[i].start <= now < ws[i].end
  }

  /** Window `i` is the first that is open for the item. */
  ghost predicate Serves(ws: seq<Window>, authority: string, item: CostItem, now: Time, i: nat) {
    OpenFor(ws, authority, item, now, i) && forall j: nat :: j < i ==> !OpenFor(ws, authority, item, now, j)
  }

  ghost predicate WellFormed(item: CostItem) {
    item.cost >= 0 && item.ceiling >= 1
  }

  ghost predicate WindowBlocked(w: Window, now: Time) {
    w.blockedUntil.Some? && now < w.blockedUntil.value
  }

  /** The cost fits on top of both counters, under the hard limit and under the class ceiling. */
  ghost predicate Fits(w: Window, item: CostItem) {
    && w.used + item.cost <= w.limit && w.observed + item.cost <= w.limit
    && w.used + item.cost <= item.ceiling && w.observed + item.cost <= item.ceiling
  }

  ghost predicate ItemPasses(ws: seq<Window>, authority: string, item: CostItem, now: Time) {
    && WellFormed(item)
    && exists i: nat :: Serves(ws, authority, item, now, i) && !WindowBlocked(ws[i], now) && Fits(ws[i], item)
  }

  lemma {:induction false} LookupIsFirst(ws: seq<Window>, authority: string, item: CostItem, now: Time)
    ensures var found := FindWindow(ws, ItemKey(authority, item), now);
      && (found.Some? ==> Serves(ws, authority, item, now, found.value))
      && (found.None? ==> forall i: nat :: !OpenFor(ws, authority, item, now, i))
  {
    if ws != [] {
      var init := ws[..|ws| - 1];
      LookupIsFirst(init, authority, item, now);
      forall i: nat | i < |init|
        ensures OpenFor(ws, authority, item, now, i) <==> OpenFor(init, authority, item, now, i)
      {
        assert ws[i] == init[i];
      }
      forall i: nat ensures OpenFor(ws, authority, item, now, i) && i >= |init| ==> i == |init| {}
    }
  }

  lemma ServesOnce(ws: seq<Window>, authority: string, item: CostItem, now: Time, i: nat, j: nat)
    requires Serves(ws, authority, item, now, i) && Serves(ws, authority, item, now, j)
    ensures i == j
  {
  }

  /** Exactly what judging one item answers. */
  lemma ItemAnswers(ws: seq<Window>, authority: string, item: CostItem, now: Time)
    ensures var r := PlanItem(ws, authority, item, now);
      && (r.Success? <==> ItemPasses(ws, authority, item, now))
      && (r.Success? ==>
            && Serves(ws, authority, item, now, r.value.window) && r.value.cost == item.cost
            && r.value.before >= ws[r.value.window].used && r.value.before >= ws[r.value.window].observed
            && (r.value.before == ws[r.value.window].used || r.value.before == ws[r.value.window].observed))
      && (r == Failure(RateScopeBlocked) <==>
            WellFormed(item) && exists i: nat :: Serves(ws, authority, item, now, i) && WindowBlocked(ws[i], now))
      && (r == Failure(RateClassCeilingExceeded) <==>
            && WellFormed(item)
            && exists i: nat :: Serves(ws, authority, item, now, i) && !WindowBlocked(ws[i], now) && !Fits(ws[i], item))
      && (r == Failure(RateAuthorityUnavailable) <==>
            !WellFormed(item) || forall i: nat :: !OpenFor(ws, authority, item, now, i))
  {
    LookupIsFirst(ws, authority, item, now);
    var found := FindWindow(ws, ItemKey(authority, item), now);
    if found.Some? {
      forall i: nat | Serves(ws, authority, item, now, i) ensures i == found.value {
        ServesOnce(ws, authority, item, now, i, found.value);
      }
    }
  }

  /** A vector passes exactly if each of its items does. */
  lemma {:induction false} VectorPassesIff(ws: seq<Window>, authority: string, items: seq<CostItem>, now: Time)
    ensures Plan(ws, authority, items, now).Success? <==>
      forall k :: 0 <= k < |items| ==> ItemPasses(ws, authority, items[k], now)
  {
    if items != [] {
      var init := items[..|items| - 1];
      VectorPassesIff(ws, authority, init, now);
      PassesIff(ws, authority, items[|items| - 1], now);
      forall k | 0 <= k < |items|
        ensures ItemPasses(ws, authority, items[k], now) <==>
          ItemPasses(ws, authority, if k < |init| then init[k] else items[|items| - 1], now)
      {
      }
      assert forall k :: 0 <= k < |init| ==> init[k] == items[k];
    }
  }

  lemma PassesIff(ws: seq<Window>, authority: string, item: CostItem, now: Time)
    ensures PlanItem(ws, authority, item, now).Success? <==> ItemPasses(ws, authority, item, now)
  {
    ItemAnswers(ws, authority, item, now);
  }

  /** Otherwise the first item that does not pass gives the reason. */
  lemma {:induction false} FirstFailureDecides(ws: seq<Window>, authority: string, items: seq<CostItem>, now: Time,
                                               k: nat)
    requires k < |items| && !ItemPasses(ws, authority, items[k], now)
    requires forall j :: 0 <= j < k ==> ItemPasses(ws, authority, items[j], now)
    ensures PlanItem(ws, authority, items[k], now).Failure?
    ensures Plan(ws, authority, items, now) == Failure(PlanItem(ws, authority, items[k], now).error)
  {
    var init, last := items[..|items| - 1], items[|items| - 1];
    ItemAnswers(ws, authority, items[k], now);
    if k < |init| {
      assert init[k] == items[k] && forall j :: 0 <= j < k ==> init[j] == items[j];
      FirstFailureDecides(ws, authority, init, now, k);
    } else {
      VectorPassesIff(ws, authority, init, now);
    }
  }

  /** No window serves two items. */
  ghost predicate ServedApart(ws: seq<Window>, authority: string, items: seq<CostItem>, now: Time) {
    forall a, b, i: nat :: 0 <= a < b < |items| ==>
      !(Serves(ws, authority, items[a], now, i) && Serves(ws, authority, items[b], now, i))
  }

  lemma DistinctIff(ws: seq<Window>, authority: string, items: seq<CostItem>, now: Time)
    requires Plan(ws, authority, items, now).Success?
    ensures DistinctWindows(Plan(ws, authority, items, now).value) <==> ServedApart(ws, authority, items, now)
  {
    var charges := Plan(ws, authority, items, now).value;
    forall k | 0 <= k < |items| ensures Serves(ws, authority, items[k], now, charges[k].window) {
      PlanSound(ws, authority, items, now, k);
      LookupIsFirst(ws, authority, items[k], now);
    }
    if ServedApart(ws, authority, items, now) {
      forall a, b | 0 <= a < b < |charges| ensures charges[a].window != charges[b].window {
        assert Serves(ws, authority, items[a], now, charges[a].window);
        assert Serves(ws, authority, items[b], now, charges[b].window);
      }
    }
    if DistinctWindows(charges) {
      forall a, b, i: nat | 0 <= a < b < |items| && Serves(ws, authority, items[a], now, i)
        ensures !Serves(ws, authority, items[b], now, i)
      {
        ServesOnce(ws, authority, items[a], now, i, charges[a].window);
        if Serves(ws, authority, items[b], now, i) {
          ServesOnce(ws, authority, items[b], now, i, charges[b].window);
        }
      }
    }
  }

  // ---------------------------------------------------------------- the answer

  /** Policy, windows and identifiers all allow charging this vector. */
  ghost predicate Chargeable(s: State, req: ReserveRequest, items: seq<CostItem>, now: Time) {
    && Covered(s.policies.rows, req.envelope, now)
    && CallerListed(s.policies.rows, req.envelope)
    && ClassListed(s.policies.rows, req.envelope, req.opClass)
    && VectorIs(s.policies.rows, req.envelope, req.opClass, items)
    && (forall k :: 0 <= k < |items| ==> ItemPasses(s.windows, req.envelope.authority, items[k], now))
    && ServedApart(s.windows, req.envelope.authority, items, now)
    && req.nonce !in s.nonces.rows && req.permit !in s.permits.rows
  }

  lemma SelectedIs(policies: map<PolicyKey, Policy>, req: ReserveRequest, items: seq<CostItem>, now: Time)
    ensures SelectVector(policies, req, now) == Success(items) <==>
      && Covered(policies, req.envelope, now) && CallerListed(policies, req.envelope)
      && ClassListed(policies, req.envelope, req.opClass) && VectorIs(policies, req.envelope, req.opClass, items)
  {
  }

  /** A planned vector is charged exactly if its windows are apart and its identifiers are new. */
  lemma PlannedIsGranted(s: State, req: ReserveRequest, items: seq<CostItem>, now: Time)
    requires SelectVector(s.policies.rows, req, now) == Success(items)
    ensures ReserveFresh(s, req, now).reply.ReserveGranted? <==>
      && (forall k :: 0 <= k < |items| ==> ItemPasses(s.windows, req.envelope.authority, items[k], now))
      && ServedApart(s.windows, req.envelope.authority, items, now)
      && req.nonce !in s.nonces.rows && req.permit !in s.permits.rows
  {
    VectorPassesIff(s.windows, req.envelope.authority, items, now);
    if Plan(s.windows, req.envelope.authority, items, now).Success? {
      DistinctIff(s.windows, req.envelope.authority, items, now);
    }
  }

  lemma GrantedIsChargeable(s: State, req: ReserveRequest, now: Time)
    requires ReserveFresh(s, req, now).reply.ReserveGranted?
    ensures SelectVector(s.policies.rows, req, now).Success?
    ensures Chargeable(s, req, SelectVector(s.policies.rows, req, now).value, now)
  {
    var items := SelectVector(s.policies.rows, req, now).value;
    SelectedIs(s.policies.rows, req, items, now);
    PlannedIsGranted(s, req, items, now);
  }

  lemma ChargeableIsGranted(s: State, req: ReserveRequest, items: seq<CostItem>, now: Time)
    requires Chargeable(s, req, items, now)
    ensures ReserveFresh(s, req, now).reply.ReserveGranted?
  {
    SelectedIs(s.policies.rows, req, items, now);
    PlannedIsGranted(s, req, items, now);
  }

  /** A request under a new key is granted exactly if the gates are open and its policy's vector can be charged. */
  lemma ReserveGrantedIff(s: State, req: ReserveRequest, leaseClock: Time, now: Time)
    requires NewKey(s, req)
    ensures Reserve(s, req, leaseClock, now).reply.ReserveGranted? <==>
      GatesOpen(s, req, leaseClock, now) && exists items :: Chargeable(s, req, items, now)
  {
    if ReserveFresh(s, req, now).reply.ReserveGranted? {
      GrantedIsChargeable(s, req, now);
    }
    if items :| Chargeable(s, req, items, now) {
      ChargeableIsGranted(s, req, items, now);
    }
  }

  /** Why a request under a new key is refused. */
  lemma ReserveRefusals(s: State, req: ReserveRequest, leaseClock: Time, now: Time)
    requires NewKey(s, req)
    ensures var reply := Reserve(s, req, leaseClock, now).reply;
      var open, e, policies := GatesOpen(s, req, leaseClock, now), req.envelope, s.policies.rows;
      && (reply == ReserveDenied(RateFencingStale) <==> !LeaseRuns(s, req.epoch, leaseClock))
      && (LeaseRuns(s, req.epoch, leaseClock) && !ExpiryAcceptable(req, now) ==>
        reply == ReserveDenied(RateAuthorityUnavailable))
      && (LeaseRuns(s, req.epoch, leaseClock) && ExpiryAcceptable(req, now) && AuthorityBlocked(s, e.authority, now) ==>
            reply == ReserveDenied(RateScopeBlocked))
      && (reply == ReserveDenied(RateEndpointUnknown) <==> open && !Covered(policies, e, now))
      && (reply == ReserveDenied(RateCallerNotAllowed) <==>
            open && Covered(policies, e, now) && !CallerListed(policies, e))
      && (reply == ReserveDenied(RateCausalRoleInvalid) <==>
            open && Covered(policies, e, now) && CallerListed(policies, e) && !ClassListed(policies, e, req.opClass))
  {
    PolicyDecides(s.policies.rows, req, now);
    PlanReasons(s.windows, req, now, SelectVector(s.policies.rows, req, now));
  }

  /** A reason that judging items gives. */
  ghost predicate JudgesItems(reason: Reason) {
    reason.RateAuthorityUnavailable? || reason.RateScopeBlocked? || reason.RateClassCeilingExceeded?
  }

  lemma {:induction false} PlanReason(ws: seq<Window>, authority: string, items: seq<CostItem>, now: Time)
    ensures var plan := Plan(ws, authority, items, now);
      plan.Failure? ==> JudgesItems(plan.error)
  {
    if items != [] {
      PlanReason(ws, authority, items[..|items| - 1], now);
    }
  }

  lemma PlanReasons(ws: seq<Window>, req: ReserveRequest, now: Time, selected: Result<seq<CostItem>, Reason>)
    ensures selected.Success? ==> var plan := Plan(ws, req.envelope.authority, selected.value, now);
      plan.Failure? ==> JudgesItems(plan.error)
  {
    if selected.Success? {
      PlanReason(ws, req.envelope.authority, selected.value, now);
    }
  }

  /** The gates are open to a new key and the policy gives this vector. */
  ghost predicate VectorGiven(s: State, req: ReserveRequest, leaseClock: Time, now: Time, items: seq<CostItem>) {
    && NewKey(s, req) && GatesOpen(s, req, leaseClock, now)
    && Covered(s.policies.rows, req.envelope, now) && CallerListed(s.policies.rows, req.envelope)
    && ClassListed(s.policies.rows, req.envelope, req.opClass)
    && VectorIs(s.policies.rows, req.envelope, req.opClass, items)
  }

  /** The item is refused for this reason. */
  ghost predicate ItemFails(ws: seq<Window>, authority: string, item: CostItem, now: Time, reason: Reason) {
    || (&& reason == RateAuthorityUnavailable
        && (!WellFormed(item) || forall i: nat :: !OpenFor(ws, authority, item, now, i)))
    || (&& reason == RateScopeBlocked && WellFormed(item)
        && exists i: nat :: Serves(ws, authority, item, now, i) && WindowBlocked(ws[i], now))
    || (&& reason == RateClassCeilingExceeded && WellFormed(item)
        && exists i: nat :: Serves(ws, authority, item, now, i) && !WindowBlocked(ws[i], now) && !Fits(ws[i], item))
  }

  /** Past the policy, the first item that fails gives the reason. */
  lemma ItemRefusals(s: State, req: ReserveRequest, leaseClock: Time, now: Time, items: seq<CostItem>, k: nat,
                     reason: Reason)
    requires VectorGiven(s, req, leaseClock, now, items)
    requires k < |items| && ItemFails(s.windows, req.envelope.authority, items[k], now, reason)
    requires forall j :: 0 <= j < k ==> ItemPasses(s.windows, req.envelope.authority, items[j], now)
    ensures Reserve(s, req, leaseClock, now) == Outcome(s, ReserveDenied(reason))
  {
    SelectedIs(s.policies.rows, req, items, now);
    ItemAnswers(s.windows, req.envelope.authority, items[k], now);
    FirstFailureDecides(s.windows, req.envelope.authority, items, now, k);
  }

  /** Past the items, only a used nonce, a used permit identity or a window named twice is in the way. */
  lemma IdentityRefusals(s: State, req: ReserveRequest, leaseClock: Time, now: Time, items: seq<CostItem>)
    requires VectorGiven(s, req, leaseClock, now, items)
    requires forall j :: 0 <= j < |items| ==> ItemPasses(s.windows, req.envelope.authority, items[j], now)
    ensures var o := Reserve(s, req, leaseClock, now);
      var apart := ServedApart(s.windows, req.envelope.authority, items, now);
      && (o == Outcome(s, ReserveDenied(RateCapabilityReplayed)) <==> req.nonce in s.nonces.rows)
      && (o == Outcome(s, Aborted) <==> req.nonce !in s.nonces.rows && (req.permit in s.permits.rows || !apart))
      && (o.reply.ReserveGranted? <==>
            req.nonce !in s.nonces.rows && req.permit !in s.permits.rows && apart)
  {
    SelectedIs(s.policies.rows, req, items, now);
    VectorPassesIff(s.windows, req.envelope.authority, items, now);
    DistinctIff(s.windows, req.envelope.authority, items, now);
  }

  /** A repeated key is granted again exactly for the same live reservation. */
  lemma RepeatGrantedIff(s: State, req: ReserveRequest, leaseClock: Time, now: Time)
    requires !NewKey(s, req)
    ensures var id := s.keyIndex.rows[req.requestKey];
      var p, o := s.permits.rows[id], Reserve(s, req, leaseClock, now);
      && o.state == s
      && (o.reply.ReserveGranted? <==>
            && GatesOpen(s, req, leaseClock, now)
            && p.state.Reserved? && now < p.expiresAt
            && p.envelope.service == req.envelope.service && p.envelope.instance == req.envelope.instance
            && p.envelope.environment == req.envelope.environment && p.envelope.authority == req.envelope.authority
            && p.envelope.endpoint == req.envelope.endpoint && p.envelope.connection == req.envelope.connection
            && p.envelope.catalog == req.envelope.catalog && p.envelope.canonical == req.envelope.canonical
            && p.envelope.parameter == req.envelope.parameter && p.envelope.wire == req.envelope.wire
            && p.envelope.facts == req.envelope.facts && p.envelope.capability == req.envelope.capability
            && p.envelope.document == req.envelope.document
            && p.opClass == req.opClass && p.nonce == req.nonce && p.epoch == req.epoch)
      && (o.reply.ReserveGranted? ==> o.reply == ReserveGranted(id, p.opClass, p.epoch, p.expiresAt))
      && (GatesOpen(s, req, leaseClock, now) && !o.reply.ReserveGranted? ==>
        o.reply == ReserveDenied(RateCapabilityReplayed))
  {
  }

  /** The identity rows a grant writes, field by field. */
  lemma GrantWrites(s: State, req: ReserveRequest, leaseClock: Time, now: Time)
    requires NewKey(s, req) && Reserve(s, req, leaseClock, now).reply.ReserveGranted?
    ensures var o := Reserve(s, req, leaseClock, now);
      && o.reply == ReserveGranted(req.permit, req.opClass, req.epoch, req.expiresAt)
      && o.state.permits.rows == s.permits.rows[req.permit :=
           Permit(req.requestKey, req.envelope, req.opClass, req.nonce, req.epoch, Reserved, now, req.expiresAt, None,
             None)]
      && o.state.nonces.rows
        == s.nonces.rows[req.nonce := Nonce(req.envelope.capability, Reserved, req.expiresAt, None)]
      && o.state.keyIndex.rows == s.keyIndex.rows[req.requestKey := req.permit]
      && o.state.fencing == s.fencing && o.state.events == s.events && o.state.policies == s.policies
      && o.state.blocks == s.blocks && o.state.outcomes == s.outcomes && o.state.observations == s.observations
  {
    ReserveAllOrNothing(s, req, leaseClock, now);
  }
}
