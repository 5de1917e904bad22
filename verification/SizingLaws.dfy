/**
 What sizing means in money, spelled out: how the approved notional follows the leader's, which
 capacity it is held to, what the effective minimum is, and why a request is refused.
 */
module SizingLaws {
  import opened RateTables
  import opened Sizing

  /** The notional the leader's fill stands for. */
  function SourceNotional(r: Request): real {
    r.signal.delta * r.signal.referencePrice * r.leader.multiplier as real
  }

  /** The smaller of the policy's and the exchange's leverage. */
  ghost predicate LeverageIs(policy: AllocationPolicy, rules: TradingRules, leverage: int) {
    && leverage <= policy.maximumLeverage && leverage <= rules.exchangeLeverage
    && (leverage == policy.maximumLeverage || leverage == rules.exchangeLeverage)
  }

  lemma LeverageLaw(policy: AllocationPolicy, rules: TradingRules)
    ensures LeverageIs(policy, rules, Leverage(policy, rules))
  {
  }

  // ---------------------------------------------------------------- capacity

  /** This margin fits the policy's allocation, the configured ceiling, the reserve and the order cap. */
  ghost predicate MarginFits(policy: AllocationPolicy, usage: Usage, margin: real) {
    && usage.totalCommitted + margin <= policy.entryAllocation
    && (usage.configured.Some? ==> usage.totalCommitted + margin <= usage.configured.value)
    && margin + policy.reserve <= (if usage.available.Some? then usage.available.value else usage.equity)
    && margin <= policy.maximumOrderMargin
  }

  /** The binding cap is the least of them: a margin fits all exactly if it fits that one. */
  lemma BindingCapIs(policy: AllocationPolicy, usage: Usage, margin: real)
    ensures margin <= BindingCap(policy, usage).1 <==> MarginFits(policy, usage, margin)
  {
  }

  /** Which cap is named: the least one, the earlier of equals. */
  lemma BindingReasonIs(policy: AllocationPolicy, usage: Usage)
    ensures var total, balance := TotalLeft(policy, usage), BalanceLeft(policy, usage);
      var order := policy.maximumOrderMargin;
      && (BindingCap(policy, usage).0 == TotalMarginCapReached <==> total <= balance && total <= order)
      && (BindingCap(policy, usage).0 == AvailableBalanceReserveReached <==> balance < total && balance <= order)
      && (BindingCap(policy, usage).0 == OrderMarginCapReached <==> order < total && order < balance)
  {
  }

  /** A quantity is affordable exactly if the margin it takes fits. */
  lemma AffordableIff(q: real, price: real, left: real, leverage: int)
    requires price > 0.0 && leverage > 0
    ensures q <= Affordable(left, leverage, price) <==> q * price / leverage as real <= left
  {
    AffordableScalar(q, price, left, leverage as real);
  }

  lemma AffordableScalar(q: real, price: real, left: real, leverage: real)
    requires price > 0.0 && leverage > 0.0
    ensures q <= left * leverage / price <==> q * price / leverage <= left
  {
    DivBound(q * price, left, leverage);
    QuotientBound(q, left * leverage, price);
  }

  /** A bound is below a quotient exactly when the product is below the dividend. */
  lemma QuotientBound(q: real, a: real, c: real)
    requires c > 0.0
    ensures q <= a / c <==> q * c <= a
  {
    DivMul(a, c);
    if q <= a / c {
      MulMonotone(q, a / c, c);
    }
    if q * c <= a {
      MulCancel(q, a / c, c);
    }
  }

  // ---------------------------------------------------------------- the minimum

  /** The effective minimum is the exchange's quantity, or the least step multiple that reaches its notional. */
  lemma EffectiveMinimumIs(rules: TradingRules, price: real)
    requires rules.Valid() && price > 0.0
    ensures var least := EffectiveMinimum(rules, price);
      && least >= rules.minimumQuantity && least * price >= rules.minimumNotional
      && (|| least == rules.minimumQuantity
          || (StepMultiple(least, rules.step)
              && forall n: nat :: rules.minimumNotional <= Steps(n, rules.step) * price ==>
                least <= Steps(n, rules.step)))
  {
    MinimumFacts(rules, price);
    if EffectiveMinimum(rules, price) != rules.minimumQuantity {
      forall n: nat | rules.minimumNotional <= Steps(n, rules.step) * price
        ensures EffectiveMinimum(rules, price) <= Steps(n, rules.step)
      {
        CeilReaches(rules.minimumNotional, price, rules.step, n);
      }
    }
  }

  lemma CeilReaches(notional: real, price: real, step: real, n: nat)
    requires notional > 0.0 && price > 0.0 && step > 0.0 && notional <= Steps(n, step) * price
    ensures CeilToStep(notional / price, step) <= Steps(n, step)
  {
    DivPositive(notional, price);
    DivBound(notional, Steps(n, step), price);
    CeilIsLeast(notional / price, step, n);
  }

  // ---------------------------------------------------------------- following the leader

  /** At least the minimum, of no more notional than the leader's unless it is the minimum itself, within the exchange
      maximum, and with a margin that is left. */
  ghost predicate AllowedAt(least: real, maximum: real, source: real, left: real, leverage: int, price: real, x: real)
    requires leverage > 0
  {
    least <= x && (x * price <= source || x <= least) && x <= maximum && x * price / leverage as real <= left
  }

  lemma AllowedScalar(target: real, least: real, maximum: real, source: real, left: real, leverage: int, price: real,
                      x: real)
    requires price > 0.0 && leverage > 0 && target == source / price
    ensures least <= x && x <= RMin(Desired(target, least, maximum), Affordable(left, leverage, price)) <==>
      AllowedAt(least, maximum, source, left, leverage, price, x)
  {
    QuotientBound(x, source, price);
    AffordableIff(x, price, left, leverage);
  }

  /** The quantity is one that sizing may settle on. */
  ghost predicate Allowed(policy: AllocationPolicy, r: Request, x: real)
    requires policy.Valid() && r.Valid() && r.price > 0.0
  {
    AllowedAt(EffectiveMinimum(r.rules, r.price), r.rules.maximumQuantity, SourceNotional(r),
      BindingCap(policy, r.usage).1, Leverage(policy, r.rules), r.price, x)
  }

  lemma UpperBoundIs(policy: AllocationPolicy, r: Request, x: real)
    requires policy.Valid() && r.Valid() && r.price > 0.0
    ensures EffectiveMinimum(r.rules, r.price) <= x && x <= UpperBound(policy, r) <==> Allowed(policy, r, x)
  {
    AllowedScalar(Target(r), EffectiveMinimum(r.rules, r.price), r.rules.maximumQuantity, SourceNotional(r),
                  BindingCap(policy, r.usage).1, Leverage(policy, r.rules), r.price, x);
  }

  lemma FeasibleIff(policy: AllocationPolicy, r: Request)
    requires policy.Valid() && r.Valid() && r.price > 0.0
    ensures Feasible(policy, r) <==> exists n: nat :: Allowed(policy, r, Steps(n, r.rules.step))
  {
    forall n: nat
      ensures Allowed(policy, r, Steps(n, r.rules.step)) <==>
        EffectiveMinimum(r.rules, r.price) <= Steps(n, r.rules.step) && Steps(n, r.rules.step) <= UpperBound(policy, r)
    {
      UpperBoundIs(policy, r, Steps(n, r.rules.step));
    }
  }

  /** Sizing approves exactly if some step multiple is allowed. */
  lemma ApprovedIffAllowed(policy: AllocationPolicy, r: Request)
    requires policy.Valid() && r.Valid() && EarlyRejection(policy, r).None?
    ensures SizeIncrease(policy, r).Approved? <==> exists n: nat :: Allowed(policy, r, Steps(n, r.rules.step))
  {
    SizingIsExact(policy, r);
    FeasibleIff(policy, r);
  }

  /** The approved quantity is an allowed step multiple. */
  lemma ApprovedAllowed(policy: AllocationPolicy, r: Request)
    requires policy.Valid() && r.Valid() && SizeIncrease(policy, r).Approved?
    ensures r.price > 0.0 && StepMultiple(SizeIncrease(policy, r).quantity, r.rules.step)
    ensures Allowed(policy, r, SizeIncrease(policy, r).quantity)
  {
    ApprovedQuantity(policy, r);
    SizingIsExact(policy, r);
    ApprovedAboveMinimum(policy, r);
    UpperBoundIs(policy, r, SizeIncrease(policy, r).quantity);
  }

  lemma ApprovedAboveMinimum(policy: AllocationPolicy, r: Request)
    requires policy.Valid() && r.Valid() && SizeIncrease(policy, r).Approved? && r.price > 0.0
    ensures EffectiveMinimum(r.rules, r.price) <= SizeIncrease(policy, r).quantity
  {
    ApprovedQuantity(policy, r);
    TargetCore(BindingCap(policy, r.usage), Leverage(policy, r.rules), r.rules, r.price, r.signal.delta, Target(r));
  }

  /** And the greatest one. */
  lemma ApprovedIsGreatestAllowed(policy: AllocationPolicy, r: Request, n: nat)
    requires policy.Valid() && r.Valid() && SizeIncrease(policy, r).Approved? && r.price > 0.0
    requires Allowed(policy, r, Steps(n, r.rules.step))
    ensures Steps(n, r.rules.step) <= SizeIncrease(policy, r).quantity
  {
    ApprovedQuantity(policy, r);
    SizingIsExact(policy, r);
    UpperBoundIs(policy, r, Steps(n, r.rules.step));
  }

  /** The notional is no more than the leader's, or the quantity no more than the minimum. */
  ghost predicate Follows(source: real, least: real, price: real, x: real) {
    x * price <= source || x <= least
  }

  lemma AllowedFollows(least: real, maximum: real, source: real, left: real, leverage: int, price: real, x: real)
    requires leverage > 0 && AllowedAt(least, maximum, source, left, leverage, price, x)
    ensures Follows(source, least, price, x)
  {
  }

  /** In money: an approved notional is the leader's or less, or that of the minimum. */
  lemma ApprovedNotional(policy: AllocationPolicy, r: Request)
    requires policy.Valid() && r.Valid() && SizeIncrease(policy, r).Approved?
    ensures r.price > 0.0
    ensures Follows(SourceNotional(r), EffectiveMinimum(r.rules, r.price), r.price, SizeIncrease(policy, r).quantity)
  {
    ApprovedAllowed(policy, r);
    AllowedFollows(EffectiveMinimum(r.rules, r.price), r.rules.maximumQuantity, SourceNotional(r),
                   BindingCap(policy, r.usage).1, Leverage(policy, r.rules), r.price, SizeIncrease(policy, r).quantity);
  }

  /** Its margin fits every cap. */
  lemma ApprovedMarginFits(policy: AllocationPolicy, r: Request)
    requires policy.Valid() && r.Valid() && SizeIncrease(policy, r).Approved?
    ensures MarginFits(policy, r.usage, SizeIncrease(policy, r).margin)
  {
    ApprovedMargin(policy, r);
    BindingCapIs(policy, r.usage, SizeIncrease(policy, r).margin);
  }

  /** The exchange and the margin leave room for this quantity. */
  ghost predicate RoomFor(maximum: real, left: real, leverage: int, price: real, x: real)
    requires leverage > 0
  {
    x <= maximum && x * price / leverage as real <= left
  }

  ghost predicate Overshoots(source: real, price: real, x: real) {
    source < x * price
  }

  lemma OneMoreCore(least: real, maximum: real, source: real, left: real, leverage: int, price: real, q: real, x: real)
    requires leverage > 0 && least <= q < x && RoomFor(maximum, left, leverage, price, x)
    requires !AllowedAt(least, maximum, source, left, leverage, price, x)
    ensures Overshoots(source, price, x)
  {
  }

  lemma NothingAllowedAbove(policy: AllocationPolicy, r: Request, n: nat)
    requires policy.Valid() && r.Valid() && SizeIncrease(policy, r).Approved? && r.price > 0.0
    requires SizeIncrease(policy, r).quantity < Steps(n, r.rules.step)
    ensures !Allowed(policy, r, Steps(n, r.rules.step))
  {
    ApprovedQuantity(policy, r);
    SizingIsExact(policy, r);
    UpperBoundIs(policy, r, Steps(n, r.rules.step));
  }

  /** Where the exchange and the margin leave room for a greater step multiple, it overshoots the leader's notional. */
  lemma NextStepOvershoots(policy: AllocationPolicy, r: Request, n: nat)
    requires policy.Valid() && r.Valid() && SizeIncrease(policy, r).Approved? && r.price > 0.0
    requires SizeIncrease(policy, r).quantity < Steps(n, r.rules.step)
    requires RoomFor(r.rules.maximumQuantity, BindingCap(policy, r.usage).1, Leverage(policy, r.rules), r.price,
                     Steps(n, r.rules.step))
    ensures Overshoots(SourceNotional(r), r.price, Steps(n, r.rules.step))
  {
    NothingAllowedAbove(policy, r, n);
    ApprovedAboveMinimum(policy, r);
    OneMoreCore(EffectiveMinimum(r.rules, r.price), r.rules.maximumQuantity, SourceNotional(r),
                BindingCap(policy, r.usage).1, Leverage(policy, r.rules), r.price, SizeIncrease(policy, r).quantity,
                Steps(n, r.rules.step));
  }

  /** Raising the leader's notional keeps what was allowed. */
  lemma MoreSourceAllowsMore(least: real, maximum: real, source: real, more: real, left: real, leverage: int,
                             price: real, x: real)
    requires leverage > 0 && source <= more && AllowedAt(least, maximum, source, left, leverage, price, x)
    ensures AllowedAt(least, maximum, more, left, leverage, price, x)
  {
  }

  lemma ScaledNotional(delta: real, reference: real, m: int, n: int)
    requires delta > 0.0 && reference >= 0.0 && m <= n
    ensures delta * reference * m as real <= delta * reference * n as real
  {
    NonNegativeProduct(delta, reference);
    NonNegativeProduct(delta * reference, n as real - m as real);
  }

  lemma NonNegativeProduct(a: real, b: real)
    requires a >= 0.0 && b >= 0.0
    ensures a * b >= 0.0
  {
  }

  lemma NotionalGrows(r: Request, more: Request)
    requires r.Valid() && r.signal.referencePrice >= 0.0 && r.leader.multiplier <= more.leader.multiplier
    requires more.signal == r.signal
    ensures SourceNotional(r) <= SourceNotional(more)
  {
    ScaledNotional(r.signal.delta, r.signal.referencePrice, r.leader.multiplier, more.leader.multiplier);
  }

  lemma StillAllowed(policy: AllocationPolicy, r: Request, more: Request, x: real)
    requires policy.Valid() && r.Valid() && more.Valid() && r.price > 0.0 && Allowed(policy, r, x)
    requires more.price == r.price && more.rules == r.rules && more.usage == r.usage
    requires SourceNotional(r) <= SourceNotional(more)
    ensures Allowed(policy, more, x)
  {
    MoreSourceAllowsMore(EffectiveMinimum(r.rules, r.price), r.rules.maximumQuantity, SourceNotional(r),
      SourceNotional(more), BindingCap(policy, r.usage).1, Leverage(policy, r.rules), r.price, x);
  }

  /** Following the leader with a greater multiplier never turns an approval down or makes it smaller. */
  lemma GreaterMultiplierSizesMore(policy: AllocationPolicy, r: Request, more: Request)
    requires policy.Valid() && r.Valid() && r.signal.referencePrice >= 0.0 && SizeIncrease(policy, r).Approved?
    requires more == r.(leader := r.leader.(multiplier := more.leader.multiplier)) && more.Valid()
    requires r.leader.multiplier <= more.leader.multiplier
    ensures SizeIncrease(policy, more).Approved?
      && SizeIncrease(policy, r).quantity <= SizeIncrease(policy, more).quantity
  {
    ApprovedAllowed(policy, r);
    ApprovedQuantity(policy, r);
    NotionalGrows(r, more);
    StillAllowed(policy, r, more, SizeIncrease(policy, r).quantity);
    var n: nat :| SizeIncrease(policy, r).quantity == Steps(n, r.rules.step);
    MultiplierStep(policy, r, more, n);
  }

  lemma MultiplierStep(policy: AllocationPolicy, r: Request, more: Request, n: nat)
    requires policy.Valid() && r.Valid() && SizeIncrease(policy, r).Approved? && EarlyRejection(policy, r).None?
    requires more == r.(leader := r.leader.(multiplier := more.leader.multiplier)) && more.Valid()
    requires SizeIncrease(policy, r).quantity == Steps(n, r.rules.step)
      && Allowed(policy, more, Steps(n, more.rules.step))
    ensures SizeIncrease(policy, more).Approved? && Steps(n, r.rules.step) <= SizeIncrease(policy, more).quantity
  {
    ApprovedIffAllowed(policy, more);
    ApprovedIsGreatestAllowed(policy, more, n);
  }

  // ---------------------------------------------------------------- refusals

  /** Every refusal with its cause: the early guards, and otherwise the cap that binds. */
  lemma EarlyReasons(policy: AllocationPolicy, r: Request)
    requires policy.Valid() && r.Valid()
    ensures var d := SizeIncrease(policy, r);
      var follows := r.signal.kind.Increase? && r.signal.leader == r.leader.id;
      var stretched := r.usage.symbolCommitted > 0.0
        && (r.rules.currentLeverage > policy.maximumLeverage || r.rules.currentLeverage > r.rules.exchangeLeverage);
      && (d == Rejected(NotAnIncrease) <==> !r.signal.kind.Increase?)
      && (d == Rejected(LeaderMismatch) <==> r.signal.kind.Increase? && r.signal.leader != r.leader.id)
      && (d == Rejected(MarketPriceInvalid) <==> follows && r.price <= 0.0)
      && (d == Rejected(CurrentLeverageAbovePolicy) <==> follows && r.price > 0.0 && stretched)
      && (EarlyRejection(policy, r).None? <==>
            follows && r.price > 0.0 && !stretched && BindingCap(policy, r.usage).1 > 0.0)
      && (follows && r.price > 0.0 && !stretched && !d.Approved? ==> d == Rejected(BindingCap(policy, r.usage).0))
  {
    if EarlyRejection(policy, r).None? {
      LateRejectionsUnreachable(policy, r);
    }
  }
}
