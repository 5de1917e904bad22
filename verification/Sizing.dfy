/**
 Sizing of a copied increase: match the source's notional, then clamp to exchange rules and to the
 margin that is left.  Quantities are exact reals.
 */
module Sizing {
  import opened RateTables

  // ---------------------------------------------------------------- inputs

  datatype AllocationPolicy = AllocationPolicy(
    envelope: real, entryAllocation: real, reserve: real,
    defaultLeverage: int, maximumLeverage: int, maximumOrderMargin: real)
  {
    predicate Valid() {
      && envelope > 0.0
      && entryAllocation + reserve == envelope
      && 1 <= defaultLeverage <= maximumLeverage <= 125
      && 0.0 < maximumOrderMargin <= entryAllocation
    }
  }

  datatype LeaderAllocation = LeaderAllocation(id: string, aum: real, weight: real, multiplier: int) {
    predicate Valid() {
      id != "" && aum > 0.0 && 0.0 < weight <= 1.0 && 1 <= multiplier <= 10
    }
  }

  const ENTRY_MARGIN_LIMIT := 120.0

  datatype Usage = Usage(
    equity: real, totalCommitted: real, leaderCommitted: real, symbolCommitted: real,
    available: Option<real>, configured: Option<real>)
  {
    predicate Valid() {
      && equity >= 0.0 && totalCommitted >= 0.0 && leaderCommitted >= 0.0 && symbolCommitted >= 0.0
      && (available.Some? ==> available.value >= 0.0)
      && (configured.Some? ==> 0.0 < configured.value <= ENTRY_MARGIN_LIMIT)
    }
  }

  datatype TradingRules = TradingRules(
    step: real, minimumQuantity: real, maximumQuantity: real, minimumNotional: real,
    exchangeLeverage: int, currentLeverage: int)
  {
    predicate Valid() {
      && step > 0.0 && 0.0 < minimumQuantity <= maximumQuantity && minimumNotional > 0.0
      && 1 <= currentLeverage <= exchangeLeverage <= 125
    }
  }

  datatype Kind = Increase | Reduce

  datatype Signal = Signal(kind: Kind, leader: string, delta: real, referencePrice: real)

  datatype Request = Request(signal: Signal, price: real, leader: LeaderAllocation, usage: Usage, rules: TradingRules) {
    predicate Valid() {
      signal.delta > 0.0 && leader.Valid() && usage.Valid() && rules.Valid()
    }
  }

  // ---------------------------------------------------------------- decision

  datatype SizeReason =
    | NotAnIncrease | LeaderMismatch | MarketPriceInvalid | CurrentLeverageAbovePolicy
    | TotalMarginCapReached | AvailableBalanceReserveReached | OrderMarginCapReached
    | BelowMinimumQuantity | BelowMinimumNotional

  datatype Decision =
    | Approved(quantity: real, notional: real, margin: real, leverage: int, scale: real)
    | Rejected(reason: SizeReason)

  function RMin(a: real, b: real): real {
    if b < a then b else a
  }

  function RMax(a: real, b: real): real {
    if b > a then b else a
  }

  function FloorToStep(value: real, step: real): real
    requires step > 0.0
  {
    if value <= 0.0 then 0.0 else (value / step).Floor as real * step
  }

  function CeilToStep(value: real, step: real): real
    requires step > 0.0
  {
    var floored := FloorToStep(value, step);
    if floored == value then floored else floored + step
  }

  /** The shared ceiling on committed margin. */
  function EntryCapacity(policy: AllocationPolicy, usage: Usage): real {
    if usage.configured.None? then policy.entryAllocation else RMin(policy.entryAllocation, usage.configured.value)
  }

  function Balance(usage: Usage): real {
    if usage.available.None? then usage.equity else usage.available.value
  }

  function TotalLeft(policy: AllocationPolicy, usage: Usage): real {
    EntryCapacity(policy, usage) - usage.totalCommitted
  }

  function BalanceLeft(policy: AllocationPolicy, usage: Usage): real {
    Balance(usage) - policy.reserve
  }

  /** The margin left, and which cap sets it; ties go to the earlier cap. */
  function BindingCap(policy: AllocationPolicy, usage: Usage): (SizeReason, real) {
    var total := TotalLeft(policy, usage);
    var balance := BalanceLeft(policy, usage);
    if total <= balance && total <= policy.maximumOrderMargin then (TotalMarginCapReached, total)
    else if balance <= policy.maximumOrderMargin then (AvailableBalanceReserveReached, balance)
    else (OrderMarginCapReached, policy.maximumOrderMargin)
  }

  function Leverage(policy: AllocationPolicy, rules: TradingRules): int {
    Min(policy.maximumLeverage, rules.exchangeLeverage)
  }

  /** The least quantity the exchange takes at this price. */
  function EffectiveMinimum(rules: TradingRules, price: real): real
    requires rules.Valid() && price > 0.0
  {
    RMax(rules.minimumQuantity, CeilToStep(rules.minimumNotional / price, rules.step))
  }

  function Target(r: Request): real
    requires r.price > 0.0
  {
    r.signal.delta * r.signal.referencePrice * r.leader.multiplier as real / r.price
  }

  /** What the leader's fill asks for, raised to the minimum and capped by the exchange maximum. */
  function Desired(target: real, least: real, maximum: real): real {
    RMin(RMax(target, least), maximum)
  }

  /** The quantity the remaining margin pays for. */
  function Affordable(left: real, leverage: int, price: real): real
    requires price > 0.0
  {
    left * leverage as real / price
  }

  function LocalQuantity(desired: real, affordable: real, step: real): real
    requires step > 0.0
  {
    FloorToStep(RMin(desired, FloorToStep(affordable, step)), step)
  }

  /** The early guards; `None` when sizing proper begins. */
  function EarlyRejection(policy: AllocationPolicy, r: Request): Option<SizeReason> {
    if !r.signal.kind.Increase? then Some(NotAnIncrease)
    else if r.signal.leader != r.leader.id then Some(LeaderMismatch)
    else if r.price <= 0.0 then Some(MarketPriceInvalid)
    else if r.usage.symbolCommitted > 0.0 && r.rules.currentLeverage > Leverage(policy, r.rules) then
      Some(CurrentLeverageAbovePolicy)
    else if BindingCap(policy, r.usage).1 <= 0.0 then Some(BindingCap(policy, r.usage).0)
    else None
  }

  /** The last checks on a rounded quantity. */
  function Judge(cap: (SizeReason, real), leverage: int, rules: TradingRules, least: real, quantity: real,
                 price: real, delta: real)
    : Decision
    requires leverage > 0 && delta > 0.0
  {
    var notional := quantity * price;
    if quantity < least then Rejected(cap.0)
    else if quantity < rules.minimumQuantity then Rejected(BelowMinimumQuantity)
    else if notional < rules.minimumNotional then Rejected(BelowMinimumNotional)
    else if notional / leverage as real > cap.1 then Rejected(cap.0)
    else Approved(quantity, notional, notional / leverage as real, leverage, quantity / delta)
  }

  /** Sizing proper, for a target quantity. */
  function SizeTarget(cap: (SizeReason, real), leverage: int, rules: TradingRules, price: real, delta: real,
                      target: real): Decision
    requires leverage > 0 && delta > 0.0 && rules.Valid() && price > 0.0
  {
    var least := EffectiveMinimum(rules, price);
    var desired := Desired(target, least, rules.maximumQuantity);
    var quantity := LocalQuantity(desired, Affordable(cap.1, leverage, price), rules.step);
    Judge(cap, leverage, rules, least, quantity, price, delta)
  }

  function SizeIncrease(policy: AllocationPolicy, r: Request): Decision
    requires policy.Valid() && r.Valid()
  {
    var early := EarlyRejection(policy, r);
    if early.Some? then Rejected(early.value)
    else SizeTarget(BindingCap(policy, r.usage), Leverage(policy, r.rules), r.rules, r.price, r.signal.delta, Target(r))
  }

  // ---------------------------------------------------------------- steps

  /** `n` steps. */
  function Steps(n: nat, step: real): real {
    n as real * step
  }

  ghost predicate StepMultiple(q: real, step: real) {
    exists n: nat :: q == Steps(n, step)
  }

  /** `q` is the greatest multiple of the step not above `x`. */
  ghost predicate GreatestMultiple(q: real, step: real, x: real) {
    StepMultiple(q, step) && q <= x && forall n: nat :: Steps(n, step) <= x ==> Steps(n, step) <= q
  }

  lemma MulMonotone(a: real, b: real, c: real)
    requires a <= b && c > 0.0
    ensures a * c <= b * c
  {
  }

  lemma MulStrict(a: real, b: real, c: real)
    requires a < b && c > 0.0
    ensures a * c < b * c
  {
  }

  lemma MulCancel(a: real, b: real, c: real)
    requires a * c <= b * c && c > 0.0
    ensures a <= b
  {
  }

  lemma DivMul(a: real, c: real)
    requires c > 0.0
    ensures a / c * c == a
  {
  }

  lemma DivPositive(a: real, c: real)
    requires a > 0.0 && c > 0.0
    ensures a / c > 0.0
  {
  }

  /** A quotient is below a bound exactly when the dividend is below the product. */
  lemma DivBound(a: real, b: real, c: real)
    requires c > 0.0
    ensures a / c <= b <==> a <= b * c
  {
    DivMul(a, c);
    if a / c <= b {
      MulMonotone(a / c, b, c);
    }
    if a <= b * c {
      MulCancel(a / c, b, c);
    }
  }

  lemma {:induction false} StepsOrdered(m: nat, n: nat, step: real)
    requires step > 0.0
    ensures m <= n <==> Steps(m, step) <= Steps(n, step)
    ensures Steps(n + 1, step) == Steps(n, step) + step
  {
    if m <= n {
      MulMonotone(m as real, n as real, step);
    } else {
      assert Steps(m, step) - Steps(n, step) == (m - n) as real * step;
      MulMonotone(1.0, (m - n) as real, step);
    }
  }

  lemma FloorSteps(x: real, step: real) returns (k: nat)
    requires step > 0.0 && x >= 0.0
    ensures FloorToStep(x, step) == Steps(k, step) && Steps(k, step) <= x < Steps(k + 1, step)
  {
    if x == 0.0 {
      k := 0;
    } else {
      DivPositive(x, step);
      k := (x / step).Floor;
      FloorBounds(x, step, x / step, k);
    }
  }

  lemma FloorBounds(x: real, step: real, ratio: real, k: nat)
    requires step > 0.0 && ratio * step == x && k as real <= ratio < (k + 1) as real
    ensures Steps(k, step) <= x < Steps(k + 1, step)
  {
    MulMonotone(k as real, ratio, step);
    MulStrict(ratio, (k + 1) as real, step);
  }

  lemma FloorIsGreatest(x: real, step: real)
    requires step > 0.0 && x >= 0.0
    ensures GreatestMultiple(FloorToStep(x, step), step, x)
  {
    var k := FloorSteps(x, step);
    forall n: nat | Steps(n, step) <= x ensures Steps(n, step) <= FloorToStep(x, step) {
      StepsOrdered(k + 1, n, step);
      StepsOrdered(n, k, step);
    }
  }

  /** Rounding up gives a multiple that is not below. */
  lemma CeilCovers(x: real, step: real)
    requires step > 0.0 && x > 0.0
    ensures StepMultiple(CeilToStep(x, step), step) && x <= CeilToStep(x, step)
  {
    var k := FloorSteps(x, step);
    StepsOrdered(k, k, step);
  }

  /** Rounding twice is rounding once. */
  lemma FloorOfMin(a: real, b: real, step: real)
    requires step > 0.0 && a >= 0.0 && b >= 0.0
    ensures GreatestMultiple(FloorToStep(RMin(a, FloorToStep(b, step)), step), step, RMin(a, b))
  {
    FloorIsGreatest(b, step);
    var k := FloorSteps(b, step);
    StepsOrdered(0, k, step);
    FloorIsGreatest(RMin(a, FloorToStep(b, step)), step);
  }

  // ---------------------------------------------------------------- exactness

  lemma MinimumFacts(rules: TradingRules, price: real)
    requires rules.Valid() && price > 0.0
    ensures 0.0 < rules.minimumQuantity <= EffectiveMinimum(rules, price)
    ensures rules.minimumNotional <= EffectiveMinimum(rules, price) * price
    ensures StepMultiple(CeilToStep(rules.minimumNotional / price, rules.step), rules.step)
  {
    DivPositive(rules.minimumNotional, price);
    CeilCovers(rules.minimumNotional / price, rules.step);
    DivBound(rules.minimumNotional, EffectiveMinimum(rules, price), price);
  }

  lemma PositiveProduct(a: real, b: real)
    requires a > 0.0 && b > 0.0
    ensures a * b > 0.0
  {
  }

  /** A quantity the margin pays for commits no more than that margin. */
  lemma CostWithin(q: real, price: real, left: real, leverage: real)
    requires price > 0.0 && leverage > 0.0 && q <= left * leverage / price
    ensures q * price / leverage <= left
  {
    DivMul(left * leverage, price);
    MulMonotone(q, left * leverage / price, price);
    DivBound(q * price, left, leverage);
  }

  lemma AffordablePositive(left: real, leverage: int, price: real)
    requires left > 0.0 && leverage > 0 && price > 0.0
    ensures Affordable(left, leverage, price) > 0.0
  {
    PositiveProduct(left, leverage as real);
    DivPositive(left * leverage as real, price);
  }

  /** The judgement comes down to the effective minimum alone. */
  ghost predicate Judged(d: Decision, cap: (SizeReason, real), least: real, q: real) {
    && (d.Approved? <==> least <= q)
    && (d.Approved? ==> d.quantity == q && d.margin <= cap.1)
    && (d.Rejected? ==> d.reason == cap.0)
  }

  /** So it does when the cap pays for the quantity. */
  lemma JudgeCore(cap: (SizeReason, real), leverage: int, rules: TradingRules, least: real, q: real, price: real,
                  delta: real)
    requires leverage > 0 && delta > 0.0 && price > 0.0
    requires rules.minimumQuantity <= least && rules.minimumNotional <= least * price
    requires q <= Affordable(cap.1, leverage, price)
    ensures Judged(Judge(cap, leverage, rules, least, q, price, delta), cap, least, q)
  {
    CostWithin(q, price, cap.1, leverage as real);
    if least <= q {
      MulMonotone(least, q, price);
    }
  }

  /** The quantity sizing settles on. */
  function SizedQuantity(left: real, leverage: int, rules: TradingRules, price: real, target: real): real
    requires rules.Valid() && price > 0.0
  {
    LocalQuantity(Desired(target, EffectiveMinimum(rules, price), rules.maximumQuantity),
      Affordable(left, leverage, price), rules.step)
  }

  /** It is the greatest multiple of the step under both bounds. */
  lemma SizedIsGreatest(left: real, leverage: int, rules: TradingRules, price: real, target: real)
    requires left > 0.0 && leverage > 0 && rules.Valid() && price > 0.0
    ensures GreatestMultiple(SizedQuantity(left, leverage, rules, price, target), rules.step,
                             RMin(Desired(target, EffectiveMinimum(rules, price), rules.maximumQuantity),
                               Affordable(left, leverage, price)))
  {
    MinimumFacts(rules, price);
    AffordablePositive(left, leverage, price);
    FloorOfMin(Desired(target, EffectiveMinimum(rules, price), rules.maximumQuantity),
      Affordable(left, leverage, price), rules.step);
  }

  lemma SizedAffordable(left: real, leverage: int, rules: TradingRules, price: real, target: real)
    requires left > 0.0 && leverage > 0 && rules.Valid() && price > 0.0
    ensures SizedQuantity(left, leverage, rules, price, target) <= Affordable(left, leverage, price)
  {
    SizedIsGreatest(left, leverage, rules, price, target);
  }

  /** The effective minimum alone decides. */
  lemma TargetCore(cap: (SizeReason, real), leverage: int, rules: TradingRules, price: real, delta: real, target: real)
    requires cap.1 > 0.0 && leverage > 0 && delta > 0.0 && rules.Valid() && price > 0.0
    ensures Judged(SizeTarget(cap, leverage, rules, price, delta, target), cap, EffectiveMinimum(rules, price),
      SizedQuantity(cap.1, leverage, rules, price, target))
  {
    SizedAffordable(cap.1, leverage, rules, price, target);
    MinimumFacts(rules, price);
    JudgeCore(cap, leverage, rules, EffectiveMinimum(rules, price),
      SizedQuantity(cap.1, leverage, rules, price, target), price, delta);
  }

  /** Past the early guards every rejection is blamed on the binding cap: the last three refusals cannot happen. */
  lemma LateRejectionsUnreachable(policy: AllocationPolicy, r: Request)
    requires policy.Valid() && r.Valid() && EarlyRejection(policy, r).None?
    ensures SizeIncrease(policy, r).Rejected? ==> SizeIncrease(policy, r).reason == BindingCap(policy, r.usage).0
  {
    TargetCore(BindingCap(policy, r.usage), Leverage(policy, r.rules), r.rules, r.price, r.signal.delta, Target(r));
  }

  /** The caller's arm for rejections that name a minimum. */
  predicate MentionsMinimum(d: Decision) {
    d.Rejected? && (d.reason.BelowMinimumQuantity? || d.reason.BelowMinimumNotional?)
  }

  /** No request whatever makes the caller record an ignored minimum. */
  lemma IgnoredMinimumNeverEntered(policy: AllocationPolicy, r: Request)
    requires policy.Valid() && r.Valid()
    ensures !MentionsMinimum(SizeIncrease(policy, r))
  {
    if EarlyRejection(policy, r).None? {
      LateRejectionsUnreachable(policy, r);
    }
  }

  /** Both upper bounds on the quantity: what is asked for and what the margin pays for. */
  function UpperBound(policy: AllocationPolicy, r: Request): real
    requires policy.Valid() && r.Valid() && r.price > 0.0
  {
    RMin(Desired(Target(r), EffectiveMinimum(r.rules, r.price), r.rules.maximumQuantity),
         Affordable(BindingCap(policy, r.usage).1, Leverage(policy, r.rules), r.price))
  }

  /** Some multiple of the step lies between the effective minimum and both upper bounds. */
  ghost predicate Feasible(policy: AllocationPolicy, r: Request)
    requires policy.Valid() && r.Valid() && r.price > 0.0
  {
    exists n: nat :: EffectiveMinimum(r.rules, r.price) <= Steps(n, r.rules.step)
                     && Steps(n, r.rules.step) <= UpperBound(policy, r)
  }

  lemma ExactCore(least: real, q: real, step: real, bound: real)
    requires GreatestMultiple(q, step, bound)
    ensures least <= q <==> exists n: nat :: least <= Steps(n, step) && Steps(n, step) <= bound
  {
    var n: nat :| q == Steps(n, step);
    assert Steps(n, step) <= bound;
  }

  /** Sizing is exact: it approves iff a tradable quantity exists, and then takes the greatest. */
  lemma SizingIsExact(policy: AllocationPolicy, r: Request)
    requires policy.Valid() && r.Valid() && EarlyRejection(policy, r).None?
    ensures SizeIncrease(policy, r).Approved? <==> Feasible(policy, r)
    ensures SizeIncrease(policy, r).Approved? ==>
      GreatestMultiple(SizeIncrease(policy, r).quantity, r.rules.step, UpperBound(policy, r))
  {
    TargetCore(BindingCap(policy, r.usage), Leverage(policy, r.rules), r.rules, r.price, r.signal.delta, Target(r));
    SizedIsGreatest(BindingCap(policy, r.usage).1, Leverage(policy, r.rules), r.rules, r.price, Target(r));
    ExactCore(EffectiveMinimum(r.rules, r.price),
              SizedQuantity(BindingCap(policy, r.usage).1, Leverage(policy, r.rules), r.rules, r.price, Target(r)),
              r.rules.step, UpperBound(policy, r));
  }

  /** Rounding up gives the least multiple that is not below. */
  lemma CeilIsLeast(x: real, step: real, n: nat)
    requires step > 0.0 && x > 0.0
    ensures x <= Steps(n, step) <==> CeilToStep(x, step) <= Steps(n, step)
  {
    CeilCovers(x, step);
    var k := FloorSteps(x, step);
    StepsOrdered(k, k, step);
    StepsOrdered(k + 1, n, step);
    StepsOrdered(n, k, step);
  }

  lemma CeilDecides(least: real, step: real, bound: real)
    requires step > 0.0 && least > 0.0
    ensures CeilToStep(least, step) <= bound <==> exists n: nat :: least <= Steps(n, step) && Steps(n, step) <= bound
  {
    CeilCovers(least, step);
    var k: nat :| CeilToStep(least, step) == Steps(k, step);
    assert least <= Steps(k, step);
    forall n: nat | least <= Steps(n, step) ensures CeilToStep(least, step) <= Steps(n, step) {
      CeilIsLeast(least, step, n);
    }
  }

  /** In closed form: the minimum, rounded up to the step, must fit under both bounds. */
  lemma ApprovedIff(policy: AllocationPolicy, r: Request)
    requires policy.Valid() && r.Valid()
    ensures SizeIncrease(policy, r).Approved? <==>
      EarlyRejection(policy, r).None?
        && CeilToStep(EffectiveMinimum(r.rules, r.price), r.rules.step) <= UpperBound(policy, r)
  {
    if EarlyRejection(policy, r).None? {
      SizingIsExact(policy, r);
      MinimumFacts(r.rules, r.price);
      CeilDecides(EffectiveMinimum(r.rules, r.price), r.rules.step, UpperBound(policy, r));
    }
  }

  lemma AlignedCore(least: real, step: real, bound: real)
    requires StepMultiple(least, step)
    ensures least <= bound <==> exists n: nat :: least <= Steps(n, step) && Steps(n, step) <= bound
  {
    var n: nat :| least == Steps(n, step);
    assert Steps(n, step) <= least;
  }

  /** With a step-aligned minimum inside the range, the only question is whether margin covers the minimum. */
  lemma AlignedSizing(policy: AllocationPolicy, r: Request)
    requires policy.Valid() && r.Valid() && EarlyRejection(policy, r).None?
    requires StepMultiple(r.rules.minimumQuantity, r.rules.step)
    requires EffectiveMinimum(r.rules, r.price) <= r.rules.maximumQuantity
    ensures SizeIncrease(policy, r).Approved? <==>
      EffectiveMinimum(r.rules, r.price) <= Affordable(BindingCap(policy, r.usage).1, Leverage(policy, r.rules),
        r.price)
  {
    SizingIsExact(policy, r);
    MinimumFacts(r.rules, r.price);
    AlignedCore(EffectiveMinimum(r.rules, r.price), r.rules.step, UpperBound(policy, r));
  }

  const PLAIN_POLICY := AllocationPolicy(150.0, 120.0, 30.0, 10, 125, 5.0)

  /** Whole units only, but a minimum of one and a half. */
  const UNALIGNED := Request(
    Signal(Increase, "leader", 1.0, 1.0), 1.0, LeaderAllocation("leader", 1.0, 1.0, 1),
    Usage(100.0, 0.0, 0.0, 0.0, None, None), TradingRules(1.0, 1.5, 100.0, 1.0, 10, 1))

  /** Without alignment a fully affordable minimum is still refused, and blamed on a margin cap. */
  lemma UnalignedMinimumIsRefused()
    ensures PLAIN_POLICY.Valid() && UNALIGNED.Valid() && EarlyRejection(PLAIN_POLICY, UNALIGNED).None?
    ensures EffectiveMinimum(UNALIGNED.rules, UNALIGNED.price) <= Affordable(5.0, 10, UNALIGNED.price)
    ensures SizeIncrease(PLAIN_POLICY, UNALIGNED) == Rejected(OrderMarginCapReached)
  {
    assert CeilToStep(1.0, 1.0) == 1.0;
    assert FloorToStep(50.0, 1.0) == 50.0;
    assert LocalQuantity(1.5, 50.0, 1.0) == FloorToStep(1.5, 1.0) == 1.0;
  }

  // ---------------------------------------------------------------- soundness of an approval

  lemma MarginFacts(q: real, price: real, leverage: real)
    requires q > 0.0 && price > 0.0 && leverage > 0.0
    ensures 0.0 < q * price / leverage && q * price / leverage * leverage == q * price
  {
    PositiveProduct(q, price);
    DivPositive(q * price, leverage);
    DivMul(q * price, leverage);
  }

  /** An approved quantity is a tradable one. */
  lemma ApprovedQuantity(policy: AllocationPolicy, r: Request)
    requires policy.Valid() && r.Valid() && SizeIncrease(policy, r).Approved?
    ensures EarlyRejection(policy, r).None?
    ensures StepMultiple(SizeIncrease(policy, r).quantity, r.rules.step)
    ensures 0.0 < r.rules.minimumQuantity <= SizeIncrease(policy, r).quantity <= r.rules.maximumQuantity
  {
    SizingIsExact(policy, r);
    TargetCore(BindingCap(policy, r.usage), Leverage(policy, r.rules), r.rules, r.price, r.signal.delta, Target(r));
    MinimumFacts(r.rules, r.price);
  }

  /** The reported figures are those of the quantity, and the cap pays for them. */
  ghost predicate Reports(d: Decision, left: real, leverage: int, rules: TradingRules, price: real, delta: real) {
    && d.Approved?
    && d.notional == d.quantity * price && d.notional >= rules.minimumNotional
    && d.leverage == leverage && d.margin * leverage as real == d.notional
    && 0.0 < d.margin <= left
    && d.scale * delta == d.quantity
  }

  lemma JudgeReports(cap: (SizeReason, real), leverage: int, rules: TradingRules, least: real, q: real, price: real,
                     delta: real)
    requires leverage > 0 && delta > 0.0 && price > 0.0
    requires Judge(cap, leverage, rules, least, q, price, delta).Approved?
    requires Judge(cap, leverage, rules, least, q, price, delta).quantity > 0.0
    ensures Reports(Judge(cap, leverage, rules, least, q, price, delta), cap.1, leverage, rules, price, delta)
  {
    MarginFacts(q, price, leverage as real);
    DivMul(q, delta);
  }

  /** So it is for every approved size. */
  lemma ApprovedMargin(policy: AllocationPolicy, r: Request)
    requires policy.Valid() && r.Valid() && SizeIncrease(policy, r).Approved?
    ensures Reports(SizeIncrease(policy, r), BindingCap(policy, r.usage).1, Leverage(policy, r.rules), r.rules,
      r.price, r.signal.delta)
  {
    ApprovedQuantity(policy, r);
    JudgeReports(BindingCap(policy, r.usage), Leverage(policy, r.rules), r.rules, EffectiveMinimum(r.rules, r.price),
                 SizedQuantity(BindingCap(policy, r.usage).1, Leverage(policy, r.rules), r.rules, r.price, Target(r)),
                 r.price, r.signal.delta);
  }

  /** Every approved margin fits the order cap, the shared ceiling and the reserve. */
  lemma ApprovedIsSound(policy: AllocationPolicy, r: Request)
    requires policy.Valid() && r.Valid() && SizeIncrease(policy, r).Approved?
    ensures var d := SizeIncrease(policy, r);
      && 0.0 < d.margin <= policy.maximumOrderMargin
      && r.usage.totalCommitted + d.margin <= EntryCapacity(policy, r.usage)
      && Balance(r.usage) - d.margin >= policy.reserve
  {
    ApprovedMargin(policy, r);
  }

  /** A later request meets the margin committed so far. */
  function Against(r: Request, committed: real): Request {
    r.(usage := r.usage.(totalCommitted := committed))
  }

  /** Margin committed after a sequence of requests, each sized against what came before. */
  function CommittedAfter(policy: AllocationPolicy, start: real, requests: seq<Request>): (total: real)
    requires policy.Valid() && start >= 0.0
    requires forall k :: 0 <= k < |requests| ==> requests[k].Valid()
    ensures total >= start
  {
    if requests == [] then start
    else
      var before := CommittedAfter(policy, start, requests[..|requests| - 1]);
      assert requests[|requests| - 1].Valid();
      var r := Against(requests[|requests| - 1], before);
      var d := SizeIncrease(policy, r);
      if d.Approved? then ApprovedIsSound(policy, r); before + d.margin else before
  }

  /** Whatever is asked for, in any order, committed margin never passes the configured ceiling. */
  lemma {:induction false} CommittedStaysUnderCeiling(policy: AllocationPolicy, start: real, requests: seq<Request>,
                                                      ceiling: real)
    requires policy.Valid() && 0.0 <= start <= ceiling
    requires forall k :: 0 <= k < |requests| ==>
      requests[k].Valid() && EntryCapacity(policy, requests[k].usage) <= ceiling
    ensures CommittedAfter(policy, start, requests) <= ceiling
  {
    if requests != [] {
      var init := requests[..|requests| - 1];
      CommittedStaysUnderCeiling(policy, start, init, ceiling);
      var r := Against(requests[|requests| - 1], CommittedAfter(policy, start, init));
      if SizeIncrease(policy, r).Approved? {
        ApprovedIsSound(policy, r);
      }
    }
  }
}
