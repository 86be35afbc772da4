/**
 * `BitmexMarginModel`: the initial margin of an order including its fee, and
 * the largest order quantity that moves a holding to a target share of the
 * portfolio once the order's own fees are paid.
 */
module BitmexMarginModel {
  import opened Wrappers
  import opened Orders

  /**
   * `GetInitialMarginRequiredForOrder`: the absolute quantity times the initial
   * margin requirement, grown in magnitude by the order's fee in the account
   * currency; a zero order value takes no fee.
   */
  function GetInitialMarginRequiredForOrder(orderQuantity: real, initialMarginRequirement: real, feesInAccountCurrency: real): (margin: real)
    ensures var orderValue := Abs(orderQuantity) * initialMarginRequirement;
      && (orderValue == 0.0 ==> margin == 0.0)
      && (orderValue != 0.0 && feesInAccountCurrency >= 0.0 ==> Abs(margin) == Abs(orderValue) + feesInAccountCurrency)
      && (orderValue > 0.0 ==> margin - orderValue == feesInAccountCurrency)
  {
    var orderValue := Abs(orderQuantity) * initialMarginRequirement;
    orderValue + Sign(orderValue) * feesInAccountCurrency
  }

  /** Truncation toward zero, as C# `decimal` division rounds for `%`. */
  function Trunc(x: real): (t: int)
    ensures x >= 0.0 ==> t == x.Floor
    ensures x < 0.0 ==> t == -((-x).Floor)
  {
    if x >= 0.0 then x.Floor else -((-x).Floor)
  }

  /** C# `decimal` remainder: the sign of the dividend, magnitude below the divisor's. */
  function DecimalRem(x: real, y: real): real
    requires y != 0.0
  {
    x - y * Trunc(x / y) as real
  }

  /** `q -= q % lotSize`: the quantity rounded toward zero to a whole number of lots. */
  function RoundToLot(q: real, lotSize: real): real
    requires lotSize != 0.0
  {
    q - DecimalRem(q, lotSize)
  }

  /**
   * For a non-negative quantity the rounding keeps a whole number of lots (in the
   * lot's absolute size), no more than the quantity and less than one lot below it.
   */
  lemma RoundToLotNonNegative(q: real, lotSize: real)
    requires lotSize != 0.0 && q >= 0.0
    ensures RoundToLot(q, lotSize) == Abs(lotSize) * (q / Abs(lotSize)).Floor as real
    ensures 0.0 <= RoundToLot(q, lotSize) <= q
    ensures RoundToLot(q, lotSize) > q - Abs(lotSize)
  {
    var m := Abs(lotSize);
    var k := (q / m).Floor;
    if lotSize < 0.0 {
      DivNegate(q, m);
      assert q / lotSize == -(q / m);
      if q / lotSize < 0.0 {
        assert Trunc(q / lotSize) == -k;
        assert RoundToLot(q, lotSize) == q - (q - lotSize * (-k) as real);
      } else {
        assert q / m == 0.0;
        assert k == 0;
        assert Trunc(q / lotSize) == 0;
      }
    }
    assert RoundToLot(q, lotSize) == m * k as real;
    FloorBounds(q, m);
  }

  /** Dividing by a negated divisor negates the quotient. */
  lemma DivNegate(q: real, m: real)
    requires m != 0.0
    ensures q / (-m) == -(q / m)
    ensures (-q) / m == -(q / m)
  {
    assert (-(q / m)) * (-m) == q;
    assert (-(q / m)) * m == -q;
  }

  lemma MulStrict(m: real, a: real, b: real)
    requires m > 0.0 && a < b
    ensures m * a < m * b
  {
    assert m * b - m * a == m * (b - a);
  }

  lemma FloorBounds(q: real, m: real)
    requires m > 0.0 && q >= 0.0
    ensures 0.0 <= m * (q / m).Floor as real <= q
    ensures m * (q / m).Floor as real > q - m
  {
    var k := (q / m).Floor;
    assert 0.0 <= k as real <= q / m < k as real + 1.0;
    assert m * (q / m) == q;
    assert m * (k as real + 1.0) == m * k as real + m;
    MulStrict(m, q / m, k as real + 1.0);
    assert q < m * k as real + m;
    if k as real < q / m {
      MulStrict(m, k as real, q / m);
    }
    assert 0.0 <= m * k as real;
  }

  /** A non-negative quantity rounds to a whole number of lots, `k`. */
  lemma RoundToLotUnits(x: real, lotSize: real) returns (k: nat)
    requires lotSize != 0.0 && x >= 0.0
    ensures RoundToLot(x, lotSize) == Abs(lotSize) * k as real
    ensures RoundToLot(x, lotSize) <= x
  {
    RoundToLotNonNegative(x, lotSize);
    k := (x / Abs(lotSize)).Floor;
  }

  /** A negative quantity rounds to a non-positive one. */
  lemma RoundToLotNegative(q: real, lotSize: real)
    requires lotSize != 0.0 && q < 0.0
    ensures RoundToLot(q, lotSize) <= 0.0
  {
    RoundToLotNonNegative(-q, lotSize);
    DivNegate(q, lotSize);
    assert (-q) / lotSize == -(q / lotSize);
    assert Trunc(q / lotSize) == -Trunc((-q) / lotSize);
    assert RoundToLot(q, lotSize) == -RoundToLot(-q, lotSize);
  }

  /** Rounding strictly below a whole number of lots drops at least one lot. */
  lemma RoundBelowMultiple(x: real, lotSize: real, units: int)
    requires lotSize != 0.0 && 0.0 <= x < Abs(lotSize) * units as real
    ensures (x / Abs(lotSize)).Floor < units
  {
    var m := Abs(lotSize);
    assert m * (x / m) == x;
    if x / m >= units as real {
      assert m * (x / m) >= m * units as real by {
        assert m * (x / m) - m * units as real == m * (x / m - units as real);
      }
    }
  }

  /**
   * A pass that starts above the target with the order valued at its quantity
   * removes exactly the excess, a positive amount.
   */
  lemma ExcessToRemove(orderValue: real, orderQuantity: real, targetOrderValue: real)
    requires orderValue == orderQuantity && orderQuantity > targetOrderValue >= 0.0
    ensures orderValue / orderQuantity == 1.0
    ensures (orderValue - targetOrderValue) / (orderValue / orderQuantity) == orderQuantity - targetOrderValue
  {
  }

  /**
   * One reduction pass: the excess value over the target, in units at the current
   * value per unit and at least one lot, is taken off and the rest rounded to lots.
   */
  function ReducedQuantity(orderValue: real, orderQuantity: real, targetOrderValue: real, lotSize: real): real
    requires orderQuantity != 0.0 && orderValue != 0.0 && lotSize != 0.0
  {
    var currentOrderValuePerUnit := orderValue / orderQuantity;
    var excess := (orderValue - targetOrderValue) / currentOrderValuePerUnit;
    var amountOfOrdersToRemove := if excess < lotSize then lotSize else excess;
    RoundToLot(orderQuantity - amountOfOrdersToRemove, lotSize)
  }

  /**
   * From a whole number `units` of lots valued at its quantity and above the
   * target, a reduction pass that leaves a positive quantity leaves fewer lots.
   */
  lemma ReducedQuantityDropsLot(orderQuantity: real, targetOrderValue: real, lotSize: real, units: nat) returns (k: nat)
    requires lotSize != 0.0 && orderQuantity > targetOrderValue >= 0.0
    requires orderQuantity == Abs(lotSize) * units as real
    ensures var r := ReducedQuantity(orderQuantity, orderQuantity, targetOrderValue, lotSize);
      r > 0.0 ==> r == Abs(lotSize) * k as real && k < units
  {
    ExcessToRemove(orderQuantity, orderQuantity, targetOrderValue);
    var excess := orderQuantity - targetOrderValue;
    var amount := if excess < lotSize then lotSize else excess;
    assert amount > 0.0;
    k := 0;
    var x := orderQuantity - amount;
    assert ReducedQuantity(orderQuantity, orderQuantity, targetOrderValue, lotSize) == RoundToLot(x, lotSize);
    if x < 0.0 {
      RoundToLotNegative(x, lotSize);
    } else {
      RoundToLotNonNegative(x, lotSize);
      RoundBelowMultiple(x, lotSize, units);
      k := (x / Abs(lotSize)).Floor;
    }
  }

  /** Why a zero quantity is returned. */
  datatype Reason = NoReason | ZeroUnitPrice | NoMarginRemaining | RoundedToZero | RoundedToZeroInLoop

  datatype TargetResult = TargetResult(quantity: real, reason: Reason)

  /**
   * The inputs of `GetMaximumOrderQuantityForTargetValue`. The portfolio, holding
   * and security values are read once; `unitPrice` is the value of a one-unit
   * market order, `marginRemaining(d)` the base model's margin remaining for
   * direction `d`, and `orderFees(q)` the fee in the account currency of a market
   * order of quantity `q`.
   */
  datatype TargetParameters = TargetParameters(
    target: real,
    totalPortfolioValue: real,
    requiredFreeBuyingPowerPercent: real,
    holdingsQuantity: real,
    holdingsValue: real,
    unitPrice: real,
    lotSize: real,
    marginRemaining: OrderDirection -> real,
    orderFees: real -> real)

  /** The target share of the portfolio, less the required free buying power. */
  function TargetPortfolioValue(p: TargetParameters): real
  {
    p.target * (p.totalPortfolioValue - p.totalPortfolioValue * p.requiredFreeBuyingPowerPercent)
  }

  /** The order value that reaches the target once `fees` are taken out of the portfolio. */
  function TargetOrderValueAfter(p: TargetParameters, fees: real): (v: real)
    ensures v >= 0.0
  {
    Abs((p.totalPortfolioValue - fees - p.totalPortfolioValue * p.requiredFreeBuyingPowerPercent) * p.target - p.holdingsValue)
  }

  /** Buy when the target exceeds the current holdings value, sell otherwise. */
  function TargetDirection(p: TargetParameters): (d: OrderDirection)
    ensures d == Buy <==> TargetPortfolioValue(p) > p.holdingsValue
    ensures d != Hold
  {
    if TargetPortfolioValue(p) > p.holdingsValue then Buy else Sell
  }

  /** `q` is a whole number of lots. */
  predicate IsWholeLots(q: real, lotSize: real)
    requires lotSize != 0.0
  {
    q == Abs(lotSize) * (q / Abs(lotSize)).Floor as real
  }

  /** `q` is `units` lots. */
  ghost predicate LotsOf(q: real, lotSize: real, units: int)
  {
    q == Abs(lotSize) * units as real
  }

  lemma WholeLots(q: real, lotSize: real, units: int)
    requires lotSize != 0.0 && LotsOf(q, lotSize, units)
    ensures IsWholeLots(q, lotSize)
  {
    var m := Abs(lotSize);
    assert q / m == units as real;
  }

  /** A reduction pass over a quantity valued at itself, with the lots it leaves. */
  method ReducePass(orderQuantity: real, targetOrderValue: real, lotSize: real, ghost units: nat)
    returns (q: real, ghost k: nat)
    requires lotSize != 0.0 && orderQuantity > targetOrderValue >= 0.0
    requires LotsOf(orderQuantity, lotSize, units)
    ensures q == ReducedQuantity(orderQuantity, orderQuantity, targetOrderValue, lotSize)
    ensures q > 0.0 ==> LotsOf(q, lotSize, k) && k < units
  {
    k := ReducedQuantityDropsLot(orderQuantity, targetOrderValue, lotSize, units);
    q := ReducedQuantity(orderQuantity, orderQuantity, targetOrderValue, lotSize);
  }

  /** `x` rounded toward zero to whole lots, with the number of lots. */
  method RoundDown(x: real, lotSize: real) returns (q: real, ghost k: nat)
    requires lotSize != 0.0 && x >= 0.0
    ensures q == RoundToLot(x, lotSize) && LotsOf(q, lotSize, k) && q <= x
  {
    k := RoundToLotUnits(x, lotSize);
    q := RoundToLot(x, lotSize);
  }

  /**
   * `GetMaximumOrderQuantityForTargetValue`. A zero target closes the holding.
   * Otherwise, after the zero-price, no-margin and zero-lot exits, the quantity is
   * shrunk until its value fits the target recomputed with the order's own fees,
   * and carries the direction's sign. A zero lot size divides by zero.
   */
  method GetMaximumOrderQuantityForTargetValue(p: TargetParameters) returns (r: Result<TargetResult>)
    ensures TargetPortfolioValue(p) == 0.0 ==> r == Ok(TargetResult(-p.holdingsQuantity, NoReason))
    ensures TargetPortfolioValue(p) != 0.0 && p.unitPrice == 0.0 ==> r == Ok(TargetResult(0.0, ZeroUnitPrice))
    ensures TargetPortfolioValue(p) != 0.0 && p.unitPrice != 0.0 && p.marginRemaining(TargetDirection(p)) <= 0.0 ==>
      r == Ok(TargetResult(0.0, NoMarginRemaining))
    ensures r.Err? <==>
      TargetPortfolioValue(p) != 0.0 && p.unitPrice != 0.0 && p.marginRemaining(TargetDirection(p)) > 0.0 && p.lotSize == 0.0
    ensures r.Err? ==> r.error == DivideByZeroException
    ensures r.Ok? && r.value.reason != NoReason ==> r.value.quantity == 0.0
    ensures r.Ok? && r.value.reason == NoReason && TargetPortfolioValue(p) != 0.0 ==>
      var q := Abs(r.value.quantity);
      && p.lotSize != 0.0
      && q > 0.0
      && IsWholeLots(q, p.lotSize)
      && q <= TargetOrderValueAfter(p, p.orderFees(q))
      && (r.value.quantity > 0.0 <==> TargetDirection(p) == Buy)
  {
    var targetPortfolioValue := TargetPortfolioValue(p);
    if targetPortfolioValue == 0.0 {
      return Ok(TargetResult(-p.holdingsQuantity, NoReason));
    }
    var currentHoldingsValue := p.holdingsValue;
    var targetOrderValue := Abs(targetPortfolioValue - currentHoldingsValue);
    var direction := if targetPortfolioValue > currentHoldingsValue then Buy else Sell;
    if p.unitPrice == 0.0 {
      return Ok(TargetResult(0.0, ZeroUnitPrice));
    }
    var marginRemaining := p.marginRemaining(direction);
    if marginRemaining <= 0.0 {
      return Ok(TargetResult(0.0, NoMarginRemaining));
    }
    if p.lotSize == 0.0 {
      return Err(DivideByZeroException);
    }
    var orderQuantity;
    ghost var units;
    orderQuantity, units := RoundDown(targetOrderValue, p.lotSize);
    WholeLots(orderQuantity, p.lotSize, units);
    if orderQuantity == 0.0 {
      return Ok(TargetResult(0.0, RoundedToZero));
    }
    orderQuantity := ShrinkToTarget(p.lotSize, p.orderFees, fees => TargetOrderValueAfter(p, fees), orderQuantity, targetOrderValue);
    if orderQuantity == 0.0 {
      return Ok(TargetResult(0.0, RoundedToZeroInLoop));
    }
    return Ok(TargetResult((if direction == Sell then -1.0 else 1.0) * orderQuantity, NoReason));
  }

  /**
   * The do-while loop of `GetMaximumOrderQuantityForTargetValue`, from a positive
   * whole number of lots and the fee-less target; `targetAfter(fees)` is the
   * target order value once `fees` are paid and `orderFees(q)` the fee of an order
   * of quantity `q`. It runs at least twice: the first
   * pass re-derives the quantity from the target net of the first order's fees;
   * every later pass that starts above the target removes the excess, or one lot if
   * the excess is smaller, and rounds down to whole lots. The result is 0 when the
   * quantity reaches zero, otherwise a positive whole number of lots whose value
   * fits the target net of its own fees. The source's guard against a quantity that
   * repeats between passes is never reached: every pass after the second removes at
   * least one lot.
   */
  method ShrinkToTarget(lotSize: real, orderFees: real -> real, targetAfter: real -> real,
                        initialQuantity: real, initialTargetOrderValue: real) returns (orderQuantity: real)
    requires lotSize != 0.0 && initialTargetOrderValue >= 0.0
    requires forall fees :: targetAfter(fees) >= 0.0
    requires initialQuantity > 0.0 && IsWholeLots(initialQuantity, lotSize)
    ensures orderQuantity == 0.0 || (
      && orderQuantity > 0.0
      && IsWholeLots(orderQuantity, lotSize)
      && orderQuantity <= targetAfter(orderFees(orderQuantity)))
  {
    var orderValue := 0.0;
    var fees := 0.0;
    var targetOrderValue := initialTargetOrderValue;
    orderQuantity := initialQuantity;
    ghost var units: nat := (initialQuantity / Abs(lotSize)).Floor;
    var loopCount := 0;
    var lastOrderQuantity := 0.0;
    while true
      invariant LotsOf(orderQuantity, lotSize, units)
      invariant targetOrderValue >= 0.0 && loopCount >= 0
      invariant loopCount == 0 ==> orderValue == 0.0 && orderQuantity > 0.0 && lastOrderQuantity == 0.0
      invariant loopCount == 1 ==> orderValue == orderQuantity && orderQuantity <= targetOrderValue && lastOrderQuantity == 0.0
      invariant loopCount >= 2 ==>
        && orderValue == orderQuantity && orderQuantity > targetOrderValue
        && lastOrderQuantity == orderQuantity
      decreases if loopCount < 2 then 2 - loopCount else 0, units
    {
      if orderValue > targetOrderValue {
        orderQuantity, units := ReducePass(orderQuantity, targetOrderValue, lotSize, units);
      }

      if orderQuantity <= 0.0 {
        return 0.0;
      }

      fees := orderFees(orderQuantity);
      targetOrderValue := targetAfter(fees);

      if loopCount == 0 {
        orderQuantity, units := RoundDown(targetOrderValue, lotSize);
      } else {
        if lastOrderQuantity == orderQuantity {
          assert false;
        }
        lastOrderQuantity := orderQuantity;
      }

      orderValue := orderQuantity;
      loopCount := loopCount + 1;
      if !(loopCount < 2 || orderValue > targetOrderValue) {
        break;
      }
    }
    WholeLots(orderQuantity, lotSize, units);
  }
}
