/**
 * Unit economics and monthly profit and loss of a bulk-messaging operation,
 * the break-even suggestions shown when the month makes a loss, and the bars
 * of the waterfall chart.
 *
 * Currency amounts are exact reals. The monthly volume and the number of
 * messages an account survives come from integer widgets whose ranges start
 * at 10000 and 10, so they are positive whole numbers here.
 */
module Pricing {

  /** A positive whole number of messages. */
  type Count = n: int | n > 0 witness 1

  datatype Option<T> = None | Some(value: T)

  /** The seven parameters of the sidebar. */
  datatype Inputs = Inputs(
    pricePerMsg: real,
    targetMsgsMonth: Count,
    msgsPerAccount: Count,
    costRawAccount: real,
    costTokenPerAcc: real,
    opexFixed: real,
    salaryFixed: real)

  /** Every value derived from the parameters. */
  datatype Metrics = Metrics(
    accountsNeeded: real,
    fullAccountCost: real,
    unitCost: real,
    unitMargin: real,
    unitMarginPercent: real,
    revenue: real,
    totalVariableCosts: real,
    grossProfit: real,
    totalFixedCosts: real,
    netProfit: real,
    netMarginPercent: real)

  /**
   * Monthly net profit as a closed formula in the quantities a break-even
   * suggestion may change: sell `volume` messages at `price`, buy one account
   * costing `accountCost` per `lifespan` messages, pay `fixedCosts`.
   */
  function ProfitAt(price: real, volume: real, lifespan: real, accountCost: real,
                    fixedCosts: real): real
    requires lifespan != 0.0
  {
    volume * price - (volume / lifespan) * accountCost - fixedCosts
  }

  /**
   * The calculation block, step by step. The two percentages are 0 when their
   * denominator (the price, the revenue) is not positive, and no division by
   * it happens then.
   */
  function Calculate(i: Inputs): (m: Metrics)
    ensures m.netProfit == m.revenue - m.totalVariableCosts - m.totalFixedCosts
    ensures i.pricePerMsg <= 0.0 ==> m.unitMarginPercent == 0.0
    ensures m.revenue <= 0.0 ==> m.netMarginPercent == 0.0
  {
    var volume := i.targetMsgsMonth as real;
    var lifespan := i.msgsPerAccount as real;
    var accountsNeeded := volume / lifespan;
    var fullAccountCost := i.costRawAccount + i.costTokenPerAcc;
    var unitCost := fullAccountCost / lifespan;
    var unitMargin := i.pricePerMsg - unitCost;
    var unitMarginPercent := if i.pricePerMsg > 0.0 then (unitMargin / i.pricePerMsg) * 100.0 else 0.0;
    var revenue := volume * i.pricePerMsg;
    var totalVariableCosts := accountsNeeded * fullAccountCost;
    var grossProfit := revenue - totalVariableCosts;
    var totalFixedCosts := i.opexFixed + i.salaryFixed;
    var netProfit := grossProfit - totalFixedCosts;
    var netMarginPercent := if revenue > 0.0 then (netProfit / revenue) * 100.0 else 0.0;
    Metrics(accountsNeeded, fullAccountCost, unitCost, unitMargin, unitMarginPercent,
            revenue, totalVariableCosts, grossProfit, totalFixedCosts, netProfit, netMarginPercent)
  }

  /**
   * How the derived values fit together: the accounts needed last exactly the
   * planned volume, the account purchases cost the per-message account cost
   * once per planned message, and the net profit is the volume times the unit
   * margin less the fixed costs, which is the closed formula `ProfitAt`.
   */
  lemma ProfitDecomposition(i: Inputs)
    ensures var m := Calculate(i);
      var volume := i.targetMsgsMonth as real;
      var lifespan := i.msgsPerAccount as real;
      && m.accountsNeeded * lifespan == volume
      && m.fullAccountCost == i.costRawAccount + i.costTokenPerAcc
      && m.unitCost * lifespan == m.fullAccountCost
      && m.totalVariableCosts == volume * m.unitCost
      && m.totalFixedCosts == i.opexFixed + i.salaryFixed
      && m.netProfit == volume * m.unitMargin - m.totalFixedCosts
      && m.netProfit == ProfitAt(i.pricePerMsg, volume, lifespan, m.fullAccountCost, m.totalFixedCosts)
  {
    var m := Calculate(i);
    VariableCostsPerMessage(i.targetMsgsMonth as real, i.msgsPerAccount as real, m.fullAccountCost);
  }

  /**
   * The guarded percentages: 0 when the denominator is not positive, otherwise
   * the ratio to it in percent. Revenue is positive exactly when the price is,
   * and a positive revenue gives a net margin with the sign of the net profit.
   */
  lemma PercentGuards(i: Inputs)
    ensures var m := Calculate(i);
      && (m.revenue > 0.0 <==> i.pricePerMsg > 0.0)
      && (i.pricePerMsg <= 0.0 ==> m.unitMarginPercent == 0.0)
      && (i.pricePerMsg > 0.0 ==> m.unitMarginPercent * i.pricePerMsg == 100.0 * m.unitMargin)
      && (m.revenue <= 0.0 ==> m.netMarginPercent == 0.0)
      && (m.revenue > 0.0 ==> m.netMarginPercent * m.revenue == 100.0 * m.netProfit)
      && (m.revenue > 0.0 ==> (m.netMarginPercent < 0.0 <==> m.netProfit < 0.0))
  {
    var m := Calculate(i);
    PositiveScaleKeepsSign(i.targetMsgsMonth as real, i.pricePerMsg);
    if m.revenue > 0.0 {
      PositiveScaleKeepsSign(m.revenue, m.netMarginPercent);
    }
  }

  /** Buying volume/lifespan accounts costs as much as paying the per-message cost volume times. */
  lemma VariableCostsPerMessage(volume: real, lifespan: real, accountCost: real)
    requires lifespan > 0.0
    ensures (volume / lifespan) * accountCost == volume * (accountCost / lifespan)
  {
  }

  /** Scaling by a positive factor keeps the sign. */
  lemma PositiveScaleKeepsSign(k: real, x: real)
    requires k > 0.0
    ensures k * x < 0.0 <==> x < 0.0
    ensures k * x > 0.0 <==> x > 0.0
  {
  }

  /** The price at which the month's revenue covers exactly all of its costs. */
  function BreakEvenPrice(i: Inputs): (p: real)
    ensures p * (i.targetMsgsMonth as real)
            == Calculate(i).totalFixedCosts + Calculate(i).totalVariableCosts
  {
    var m := Calculate(i);
    (m.totalFixedCosts + m.totalVariableCosts) / (i.targetMsgsMonth as real)
  }

  /** The monthly volume whose unit margins pay exactly for the fixed costs. */
  function NeededVolume(i: Inputs): (v: real)
    requires Calculate(i).unitMargin > 0.0
    ensures v * Calculate(i).unitMargin == Calculate(i).totalFixedCosts
  {
    var m := Calculate(i);
    m.totalFixedCosts / m.unitMargin
  }

  /** The account lifespan at which account purchases use up exactly what the fixed costs leave. */
  function NeededLifespan(i: Inputs): (n: real)
    requires Calculate(i).revenue - Calculate(i).totalFixedCosts > 0.0
    ensures n * (Calculate(i).revenue - Calculate(i).totalFixedCosts)
            == (i.targetMsgsMonth as real) * Calculate(i).fullAccountCost
  {
    var m := Calculate(i);
    ((i.targetMsgsMonth as real) * m.fullAccountCost) / (m.revenue - m.totalFixedCosts)
  }

  /** A price whose revenue covers exactly the costs balances the month; it is above a given price exactly when that price makes a loss. */
  lemma BalancingPrice(volume: real, price: real, lifespan: real, accountCost: real,
                       fixedCosts: real, balancing: real)
    requires volume > 0.0 && lifespan > 0.0
    requires balancing * volume == fixedCosts + (volume / lifespan) * accountCost
    ensures ProfitAt(balancing, volume, lifespan, accountCost, fixedCosts) == 0.0
    ensures balancing > price <==> ProfitAt(price, volume, lifespan, accountCost, fixedCosts) < 0.0
  {
    assert ProfitAt(price, volume, lifespan, accountCost, fixedCosts) == volume * (price - balancing);
    PositiveScaleKeepsSign(volume, price - balancing);
  }

  /**
   * With a positive unit margin, a volume whose margins pay exactly for the
   * fixed costs balances the month; it is above a given volume exactly when
   * that volume makes a loss.
   */
  lemma BalancingVolume(volume: real, price: real, lifespan: real, accountCost: real,
                        fixedCosts: real, balancing: real)
    requires lifespan > 0.0 && price - accountCost / lifespan > 0.0
    requires balancing * (price - accountCost / lifespan) == fixedCosts
    ensures ProfitAt(price, balancing, lifespan, accountCost, fixedCosts) == 0.0
    ensures balancing > volume <==> ProfitAt(price, volume, lifespan, accountCost, fixedCosts) < 0.0
  {
    var margin := price - accountCost / lifespan;
    VariableCostsPerMessage(balancing, lifespan, accountCost);
    VariableCostsPerMessage(volume, lifespan, accountCost);
    assert ProfitAt(price, balancing, lifespan, accountCost, fixedCosts) == balancing * margin - fixedCosts;
    assert ProfitAt(price, volume, lifespan, accountCost, fixedCosts) == margin * (volume - balancing);
    PositiveScaleKeepsSign(margin, volume - balancing);
  }

  /**
   * When the revenue exceeds the fixed costs, a lifespan over which one
   * account's cost per message uses up exactly what the fixed costs leave is
   * longer than a given lifespan exactly when that lifespan makes a loss, and
   * in that case it balances the month.
   */
  lemma BalancingLifespan(volume: real, price: real, lifespan: real, accountCost: real,
                          fixedCosts: real, balancing: real)
    requires volume > 0.0 && lifespan > 0.0
    requires volume * price - fixedCosts > 0.0
    requires balancing * (volume * price - fixedCosts) == volume * accountCost
    ensures balancing > lifespan <==> ProfitAt(price, volume, lifespan, accountCost, fixedCosts) < 0.0
    ensures balancing > lifespan ==> ProfitAt(price, volume, balancing, accountCost, fixedCosts) == 0.0
  {
    var left := volume * price - fixedCosts;
    var purchases := volume * accountCost;
    var profit := ProfitAt(price, volume, lifespan, accountCost, fixedCosts);
    assert (volume / lifespan) * accountCost * lifespan == purchases;
    assert profit == left - (volume / lifespan) * accountCost;
    assert profit * lifespan == left * (lifespan - balancing);
    PositiveScaleKeepsSign(lifespan, profit);
    PositiveScaleKeepsSign(left, lifespan - balancing);
    if balancing > lifespan {
      calc {
        ProfitAt(price, volume, balancing, accountCost, fixedCosts);
        volume * price - purchases / balancing - fixedCosts;
        { assert purchases / balancing == left; }
        0.0;
      }
    }
  }

  /**
   * Selling at the break-even price, all else unchanged, yields a net profit of
   * exactly zero; and the break-even price is above the current price exactly
   * when the month makes a loss.
   */
  lemma BreakEvenPriceBalances(i: Inputs)
    ensures Calculate(i.(pricePerMsg := BreakEvenPrice(i))).netProfit == 0.0
    ensures BreakEvenPrice(i) > i.pricePerMsg <==> Calculate(i).netProfit < 0.0
  {
    var m := Calculate(i);
    var p := BreakEvenPrice(i);
    ProfitDecomposition(i);
    ProfitDecomposition(i.(pricePerMsg := p));
    BalancingPrice(i.targetMsgsMonth as real, i.pricePerMsg, i.msgsPerAccount as real,
                   m.fullAccountCost, m.totalFixedCosts, p);
  }

  /**
   * With a positive unit margin, selling the needed volume yields a net profit
   * of exactly zero, and the needed volume is above the planned one exactly when
   * the month makes a loss.
   */
  lemma NeededVolumeBalances(i: Inputs)
    requires Calculate(i).unitMargin > 0.0
    ensures var m := Calculate(i);
      ProfitAt(i.pricePerMsg, NeededVolume(i), i.msgsPerAccount as real,
               m.fullAccountCost, m.totalFixedCosts) == 0.0
    ensures NeededVolume(i) > i.targetMsgsMonth as real <==> Calculate(i).netProfit < 0.0
  {
    var m := Calculate(i);
    ProfitDecomposition(i);
    BalancingVolume(i.targetMsgsMonth as real, i.pricePerMsg, i.msgsPerAccount as real,
                    m.fullAccountCost, m.totalFixedCosts, NeededVolume(i));
  }

  /**
   * When revenue exceeds the fixed costs, the needed lifespan is longer than
   * the current one exactly when the month makes a loss, and in a loss-making
   * month the net profit at the needed lifespan is exactly zero.
   */
  lemma NeededLifespanBalances(i: Inputs)
    requires Calculate(i).revenue - Calculate(i).totalFixedCosts > 0.0
    ensures NeededLifespan(i) > i.msgsPerAccount as real <==> Calculate(i).netProfit < 0.0
    ensures Calculate(i).netProfit < 0.0 ==>
      var m := Calculate(i);
      ProfitAt(i.pricePerMsg, i.targetMsgsMonth as real, NeededLifespan(i),
               m.fullAccountCost, m.totalFixedCosts) == 0.0
  {
    var m := Calculate(i);
    ProfitDecomposition(i);
    BalancingLifespan(i.targetMsgsMonth as real, i.pricePerMsg, i.msgsPerAccount as real,
                      m.fullAccountCost, m.totalFixedCosts, NeededLifespan(i));
  }

  /** What the page says below the metrics. */
  datatype Outlook =
    | Profitable(netMarginPercent: real)
    | Loss(netProfit: real, breakEvenPrice: real,
           neededVolume: Option<real>, neededLifespan: Option<real>)

  /**
   * The success message for a non-negative net profit, otherwise the three
   * ways out of the loss: a higher price always, a higher volume only with a
   * positive unit margin, a longer account lifespan only when the revenue
   * exceeds the fixed costs. Each suggestion, applied alone, balances the month.
   */
  function Advise(i: Inputs): (o: Outlook)
    ensures o.Profitable? <==> Calculate(i).netProfit >= 0.0
    ensures o.Profitable? ==> o.netMarginPercent == Calculate(i).netMarginPercent
    ensures o.Loss? ==>
      var m := Calculate(i);
      && o.netProfit == m.netProfit
      && o.breakEvenPrice > i.pricePerMsg
      && Calculate(i.(pricePerMsg := o.breakEvenPrice)).netProfit == 0.0
      && (o.neededVolume.Some? <==> m.unitMargin > 0.0)
      && (o.neededLifespan.Some? <==> m.revenue - m.totalFixedCosts > 0.0)
    ensures o.Loss? && o.neededVolume.Some? ==>
      var m := Calculate(i);
      && o.neededVolume.value > i.targetMsgsMonth as real
      && ProfitAt(i.pricePerMsg, o.neededVolume.value, i.msgsPerAccount as real,
                  m.fullAccountCost, m.totalFixedCosts) == 0.0
    ensures o.Loss? && o.neededLifespan.Some? ==>
      var m := Calculate(i);
      && o.neededLifespan.value > i.msgsPerAccount as real
      && ProfitAt(i.pricePerMsg, i.targetMsgsMonth as real, o.neededLifespan.value,
                  m.fullAccountCost, m.totalFixedCosts) == 0.0
  {
    var m := Calculate(i);
    if m.netProfit >= 0.0 then
      Profitable(m.netMarginPercent)
    else
      BreakEvenPriceBalances(i);
      var volumeFix :=
        if m.unitMargin > 0.0 then
          NeededVolumeBalances(i);
          Some(NeededVolume(i))
        else None;
      var moneyAvailableForVars := m.revenue - m.totalFixedCosts;
      var lifespanFix :=
        if moneyAvailableForVars > 0.0 then
          NeededLifespanBalances(i);
          Some(NeededLifespan(i))
        else None;
      Loss(m.netProfit, BreakEvenPrice(i), volumeFix, lifespanFix)
  }

  /**
   * The waterfall chart's bars: revenue, minus the account purchases, minus the
   * fixed costs, and the net profit as the total bar, which the three relative
   * bars add up to.
   */
  function Waterfall(i: Inputs): (y: seq<real>)
    ensures |y| == 4
    ensures y[0] == Calculate(i).revenue && y[3] == Calculate(i).netProfit
    ensures y[1] == -Calculate(i).totalVariableCosts && y[2] == -Calculate(i).totalFixedCosts
    ensures y[0] + y[1] + y[2] == y[3]
  {
    var m := Calculate(i);
    [m.revenue, -m.totalVariableCosts, -m.totalFixedCosts, m.netProfit]
  }

  /** The sidebar's starting values. */
  const DefaultInputs := Inputs(5.0, 60000, 50, 55.0, 5.0, 67020.0, 250000.0)

  /**
   * With the starting values the month loses 89020: 1200 accounts at 60 each,
   * a unit margin of 3.8 (76 percent), and the break-even price and volume
   * 389020/60000 and 317020/3.8.
   */
  lemma DefaultScenario()
    ensures var m := Calculate(DefaultInputs);
      && m.accountsNeeded == 1200.0
      && m.fullAccountCost == 60.0
      && m.unitCost == 1.2
      && m.unitMargin == 3.8
      && m.unitMarginPercent == 76.0
      && m.revenue == 300000.0
      && m.totalVariableCosts == 72000.0
      && m.totalFixedCosts == 317020.0
      && m.netProfit == -89020.0
    ensures Advise(DefaultInputs) ==
      Loss(-89020.0, 389020.0 / 60000.0, Some(317020.0 / 3.8), None)
  {
  }
}
