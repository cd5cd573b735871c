/** The portfolio arithmetic of the progress report and of the moonshot
    projection: straight-line computations over the ledger aggregates and a
    bitcoin price supplied by the caller. */
module Portfolio {
  import opened Ledger

  /** The fixed goal, in US dollars. */
  const Goal: real := 100000.0

  /** Everything the progress report shows, at full precision. */
  datatype Snapshot = Snapshot(
    totalBtc: real,         // SUM(amount), 0 on an empty ledger
    totalInvested: real,    // SUM(total), 0 on an empty ledger
    currentPrice: real,
    currentValue: real,
    profit: real,
    profitPercent: real,
    progressPercent: real,
    toGoal: real,           // the text line: goal minus value, may be negative
    remaining: real         // the chart segment: never negative
  )

  /** Profit as a percentage of the money invested, guarded against a zero
      (or negative) investment. */
  function ProfitPercent(profit: real, invested: real): (r: real)
    ensures invested > 0.0 ==> r * invested == profit * 100.0
    ensures invested <= 0.0 ==> r == 0.0
  {
    if invested > 0.0 then profit / invested * 100.0 else 0.0
  }

  /** The value as a percentage of the goal. */
  function ProgressPercent(value: real): (r: real)
    ensures r * Goal == value * 100.0
  {
    if Goal > 0.0 then value / Goal * 100.0 else 0.0
  }

  /** The remaining segment of the progress chart, max(goal - value, 0). */
  function Remaining(value: real): (r: real)
    ensures r >= 0.0 && r >= Goal - value
    ensures r == 0.0 || r == Goal - value
  {
    if Goal - value > 0.0 then Goal - value else 0.0
  }

  /** The progress report for a ledger at the given current price. */
  function Progress(ledger: seq<Purchase>, currentPrice: real): (s: Snapshot)
    ensures s.totalBtc == Sum(Amounts(ledger)) && s.totalInvested == Sum(Totals(ledger))
    ensures s.currentPrice == currentPrice
    ensures s.currentValue == s.totalBtc * currentPrice
    ensures s.profit + s.totalInvested == s.currentValue
    ensures s.totalInvested > 0.0 ==> s.profitPercent * s.totalInvested == s.profit * 100.0
    ensures s.totalInvested <= 0.0 ==> s.profitPercent == 0.0
    ensures s.progressPercent * Goal == s.currentValue * 100.0
    ensures s.toGoal + s.currentValue == Goal
    ensures s.remaining >= 0.0
    ensures s.remaining == if s.toGoal > 0.0 then s.toGoal else 0.0
  {
    AggregateIsSum(ledger);
    var (btc, invested) := Aggregate(ledger);
    var value := btc * currentPrice;
    var profit := value - invested;
    Snapshot(btc, invested, currentPrice, value, profit,
             ProfitPercent(profit, invested), ProgressPercent(value),
             Goal - value, Remaining(value))
  }

  /** An empty portfolio reports zeros everywhere, whatever the price, and
      the whole goal as remaining. */
  lemma EmptyPortfolio(currentPrice: real)
    ensures var s := Progress([], currentPrice);
      && s.totalBtc == 0.0 && s.totalInvested == 0.0
      && s.currentValue == 0.0 && s.profit == 0.0
      && s.profitPercent == 0.0 && s.progressPercent == 0.0
      && s.toGoal == Goal && s.remaining == Goal
  {
  }

  /** The goal is reached exactly when progress is at least 100 percent,
      exactly when the chart shows no remaining segment; then the text line
      shows the overshoot as a non-positive distance. */
  lemma GoalReached(ledger: seq<Purchase>, currentPrice: real)
    ensures var s := Progress(ledger, currentPrice);
      && (s.currentValue >= Goal <==> s.progressPercent >= 100.0)
      && (s.currentValue >= Goal <==> s.remaining == 0.0)
      && (s.currentValue >= Goal <==> s.toGoal <= 0.0)
  {
  }

  /** Below the goal the two chart segments add up to the goal; above it
      the remaining segment is zero while the text distance is negative. */
  lemma ChartSegments(ledger: seq<Purchase>, currentPrice: real)
    ensures var s := Progress(ledger, currentPrice);
      && (s.currentValue <= Goal ==> s.currentValue + s.remaining == Goal && s.remaining == s.toGoal)
      && (s.currentValue > Goal ==> s.remaining == 0.0 && s.toGoal < 0.0)
  {
  }

  /** With money invested, profit percent has the sign of the profit. */
  lemma ProfitPercentSign(ledger: seq<Purchase>, currentPrice: real)
    requires Progress(ledger, currentPrice).totalInvested > 0.0
    ensures var s := Progress(ledger, currentPrice);
      && (s.profitPercent > 0.0 <==> s.profit > 0.0)
      && (s.profitPercent == 0.0 <==> s.profit == 0.0)
  {
  }

  /** One purchase of 0.5 BTC at 60000, valued at 80000: worth 40000,
      10000 profit, a third more than invested, 40 percent of the goal. */
  lemma ProgressScenario(date: Timestamp)
    ensures var s := Progress([NewPurchase(0.5, 60000.0, date)], 80000.0);
      && s.totalBtc == 0.5 && s.totalInvested == 30000.0
      && s.currentValue == 40000.0 && s.profit == 10000.0
      && s.profitPercent == 100.0 / 3.0 && s.progressPercent == 40.0
      && s.remaining == 60000.0
  {
    var l := [NewPurchase(0.5, 60000.0, date)];
    assert Amounts(l) == [0.5] && [0.5][1..] == [];
    assert Totals(l) == [30000.0] && [30000.0][1..] == [];
  }

  // ---------------------------------------------------------------------
  // Moonshot

  /** What the portfolio would be worth at a target price, and the gain over
      its value at the current price. */
  datatype Projection = Projection(value: real, profit: real)

  function Project(totalBtc: real, targetPrice: real, currentPrice: real): (r: Projection)
    ensures r.value == totalBtc * targetPrice
    ensures r.profit == totalBtc * (targetPrice - currentPrice)
  {
    var value := totalBtc * targetPrice;
    Projection(value, value - currentPrice * totalBtc)
  }

  /** The moonshot report for a ledger: the projection of SUM(amount). */
  function Moonshot(ledger: seq<Purchase>, targetPrice: real, currentPrice: real): (r: Projection)
    ensures r.value == TotalBtc(ledger) * targetPrice
    ensures r.profit == TotalBtc(ledger) * (targetPrice - currentPrice)
  {
    Project(TotalBtc(ledger), targetPrice, currentPrice)
  }

  /** The progress report's value is SUM(amount) times the price. */
  lemma ProgressValue(ledger: seq<Purchase>, price: real)
    ensures Progress(ledger, price).currentValue == TotalBtc(ledger) * price
  {
    AggregateIsSum(ledger);
  }

  lemma MulSub(b: real, x: real, y: real)
    ensures b * (x - y) == b * x - b * y
  {
  }

  /** The projected value is what the progress report would show as the
      portfolio's value at the target price, and the gain is that minus the
      holdings valued at the current price. */
  lemma MoonshotMatchesProgress(ledger: seq<Purchase>, targetPrice: real, currentPrice: real)
    ensures Moonshot(ledger, targetPrice, currentPrice).value == Progress(ledger, targetPrice).currentValue
    ensures Moonshot(ledger, targetPrice, currentPrice).profit
         == Progress(ledger, targetPrice).currentValue - TotalBtc(ledger) * currentPrice
  {
    ProgressValue(ledger, targetPrice);
    MulSub(TotalBtc(ledger), targetPrice, currentPrice);
  }

  /** Holding some bitcoin, the projected profit is positive exactly when
      the target is above the current price, and zero exactly when it is the
      current price. */
  lemma MoonshotGain(ledger: seq<Purchase>, targetPrice: real, currentPrice: real)
    requires TotalBtc(ledger) > 0.0
    ensures var r := Moonshot(ledger, targetPrice, currentPrice);
      && (r.profit > 0.0 <==> targetPrice > currentPrice)
      && (r.profit == 0.0 <==> targetPrice == currentPrice)
  {
    var b := TotalBtc(ledger);
    if targetPrice > currentPrice {
      assert b * (targetPrice - currentPrice) > 0.0;
    } else if targetPrice < currentPrice {
      assert b * (currentPrice - targetPrice) > 0.0;
      assert b * (targetPrice - currentPrice) == -(b * (currentPrice - targetPrice));
    }
  }

  /** With nothing bought, the projection is zero at every price. */
  lemma MoonshotEmpty(targetPrice: real, currentPrice: real)
    ensures Moonshot([], targetPrice, currentPrice) == Projection(0.0, 0.0)
  {
  }

  /** 1 BTC, current price 90000, target 150000: worth 150000, gain 60000. */
  lemma MoonshotScenario(date: Timestamp)
    ensures Moonshot([NewPurchase(1.0, 90000.0, date)], 150000.0, 90000.0) == Projection(150000.0, 60000.0)
  {
    assert Amounts([NewPurchase(1.0, 90000.0, date)]) == [1.0] && [1.0][1..] == [];
  }
}
