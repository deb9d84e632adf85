/** Properties of one iteration of the rebalance loop: compounding against prices,
    the older copy's rounded growth factor, the cost charged, and a period without
    positions. */
module PeriodProperties {
  import opened Rounding
  import opened MapSums
  import opened Results
  import opened TimeSeries
  import opened Utils
  import opened Backtest

  // ---------------------------------------------------------------------------
  // Compounding
  // ---------------------------------------------------------------------------

  lemma RatioStep(p0: real, pt: real, pt1: real, step: real)
    requires p0 > 0.0 && pt > 0.0 && step * pt == pt1
    ensures (pt / p0) * step == pt1 / p0
  {
    calc {
      (pt / p0) * step;
      (step * pt) / p0;
      pt1 / p0;
    }
  }

  /** Up to row t, each return of asset a carries price row s to price row s + 1. */
  ghost predicate Carries(frame: seq<ReturnRow>, window: seq<PriceRow>, a: Asset, t: nat)
  {
    && t < |frame| && |window| == |frame| + 1
    && (forall i :: 0 <= i < |window| ==> a in window[i].prices && window[i].prices[a] > 0.0)
    && (forall s :: 0 <= s <= t ==> a in frame[s].pct && frame[s].pct[a] >= -1.0)
    && (forall s :: 0 <= s <= t ==> frame[s].pct[a] == Change(Current, window[s].prices[a], window[s + 1].prices[a]))
  }

  /** Compounding returns that carry each price to the next gives the ratio of the
      last price to the first. */
  lemma {:induction false} GrowthOfRatios(frame: seq<ReturnRow>, window: seq<PriceRow>, a: Asset, t: nat)
    requires Carries(frame, window, a, t)
    ensures Growth(frame, a, t) == window[t + 1].prices[a] / window[0].prices[a]
    decreases t
  {
    var p0, pt, pt1 := window[0].prices[a], window[t].prices[a], window[t + 1].prices[a];
    var step := 1.0 + Change(Current, pt, pt1);
    assert step * pt == pt1;
    if t == 0 {
      assert step == (step * p0) / p0;
    } else {
      assert Carries(frame, window, a, t - 1);
      GrowthOfRatios(frame, window, a, t - 1);
      RatioStep(p0, pt, pt1, step);
    }
  }

  /** Row s of the return frame holds each held asset's change from price row s to
      price row s + 1. */
  lemma ReturnOfRow(window: seq<PriceRow>, held: set<Asset>, a: Asset, s: nat)
    requires PricedRows(window, held) && a in held
    requires s + 1 < |window|
    ensures s < |PctChange(Current, window, held)|
    ensures PctChange(Current, window, held)[s].pct[a] == Change(Current, window[s].prices[a], window[s + 1].prices[a])
  {
  }

  /** The exact returns of a window carry its prices. */
  lemma FrameCarries(window: seq<PriceRow>, held: set<Asset>, a: Asset, t: nat)
    requires PricedRows(window, held) && a in held
    requires t + 1 < |window|
    ensures Carries(PctChange(Current, window, held), window, a, t)
  {
    var frame := PctChange(Current, window, held);
    assert FrameCovers(frame, held);
    forall s | 0 <= s <= t
      ensures frame[s].pct[a] == Change(Current, window[s].prices[a], window[s + 1].prices[a])
    {
      ReturnOfRow(window, held, a, s);
    }
  }

  /** With exact returns, a unit of asset a grows from the first row of the window to
      row t + 1 exactly as its price does: Π(1 + r) telescopes to the price ratio. */
  lemma GrowthTelescopes(window: seq<PriceRow>, held: set<Asset>, a: Asset, t: nat)
    requires PricedRows(window, held) && a in held
    requires t + 1 < |window|
    ensures t < |PctChange(Current, window, held)|
    ensures Growth(PctChange(Current, window, held), a, t) == window[t + 1].prices[a] / window[0].prices[a]
  {
    FrameCarries(window, held, a, t);
    GrowthOfRatios(PctChange(Current, window, held), window, a, t);
  }

  /** `balance_calc` of src/utils.py: the position in asset a at row t is its allocation
      scaled by the price ratio since the period's first price row, rounded to cents. */
  lemma NavTracksPrices(w: Weights, balance: real, window: seq<PriceRow>, a: Asset, t: nat)
    requires PricedRows(window, w.Keys) && a in w
    requires t + 1 < |window|
    ensures t < |PctChange(Current, window, w.Keys)|
    ensures Nav(Current, w, balance, PctChange(Current, window, w.Keys), a, t)
         == Round(Position(w[a] * balance, window[t + 1].prices[a] / window[0].prices[a]), 2)
  {
    GrowthTelescopes(window, w.Keys, a, t);
  }

  lemma Pow10Six()
    ensures Pow10(6) == 1000000
  {
    assert Pow10(1) == 10;
    assert Pow10(2) == 100;
    assert Pow10(3) == 1000;
    assert Pow10(4) == 10000;
    assert Pow10(5) == 100000;
  }

  /** Rounding to 6 places moves a number by at most half a millionth. */
  lemma RoundSixError(g: real)
    ensures g - 0.0000005 <= Round(g, 6) <= g + 0.0000005
  {
    Pow10Six();
    RoundError(g, 6);
  }

  /** Scaling an error of at most h by c gives an error of at most |c| * h. */
  lemma ScaledError(c: real, e: real, h: real)
    requires Abs(e) <= h
    ensures Abs(c * e) <= Abs(c) * h
  {
    if c >= 0.0 {
      assert -h <= e <= h;
      assert c * -h <= c * e <= c * h;
    } else {
      assert -h <= e <= h;
      assert c * h <= c * e <= c * -h;
    }
  }

  /** `balance_calc` of inv_bt/backtester.py: a position, long or short, is within
      half a millionth of its allocation from the allocation times the exact product
      Π(1 + r). */
  lemma LegacyNavNearGrowth(w: Weights, balance: real, frame: seq<ReturnRow>, a: Asset, t: nat)
    requires a in w && t < |frame| && FrameCovers(frame, w.Keys)
    ensures Abs(Nav(Legacy, w, balance, frame, a, t) - Position(w[a] * balance, Growth(frame, a, t)))
         <= Abs(w[a] * balance) * 0.0000005
  {
    var c, g := w[a] * balance, Growth(frame, a, t);
    var rounded := Round(g, 6);
    RoundSixError(g);
    var e := rounded - g;
    ScaledError(c, e, 0.0000005);
    assert Nav(Legacy, w, balance, frame, a, t) == Position(c, rounded);
    PositionDifference(c, rounded, g);
    assert Nav(Legacy, w, balance, frame, a, t) - Position(c, g) == c * e;
  }

  lemma PositionDifference(c: real, x: real, y: real)
    ensures Position(c, x) - Position(c, y) == c * (x - y)
  {
  }

  // ---------------------------------------------------------------------------
  // Cost and net balance of a period
  // ---------------------------------------------------------------------------

  /** The cost `bt` charges is never negative: nothing for a rate that is not positive,
      a sum of non-negative charges otherwise. */
  lemma ChargedCostNonNegative(rate: real, current: Weights, previous: Weights)
    ensures ChargedCost(rate, current, previous) >= 0.0
    ensures rate <= 0.0 ==> ChargedCost(rate, current, previous) == 0.0
  {
    if rate > 0.0 {
      CostNonNegative(current, previous, rate);
    }
  }

  /** The first period pays the rate on its gross exposure, since the weights carried
      in are 0 for every price column. */
  lemma FirstCost(rate: real, current: Weights, columns: set<Asset>)
    requires rate > 0.0 && current.Keys <= columns
    ensures ChargedCost(rate, current, ZeroWeights(columns))
         == Round(MapSum(map a | a in current :: Abs(current[a]) * rate), 6)
  {
    assert ZeroWeights(columns) == map a | a in columns :: 0.0;
    CostFromZeroWeights(current, columns, rate);
  }

  /** A period following one without positions pays nothing: the weights carried in
      are empty and share no asset with the new ones. */
  lemma CostAfterFlatPeriod(rate: real, current: Weights)
    ensures ChargedCost(rate, current, map[]) == 0.0
  {
    if rate > 0.0 {
      CostOfDisjointWeights(current, map[], rate);
    }
  }

  // ---------------------------------------------------------------------------
  // A period without positions
  // ---------------------------------------------------------------------------

  /** A period whose weights are all NaN keeps the net balance on every date of its
      window and carries no weights into the next period. */
  lemma FlatPeriod(v: Variant, inp: Inputs, k: nat, st: LoopState)
    requires k < |inp.portfolios| && WellFormedPrices(inp.prices)
    requires Step(v, inp, k, st).Success? && |Step(v, inp, k, st).value.weights| == 0
    ensures var p := Step(v, inp, k, st).value;
            && p.drifted == map[]
            && forall i :: 0 <= i < |p.segment| ==> p.segment[i].value == p.net
  {
    var p := Step(v, inp, k, st).value;
    NetIsCents(p.opening, p.cost);
  }

  /** Every balance a period records is whole cents: `bt` rounds the path to 2 places. */
  lemma SegmentInCents(v: Variant, inp: Inputs, k: nat, st: LoopState)
    requires k < |inp.portfolios| && WellFormedPrices(inp.prices)
    requires Step(v, inp, k, st).Success?
    ensures var p := Step(v, inp, k, st).value;
            forall t :: 0 <= t < |p.segment| ==> Round(p.segment[t].value, 2) == p.segment[t].value
  {
    var p := Step(v, inp, k, st).value;
    StepSimulatesWindow(v, inp, k, st);
    var frame := PctChange(v, Window(inp.prices.rows, p.start, p.to), p.weights.Keys);
    forall t | 0 <= t < |p.segment|
      ensures Round(p.segment[t].value, 2) == p.segment[t].value
    {
      if |p.weights| == 0 {
        RoundIdempotent(p.net, 2);
      } else {
        RoundIdempotent(MapSum(NavRow(v, p.weights, p.net, frame, t)), 2);
      }
    }
  }

  /** A period without positions that opens with a whole-cents balance pays nothing
      and records exactly that balance on every date. */
  lemma FlatKeepsBalance(v: Variant, inp: Inputs, k: nat, st: LoopState)
    requires k < |inp.portfolios| && WellFormedPrices(inp.prices)
    requires Step(v, inp, k, st).Success? && |Step(v, inp, k, st).value.weights| == 0
    requires Round(st.balance, 2) == st.balance
    ensures var p := Step(v, inp, k, st).value;
            && p.cost == 0.0
            && forall i :: 0 <= i < |p.segment| ==> p.segment[i].value == st.balance
  {
    var p := Step(v, inp, k, st).value;
    if inp.transCost > 0.0 {
      CostOfDisjointWeights(p.weights, p.prev, inp.transCost);
    }
    assert p.net == Round(st.balance, 2);
    FlatPeriod(v, inp, k, st);
  }

  /** The net balance is already whole cents. */
  lemma NetIsCents(balance: real, cost: real)
    ensures Round(NetBalance(balance, cost), 2) == NetBalance(balance, cost)
  {
    RoundIdempotent(balance * (1.0 - cost), 2);
  }

  // ---------------------------------------------------------------------------
  // A period with positions
  // ---------------------------------------------------------------------------

  /** Each held asset's position at row t of a window: its allocation scaled by the
      price ratio from the window's first row to row t + 1, rounded to cents. */
  ghost function HeldValues(w: Weights, balance: real, window: seq<PriceRow>, t: nat): (navs: map<Asset, real>)
    requires PricedRows(window, w.Keys) && t + 1 < |window|
    ensures navs.Keys == w.Keys
  {
    map a | a in w :: Round(Position(w[a] * balance, window[t + 1].prices[a] / window[0].prices[a]), 2)
  }

  /** The positions of `balance_calc` in src/utils.py at row t are the held values. */
  lemma NavRowTracksPrices(w: Weights, balance: real, window: seq<PriceRow>, t: nat)
    requires PricedRows(window, w.Keys) && t + 1 < |window|
    ensures t < |PctChange(Current, window, w.Keys)|
    ensures NavRow(Current, w, balance, PctChange(Current, window, w.Keys), t) == HeldValues(w, balance, window, t)
  {
    var frame := PctChange(Current, window, w.Keys);
    var navs, held := NavRow(Current, w, balance, frame, t), HeldValues(w, balance, window, t);
    forall a | a in w
      ensures navs[a] == held[a]
    {
      NavTracksPrices(w, balance, window, a, t);
    }
  }

  /** In a period that holds assets, the balance on each date of the path is the sum
      over held assets of the cents-rounded allocation `weight * net` scaled by the
      asset's price ratio since the first price row of the period, rounded to cents
      again by `bt`. */
  lemma HeldPeriodTracksPrices(inp: Inputs, k: nat, st: LoopState)
    requires k < |inp.portfolios| && WellFormedPrices(inp.prices)
    requires Step(Current, inp, k, st).Success? && |Step(Current, inp, k, st).value.weights| > 0
    ensures var p := Step(Current, inp, k, st).value;
            var window := Window(inp.prices.rows, p.start, p.to);
            && PricedRows(window, p.weights.Keys)
            && |p.segment| + 1 == |window|
            && forall t :: 0 <= t < |p.segment| ==>
                 && p.segment[t].date == window[t + 1].date
                 && p.segment[t].value == Round(MapSum(HeldValues(p.weights, p.net, window, t)), 2)
  {
    var p := Step(Current, inp, k, st).value;
    StepSimulatesWindow(Current, inp, k, st);
    HeldPathTracksPrices(p.weights, p.net, Window(inp.prices.rows, p.start, p.to), p.segment, p.drifted);
  }

  /** HeldPeriodTracksPrices for one simulation, apart from the loop. */
  lemma HeldPathTracksPrices(w: Weights, net: real, window: seq<PriceRow>, segment: seq<Point>, drifted: Weights)
    requires |w| > 0 && PricedRows(window, w.Keys)
    requires SimulatePeriod(Current, w, net, PctChange(Current, window, w.Keys)) == Success(SimOutcome(segment, drifted))
    ensures |segment| + 1 == |window|
    ensures forall t :: 0 <= t < |segment| ==>
              && segment[t].date == window[t + 1].date
              && segment[t].value == Round(MapSum(HeldValues(w, net, window, t)), 2)
  {
    var frame := PctChange(Current, window, w.Keys);
    forall t | 0 <= t < |segment|
      ensures segment[t].date == window[t + 1].date
      ensures segment[t].value == Round(MapSum(HeldValues(w, net, window, t)), 2)
    {
      assert segment[t].date == frame[t].date;
      NavRowTracksPrices(w, net, window, t);
    }
  }

  /** A period's path and drifted weights are the simulation of its net balance over
      the returns of its price window. */
  lemma StepSimulatesWindow(v: Variant, inp: Inputs, k: nat, st: LoopState)
    requires k < |inp.portfolios| && WellFormedPrices(inp.prices)
    requires Step(v, inp, k, st).Success?
    ensures var p := Step(v, inp, k, st).value;
            var window := Window(inp.prices.rows, p.start, p.to);
            && PricedRows(window, p.weights.Keys)
            && SimulatePeriod(v, p.weights, p.net, PctChange(v, window, p.weights.Keys))
               == Success(SimOutcome(p.segment, p.drifted))
  {
    var p := Step(v, inp, k, st).value;
    WindowPriced(inp.prices, p.weights.Keys, p.start, p.to);
    var window := Window(inp.prices.rows, p.start, p.to);
    assert PeriodReturns(v, inp.prices, p.weights.Keys, p.start, p.to) == Success(PctChange(v, window, p.weights.Keys));
  }

  /** Every row of a window prices the held assets positively. */
  lemma WindowPriced(prices: PriceTable, held: set<Asset>, start: Date, to: Date)
    requires WellFormedPrices(prices) && held <= prices.columns
    ensures PricedRows(Window(prices.rows, start, to), held)
  {
    var window := Window(prices.rows, start, to);
    WindowMembers(prices.rows, start, to);
    forall i | 0 <= i < |window|
      ensures window[i] in prices.rows
    {
      assert window[i] in window;
    }
  }
}
