/** The two accounting functions of the engine, `balance_calc` and
    `calculate_rebalance_cost` (src/utils.py; inv_bt/backtester.py holds an older copy
    whose `balance_calc` rounds differently, selected here by `Variant`). */
module Utils {
  import opened Rounding
  import opened MapSums
  import opened Results
  import opened TimeSeries

  /** A weight per held asset. Assets whose weight is NaN are not in the map. */
  type Weights = map<Asset, real>

  /** Which copy of the engine: `Current` is src/utils.py with __init__.py, `Legacy`
      is inv_bt/backtester.py. */
  datatype Variant = Current | Legacy

  /** One row of a period's return frame: each held asset's simple return since the
      previous row. */
  datatype ReturnRow = ReturnRow(date: Date, pct: map<Asset, real>)

  /** What `balance_calc` returns: the balance path and the drifted weights. */
  datatype SimOutcome = SimOutcome(path: seq<Point>, last: Weights)

  /** Why `balance_calc` produces no usable result. */
  datatype SimError =
    | EmptyReturns      // `iloc[-1]` on a frame without rows
    | ZeroFinalBalance  // the drifted weights divide by a final balance of 0

  function Abs(x: real): (r: real)
    ensures r >= 0.0
    ensures r == x || r == -x
  {
    if x < 0.0 then -x else x
  }

  // ---------------------------------------------------------------------------
  // calculate_rebalance_cost
  // ---------------------------------------------------------------------------

  /** `(abs(current - previous) * rate).sum().round(6)`. pandas aligns the two series
      on their labels: an asset held on one side only gives NaN, which `.sum()` skips,
      so only assets held on both sides are charged. */
  ghost function RebalanceCost(current: Weights, previous: Weights, rate: real): real
  {
    Round(MapSum(Charges(current, previous, rate)), 6)
  }

  /** The per-asset charges that `RebalanceCost` adds up. */
  ghost function Charges(current: Weights, previous: Weights, rate: real): (charges: map<Asset, real>)
    ensures charges.Keys == current.Keys * previous.Keys
  {
    map a | a in current.Keys * previous.Keys :: Abs(current[a] - previous[a]) * rate
  }

  /** A non-negative rate never pays the trader. */
  lemma CostNonNegative(current: Weights, previous: Weights, rate: real)
    requires rate >= 0.0
    ensures RebalanceCost(current, previous, rate) >= 0.0
  {
    var charges := Charges(current, previous, rate);
    forall a | a in charges
      ensures charges[a] >= 0.0
    {
      assert charges[a] == Abs(current[a] - previous[a]) * rate;
    }
    MapSumNonNegative(charges);
    RoundNonNegative(MapSum(charges), 6);
  }

  /** Keeping the same weights costs nothing. */
  lemma CostOfUnchangedWeights(w: Weights, rate: real)
    ensures RebalanceCost(w, w, rate) == 0.0
  {
    MapSumOfZeros(Charges(w, w, rate));
    RoundZero(6);
  }

  /** Turnover is the same read forwards or backwards. */
  lemma CostSymmetric(current: Weights, previous: Weights, rate: real)
    ensures RebalanceCost(current, previous, rate) == RebalanceCost(previous, current, rate)
  {
    var forward, backward := Charges(current, previous, rate), Charges(previous, current, rate);
    assert forward.Keys == backward.Keys;
    forall a | a in forward
      ensures forward[a] == backward[a]
    {
      AbsSwap(current[a], previous[a]);
    }
    assert forward == backward;
  }

  lemma AbsSwap(x: real, y: real)
    ensures Abs(x - y) == Abs(y - x)
  {
  }

  /** An asset held on one side only adds nothing to the cost, whatever its weight. */
  lemma CostIgnoresOneSidedAsset(current: Weights, previous: Weights, rate: real, a: Asset)
    requires a in current && a !in previous
    ensures RebalanceCost(current, previous, rate) == RebalanceCost(current - {a}, previous, rate)
  {
    var without := current - {a};
    assert current.Keys * previous.Keys == without.Keys * previous.Keys;
    var c1, c2 := Charges(current, previous, rate), Charges(without, previous, rate);
    assert forall b :: b in c2 ==> c1[b] == c2[b];
    assert c1 == c2;
  }

  /** Nothing is charged when the two sides share no asset, in particular when one of
      them is empty. */
  lemma CostOfDisjointWeights(current: Weights, previous: Weights, rate: real)
    requires current.Keys * previous.Keys == {}
    ensures RebalanceCost(current, previous, rate) == 0.0
  {
    assert Charges(current, previous, rate) == map[];
    RoundZero(6);
  }

  /** Against an all-zero previous portfolio that lists every held asset, the cost is the
      rate times the gross exposure (rounded to 6 places). */
  lemma CostFromZeroWeights(current: Weights, columns: set<Asset>, rate: real)
    requires current.Keys <= columns
    ensures RebalanceCost(current, map a | a in columns :: 0.0, rate)
         == Round(MapSum(map a | a in current :: Abs(current[a]) * rate), 6)
  {
    var zeros := map a | a in columns :: 0.0;
    var charged, gross := Charges(current, zeros, rate), map a | a in current :: Abs(current[a]) * rate;
    assert charged.Keys == gross.Keys;
    assert forall a :: a in current ==> current[a] - zeros[a] == current[a];
    assert forall a :: a in gross ==> charged[a] == gross[a];
    assert charged == gross;
  }

  // ---------------------------------------------------------------------------
  // balance_calc
  // ---------------------------------------------------------------------------

  /** Every held asset has a return in this row, and not below -100%: there
      `exp(cumsum(log(1 + r)))` is the running product of the `1 + r`. */
  ghost predicate Covers(row: ReturnRow, held: set<Asset>)
  {
    forall a :: a in held ==> a in row.pct && row.pct[a] >= -1.0
  }

  ghost predicate FrameCovers(frame: seq<ReturnRow>, held: set<Asset>)
  {
    forall t :: 0 <= t < |frame| ==> Covers(frame[t], held)
  }

  /** Growth of one unit of asset a from the start of the frame to row t:
      Π_{s <= t} (1 + r_s), which is what `np.exp(np.log(1 + r).cumsum())` computes. */
  ghost function Growth(frame: seq<ReturnRow>, a: Asset, t: nat): (g: real)
    requires t < |frame|
    requires forall s :: 0 <= s <= t ==> a in frame[s].pct && frame[s].pct[a] >= -1.0
    ensures g >= 0.0
  {
    var before := if t == 0 then 1.0 else Growth(frame, a, t - 1);
    var step := 1.0 + frame[t].pct[a];
    assert before * step >= 0.0;
    before * step
  }

  /** An allocation grown by a factor. */
  ghost function Position(allocation: real, growth: real): real
  {
    allocation * growth
  }

  /** The value of the position in asset a at row t, for a starting balance. */
  ghost function Nav(v: Variant, w: Weights, balance: real, frame: seq<ReturnRow>, a: Asset, t: nat): real
    requires a in w && t < |frame| && FrameCovers(frame, w.Keys)
  {
    match v
    case Current => Round(Position(w[a] * balance, Growth(frame, a, t)), 2)
    case Legacy => Position(w[a] * balance, Round(Growth(frame, a, t), 6))
  }

  /** Every position's value at row t. */
  ghost function NavRow(v: Variant, w: Weights, balance: real, frame: seq<ReturnRow>, t: nat): (navs: map<Asset, real>)
    requires t < |frame| && FrameCovers(frame, w.Keys)
    ensures navs.Keys == w.Keys
    ensures forall a :: a in w ==> navs[a] == Nav(v, w, balance, frame, a, t)
  {
    map a | a in w :: Nav(v, w, balance, frame, a, t)
  }

  lemma DivideSelf(x: real)
    requires x != 0.0
    ensures x / x == 1.0
  {
  }

  /** The drifted weights: each position over the total, so that they add up to 1. */
  ghost function Drifted(navs: map<Asset, real>, final: real): (w: Weights)
    requires final != 0.0 && MapSum(navs) == final
    ensures w.Keys == navs.Keys
    ensures MapSum(w) == 1.0
    ensures forall a :: a in w ==> w[a] == navs[a] / final
  {
    MapSumDivided(navs, final);
    DivideSelf(final);
    Divided(navs, final)
  }

  /** The path of a period without positions: the balance on every date of the frame. */
  ghost function FlatPath(balance: real, frame: seq<ReturnRow>): (path: seq<Point>)
    ensures |path| == |frame|
    ensures forall t :: 0 <= t < |frame| ==> path[t] == Point(frame[t].date, balance)
  {
    seq(|frame|, t requires 0 <= t < |frame| => Point(frame[t].date, balance))
  }

  /** The path of a period with positions: the positions' total on every date. */
  ghost function CompoundedPath(v: Variant, w: Weights, balance: real, frame: seq<ReturnRow>): (path: seq<Point>)
    requires FrameCovers(frame, w.Keys)
    ensures |path| == |frame|
    ensures forall t :: 0 <= t < |frame| ==> path[t] == Point(frame[t].date, MapSum(NavRow(v, w, balance, frame, t)))
  {
    seq(|frame|, t requires 0 <= t < |frame| => Point(frame[t].date, MapSum(NavRow(v, w, balance, frame, t))))
  }

  /** `balance_calc`: simulates one period. With held assets, each position compounds
      from `weight * balance`, the balance path sums the positions per date, and the
      drifted weights are the last positions over the last balance. With no held asset
      the balance stays flat on every date of the frame. */
  ghost function BalanceCalc(v: Variant, w: Weights, balance: real, frame: seq<ReturnRow>): (r: Result<SimOutcome, SimError>)
    requires FrameCovers(frame, w.Keys)
    ensures r.Success? ==> |r.value.path| == |frame|
    ensures r.Success? ==> forall t :: 0 <= t < |frame| ==> r.value.path[t].date == frame[t].date
    ensures |w| == 0 ==> r.Success?
    ensures |w| == 0 ==> forall t :: 0 <= t < |frame| ==> r.value.path[t].value == balance
    ensures |w| == 0 ==> r.value.last == map[]
    ensures |w| > 0 && |frame| == 0 ==> r == Failure(EmptyReturns)
    ensures r.Success? && |w| > 0 ==> r.value.last.Keys == w.Keys
    ensures r.Success? && |w| > 0 ==> MapSum(r.value.last) == 1.0
    ensures r.Success? && |w| > 0 ==>
              forall t :: 0 <= t < |frame| ==> r.value.path[t].value == MapSum(NavRow(v, w, balance, frame, t))
    ensures r.Success? && |w| > 0 ==>
              r.value.path[|frame| - 1].value != 0.0 &&
              forall a :: a in w ==> r.value.last[a] == Nav(v, w, balance, frame, a, |frame| - 1) / r.value.path[|frame| - 1].value
    ensures |w| > 0 && |frame| > 0 ==> (r.Failure? <==> MapSum(NavRow(v, w, balance, frame, |frame| - 1)) == 0.0)
  {
    if |w| == 0 then
      Success(SimOutcome(FlatPath(balance, frame), map[]))
    else if |frame| == 0 then
      Failure(EmptyReturns)
    else
      var path := CompoundedPath(v, w, balance, frame);
      var navs := NavRow(v, w, balance, frame, |frame| - 1);
      var final := path[|frame| - 1].value;
      if final == 0.0 then
        Failure(ZeroFinalBalance)
      else
        var last := Drifted(navs, final);
        Success(SimOutcome(path, last))
  }
}
