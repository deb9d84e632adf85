/** The rebalance loop `bt` (__init__.py, and its older copy in inv_bt/backtester.py):
    walks the rebalance dates, charges the turnover cost, simulates each period with
    `balance_calc`, threads the balance and the drifted weights into the next period,
    and gathers the per-period balance paths. */
module Backtest {
  import opened Rounding
  import opened MapSums
  import opened Results
  import opened TimeSeries
  import opened Utils

  /** The price table after resampling: its asset columns and its rows. */
  datatype PriceTable = PriceTable(columns: set<Asset>, rows: seq<PriceRow>)

  /** One column of the portfolios table: a rebalance date and a weight per asset row,
      `None` where the cell is NaN (asset not held). */
  datatype Rebalance = Rebalance(date: Date, weights: map<Asset, Option<real>>)

  /** The arguments of `bt`, apart from the reporting frequency. */
  datatype Inputs = Inputs(
    portfolios: seq<Rebalance>,
    prices: PriceTable,
    endDate: Date,
    transCost: real,
    startingBalance: real)

  /** Why a run produces no result: each is an exception `bt` lets escape. */
  datatype BtError =
    | NoRebalanceDates               // `rebalance_dates[0]` on an empty table
    | MissingPriceColumn             // a held asset is not a price column (KeyError)
    | SimulationFailed(why: SimError) // `balance_calc` gave None, which is then indexed
    | EmptySegment                   // `balance_df.iloc[-1]` on an empty path
    | NothingToConcatenate           // `pd.concat` of no segments

  /** What the loop carries from one period into the next. */
  datatype LoopState = LoopState(balance: real, start: Date, last: Weights)

  /** Everything one iteration of the loop determines. */
  datatype Period = Period(
    index: nat,
    start: Date,        // `returns_start_date`
    to: Date,           // `date_to`
    weights: Weights,   // this period's weights, NaN dropped
    prev: Weights,      // `last_weights` charged against
    opening: real,      // balance before the cost
    cost: real,         // `reb_cost`
    net: real,          // `net_balance`
    segment: seq<Point>,// `balance_df`, rounded to cents
    drifted: Weights)   // `sim['last_portfolio']`

  /** Prices a positive number in every column on every row, rows in date order. */
  ghost predicate WellFormedPrices(table: PriceTable)
  {
    && StrictlyIncreasing(table.rows)
    && forall i :: 0 <= i < |table.rows| ==> PositiveRow(table.rows[i], table.columns)
  }

  ghost predicate PositiveRow(row: PriceRow, columns: set<Asset>)
  {
    && row.prices.Keys == columns
    && forall a :: a in columns ==> row.prices[a] > 0.0
  }

  // ---------------------------------------------------------------------------
  // One period
  // ---------------------------------------------------------------------------

  /** `portfolios.iloc[:, k].dropna()`. */
  function DropNa(column: map<Asset, Option<real>>): (w: Weights)
    ensures forall a :: a in w <==> a in column && column[a].Some?
    ensures forall a :: a in w ==> column[a] == Some(w[a])
  {
    map a | a in column && column[a].Some? :: column[a].value
  }

  /** The simple return between two positive prices; the older copy rounds it to 6
      places. It is never below -100%. */
  ghost function Change(v: Variant, before: real, after: real): (r: real)
    requires before > 0.0 && after > 0.0
    ensures r >= -1.0
    ensures v == Current ==> (1.0 + r) * before == after
  {
    var pct := after / before - 1.0;
    assert pct >= -1.0;
    match v
    case Current => pct
    case Legacy => RoundAtLeastInteger(pct, -1, 6); Round(pct, 6)
  }

  ghost predicate PricedRows(window: seq<PriceRow>, held: set<Asset>)
  {
    forall i :: 0 <= i < |window| ==> forall a :: a in held ==> a in window[i].prices && window[i].prices[a] > 0.0
  }

  /** `window[held].pct_change(fill_method=None).dropna()`. The first row has no
      predecessor and is all NaN, so `dropna` removes it, unless there are no held
      columns at all: a row with no columns has no NaN and every row is kept. */
  ghost function PctChange(v: Variant, window: seq<PriceRow>, held: set<Asset>): (frame: seq<ReturnRow>)
    requires PricedRows(window, held)
    ensures held == {} ==> |frame| == |window|
    ensures held == {} ==> forall i :: 0 <= i < |frame| ==> frame[i].date == window[i].date
    ensures held != {} ==> |frame| == if |window| == 0 then 0 else |window| - 1
    ensures held != {} ==> forall i :: 0 <= i < |frame| ==> frame[i].date == window[i + 1].date
    ensures FrameCovers(frame, held)
  {
    if held == {} then
      seq(|window|, i requires 0 <= i < |window| => ReturnRow(window[i].date, map[]))
    else if |window| == 0 then
      []
    else
      seq(|window| - 1, i requires 0 <= i < |window| - 1 =>
        ReturnRow(window[i + 1].date,
                  map a | a in held :: Change(v, window[i].prices[a], window[i + 1].prices[a])))
  }

  /** The period's return frame: the price rows from start to to, held columns only. */
  ghost function PeriodReturns(v: Variant, prices: PriceTable, held: set<Asset>, start: Date, to: Date): (r: Result<seq<ReturnRow>, BtError>)
    requires WellFormedPrices(prices)
    ensures r.Failure? <==> !(held <= prices.columns)
    ensures r.Success? ==> FrameCovers(r.value, held)
  {
    if !(held <= prices.columns) then Failure(MissingPriceColumn)
    else
      var window := Window(prices.rows, start, to);
      WindowMembers(prices.rows, start, to);
      assert PricedRows(window, held) by {
        forall i | 0 <= i < |window|
          ensures window[i] in prices.rows
        {
          assert window[i] in window;
        }
      }
      Success(PctChange(v, window, held))
  }

  /** A period's balance path is in strict date order and dated inside [start, to];
      strictly after start when the period holds assets. */
  ghost predicate SegmentWithin(segment: seq<Point>, start: Date, to: Date, holds: bool)
  {
    && StrictlySortedByDate(segment)
    && DatedWithin(segment, start, to)
    && (holds ==> forall i :: 0 <= i < |segment| ==> start < segment[i].date)
  }

  /** The return frame of a period is in date order, inside [start, to], and strictly
      after start when some asset is held (the start row only anchors the returns). */
  lemma PeriodReturnsDates(v: Variant, prices: PriceTable, held: set<Asset>, start: Date, to: Date)
    requires WellFormedPrices(prices) && held <= prices.columns
    ensures PeriodReturns(v, prices, held, start, to).Success?
    ensures var frame := PeriodReturns(v, prices, held, start, to).value;
            && (forall i, j :: 0 <= i < j < |frame| ==> frame[i].date < frame[j].date)
            && (forall i :: 0 <= i < |frame| ==> start <= frame[i].date <= to)
            && (held != {} ==> forall i :: 0 <= i < |frame| ==> start < frame[i].date)
  {
    WindowIncreasing(prices.rows, start, to);
  }

  /** `reb_cost`: nothing when the rate is not positive, the turnover cost otherwise. */
  ghost function ChargedCost(rate: real, current: Weights, previous: Weights): real
  {
    if rate <= 0.0 then 0.0 else RebalanceCost(current, previous, rate)
  }

  /** `net_balance`: the balance after paying the cost fraction, rounded to cents. */
  ghost function NetBalance(balance: real, cost: real): real
  {
    Round(balance * (1.0 - cost), 2)
  }

  /** `balance_df = sim['balance_df'].round(d)`. */
  ghost function RoundPath(path: seq<Point>, d: nat): (r: seq<Point>)
    ensures |r| == |path|
    ensures forall i :: 0 <= i < |r| ==> r[i] == Point(path[i].date, Round(path[i].value, d))
  {
    seq(|path|, i requires 0 <= i < |path| => Point(path[i].date, Round(path[i].value, d)))
  }

  /** `date_to` of iteration k: the next rebalance date, or the end date for the last. */
  function PeriodEnd(inp: Inputs, k: nat): Date
    requires k < |inp.portfolios|
  {
    if k + 1 < |inp.portfolios| then inp.portfolios[k + 1].date else inp.endDate
  }

  /** One iteration of the loop that is not broken out of. */
  ghost function Step(v: Variant, inp: Inputs, k: nat, st: LoopState): (r: Result<Period, BtError>)
    requires k < |inp.portfolios| && WellFormedPrices(inp.prices)
    ensures r.Success? ==> r.value.index == k && r.value.start == st.start && r.value.to == PeriodEnd(inp, k)
    ensures r.Success? ==> r.value.weights == DropNa(inp.portfolios[k].weights)
    ensures r.Success? ==> r.value.weights.Keys <= inp.prices.columns
    ensures r.Success? ==> r.value.prev == st.last && r.value.opening == st.balance
    ensures r.Success? ==> |r.value.segment| > 0
    ensures r.Success? ==> r.value.cost == ChargedCost(inp.transCost, r.value.weights, r.value.prev)
    ensures r.Success? ==> r.value.net == NetBalance(r.value.opening, r.value.cost)
    ensures r.Success? ==> SegmentWithin(r.value.segment, r.value.start, r.value.to, |r.value.weights| > 0)
    ensures r.Success? && |r.value.weights| == 0 ==> r.value.drifted == map[]
    ensures r.Success? && |r.value.weights| == 0 ==>
              forall i :: 0 <= i < |r.value.segment| ==> r.value.segment[i].value == Round(r.value.net, 2)
    ensures r.Success? && |r.value.weights| > 0 ==>
              r.value.drifted.Keys == r.value.weights.Keys && MapSum(r.value.drifted) == 1.0
  {
    var w := DropNa(inp.portfolios[k].weights);
    var to := PeriodEnd(inp, k);
    var frame :- PeriodReturns(v, inp.prices, w.Keys, st.start, to);
    PeriodReturnsDates(v, inp.prices, w.Keys, st.start, to);
    var cost := ChargedCost(inp.transCost, w, st.last);
    var net := NetBalance(st.balance, cost);
    var sim :- SimulatePeriod(v, w, net, frame);
    SegmentDates(sim.path, frame, st.start, to, |w| > 0);
    Success(Period(k, st.start, to, w, st.last, st.balance, cost, net, sim.path, sim.last))
  }

  /** `balance_calc` followed by rounding its path to cents, failing where `bt` does:
      on a None result and on an empty path. */
  ghost function SimulatePeriod(v: Variant, w: Weights, net: real, frame: seq<ReturnRow>): (r: Result<SimOutcome, BtError>)
    requires FrameCovers(frame, w.Keys)
    ensures r.Success? ==> |r.value.path| == |frame| > 0
    ensures r.Success? ==> forall t :: 0 <= t < |frame| ==> r.value.path[t].date == frame[t].date
    ensures r.Success? && |w| == 0 ==> r.value.last == map[]
    ensures r.Success? && |w| == 0 ==> forall t :: 0 <= t < |frame| ==> r.value.path[t].value == Round(net, 2)
    ensures r.Success? && |w| > 0 ==> r.value.last.Keys == w.Keys && MapSum(r.value.last) == 1.0
    ensures r.Success? && |w| > 0 ==>
              forall t :: 0 <= t < |frame| ==> r.value.path[t].value == Round(MapSum(NavRow(v, w, net, frame, t)), 2)
  {
    var sim := BalanceCalc(v, w, net, frame);
    if sim.Failure? then Failure(SimulationFailed(sim.error))
    else
      var segment := RoundPath(sim.value.path, 2);
      if |segment| == 0 then Failure(EmptySegment)
      else Success(SimOutcome(segment, sim.value.last))
  }

  /** A path dated like a frame inherits the frame's date order and bounds. */
  lemma SegmentDates(path: seq<Point>, frame: seq<ReturnRow>, start: Date, to: Date, holds: bool)
    requires |path| == |frame|
    requires forall t :: 0 <= t < |frame| ==> path[t].date == frame[t].date
    requires forall i, j :: 0 <= i < j < |frame| ==> frame[i].date < frame[j].date
    requires forall i :: 0 <= i < |frame| ==> start <= frame[i].date <= to
    requires holds ==> forall i :: 0 <= i < |frame| ==> start < frame[i].date
    ensures SegmentWithin(path, start, to, holds)
  {
  }

  /** The loop from iteration k on. The last iteration breaks out, simulating nothing,
      when its start date is already the end date. */
  ghost function Loop(v: Variant, inp: Inputs, k: nat, st: LoopState): (r: Result<seq<Period>, BtError>)
    requires WellFormedPrices(inp.prices)
    decreases |inp.portfolios| - k
  {
    if k >= |inp.portfolios| then Success([])
    else if k + 1 == |inp.portfolios| && st.start == inp.endDate then Success([])
    else
      var p :- Step(v, inp, k, st);
      var rest :- Loop(v, inp, k + 1, LoopState(Last(p.segment).value, p.to, p.drifted));
      Success([p] + rest)
  }

  /** `last_weights` before the first period: 0 for every price column. */
  function ZeroWeights(columns: set<Asset>): (w: Weights)
    ensures w.Keys == columns
    ensures forall a :: a in w ==> w[a] == 0.0
  {
    map a | a in columns :: 0.0
  }

  ghost function InitialState(inp: Inputs): LoopState
    requires |inp.portfolios| > 0
  {
    LoopState(inp.startingBalance, inp.portfolios[0].date, ZeroWeights(inp.prices.columns))
  }

  /** Every simulated period of a run. */
  ghost function Periods(v: Variant, inp: Inputs): Result<seq<Period>, BtError>
    requires WellFormedPrices(inp.prices)
  {
    if |inp.portfolios| == 0 then Failure(NoRebalanceDates)
    else Loop(v, inp, 0, InitialState(inp))
  }

  function Segments(ps: seq<Period>): (segs: seq<seq<Point>>)
    ensures |segs| == |ps|
    ensures forall i :: 0 <= i < |ps| ==> segs[i] == ps[i].segment
  {
    seq(|ps|, i requires 0 <= i < |ps| => ps[i].segment)
  }

  /** Gathering the segments: concatenate, set the starting balance at the first
      rebalance date, sort by date. */
  function Assemble(segments: seq<seq<Point>>, first: Date, startingBalance: real): seq<Point>
  {
    SortByDate(SetAt(Concat(segments), first, startingBalance))
  }

  /** `bt` of __init__.py, before the final resampling. */
  ghost function Bt(inp: Inputs): Result<seq<Point>, BtError>
    requires WellFormedPrices(inp.prices)
  {
    var ps :- Periods(Current, inp);
    if |ps| == 0 then Failure(NothingToConcatenate)
    else Success(Assemble(Segments(ps), inp.portfolios[0].date, inp.startingBalance))
  }

  /** `bt` of __init__.py as intended when no period is simulated: only the
      starting balance is recorded, instead of `pd.concat` failing on no segments. */
  ghost function BtIntended(inp: Inputs): Result<seq<Point>, BtError>
    requires WellFormedPrices(inp.prices)
  {
    var ps :- Periods(Current, inp);
    Success(Assemble(Segments(ps), inp.portfolios[0].date, inp.startingBalance))
  }

  /** `bt` of inv_bt/backtester.py: the rounded path of each simulated period by index. */
  ghost function BtLegacy(inp: Inputs): Result<map<nat, seq<Point>>, BtError>
    requires WellFormedPrices(inp.prices)
  {
    var ps :- Periods(Legacy, inp);
    Success(map i: nat | i < |ps| :: ps[i].segment)
  }
}
