/** Properties of a whole run of the rebalance loop: which periods it simulates, how
    each hands its balance and weights to the next, what it is charged, and the balance
    series `bt` assembles from the periods. */
module LoopProperties {
  import opened Rounding
  import opened MapSums
  import opened Results
  import opened TimeSeries
  import opened Utils
  import opened Backtest
  import opened PeriodProperties

  // ---------------------------------------------------------------------------
  // The periods of a run
  // ---------------------------------------------------------------------------

  /** p is what iteration p.index makes of the state it is handed. */
  ghost predicate Simulated(v: Variant, inp: Inputs, p: Period)
    requires WellFormedPrices(inp.prices)
  {
    && p.index < |inp.portfolios|
    && Step(v, inp, p.index, LoopState(p.opening, p.start, p.prev)) == Success(p)
  }

  /** q takes over from p: it is the next iteration, starts on p's end date, opens
      with p's last (rounded) balance and is charged against p's drifted weights. */
  ghost predicate HandsOver(p: Period, q: Period)
  {
    && |p.segment| > 0
    && q.index == p.index + 1
    && q.start == p.to
    && q.opening == Last(p.segment).value
    && q.prev == p.drifted
  }

  ghost predicate Chained(ps: seq<Period>)
  {
    forall i, j :: 0 <= i && j == i + 1 && j < |ps| ==> HandsOver(ps[i], ps[j])
  }

  /** ps are iterations k, k + 1, ..., each simulated, each handing over to the next. */
  ghost predicate SimulatedFrom(v: Variant, inp: Inputs, ps: seq<Period>, k: nat)
    requires WellFormedPrices(inp.prices)
  {
    && (forall i :: 0 <= i < |ps| ==> ps[i].index == k + i && Simulated(v, inp, ps[i]))
    && Chained(ps)
  }

  lemma SimulatedFromCons(v: Variant, inp: Inputs, ps: seq<Period>, k: nat)
    requires WellFormedPrices(inp.prices) && |ps| > 0
    requires ps[0].index == k && Simulated(v, inp, ps[0])
    requires SimulatedFrom(v, inp, ps[1..], k + 1)
    requires |ps| > 1 ==> HandsOver(ps[0], ps[1])
    ensures SimulatedFrom(v, inp, ps, k)
  {
    var rest := ps[1..];
    forall i | 0 < i < |ps|
      ensures ps[i].index == k + i && Simulated(v, inp, ps[i])
    {
      assert ps[i] == rest[i - 1];
    }
    forall i, j | 0 < i && j == i + 1 && j < |ps|
      ensures HandsOver(ps[i], ps[j])
    {
      assert ps[i] == rest[i - 1] && ps[j] == rest[j - 1];
    }
  }

  /** The loop from iteration k on yields iterations k, k + 1, ..., each simulated
      from the state the previous one leaves, the first from the state it is given. */
  lemma {:induction false} LoopChains(v: Variant, inp: Inputs, k: nat, st: LoopState)
    requires WellFormedPrices(inp.prices)
    requires Loop(v, inp, k, st).Success?
    ensures SimulatedFrom(v, inp, Loop(v, inp, k, st).value, k)
    ensures var ps := Loop(v, inp, k, st).value;
            |ps| > 0 ==> ps[0].start == st.start && ps[0].opening == st.balance && ps[0].prev == st.last
    decreases |inp.portfolios| - k, 1
  {
    if k < |inp.portfolios| && !(k + 1 == |inp.portfolios| && st.start == inp.endDate) {
      LoopChainsStep(v, inp, k, st);
    } else {
      LoopBreaks(v, inp, k, st);
    }
  }

  /** LoopChains for an iteration that does not break out. */
  lemma {:induction false} LoopChainsStep(v: Variant, inp: Inputs, k: nat, st: LoopState)
    requires WellFormedPrices(inp.prices)
    requires Loop(v, inp, k, st).Success?
    requires k < |inp.portfolios| && !(k + 1 == |inp.portfolios| && st.start == inp.endDate)
    ensures SimulatedFrom(v, inp, Loop(v, inp, k, st).value, k)
    ensures var ps := Loop(v, inp, k, st).value;
            |ps| > 0 && ps[0].start == st.start && ps[0].opening == st.balance && ps[0].prev == st.last
    decreases |inp.portfolios| - k, 0
  {
    LoopStep(v, inp, k, st);
    var ps := Loop(v, inp, k, st).value;
    LoopChains(v, inp, k + 1, LoopState(Last(ps[0].segment).value, ps[0].to, ps[0].drifted));
    LoopStepSimulated(v, inp, k, st);
    SimulatedFromCons(v, inp, ps, k);
  }

  /** One unfolding of a successful loop that does not break out: its first period
      is iteration k simulated from the state given, and the rest is the loop from the
      state that period leaves. */
  lemma LoopStep(v: Variant, inp: Inputs, k: nat, st: LoopState)
    requires WellFormedPrices(inp.prices) && Loop(v, inp, k, st).Success?
    requires k < |inp.portfolios| && !(k + 1 == |inp.portfolios| && st.start == inp.endDate)
    ensures var ps := Loop(v, inp, k, st).value;
            && |ps| > 0
            && ps[0].index == k && ps[0].to == PeriodEnd(inp, k)
            && ps[0].start == st.start && ps[0].opening == st.balance && ps[0].prev == st.last
            && |ps[0].segment| > 0
            && Loop(v, inp, k + 1, LoopState(Last(ps[0].segment).value, ps[0].to, ps[0].drifted)) == Success(ps[1..])
  {
    var p := Step(v, inp, k, st).value;
    assert LoopState(p.opening, p.start, p.prev) == st;
  }

  /** The first period of a loop that does not break out is iteration k simulated
      from the state given. */
  lemma LoopStepSimulated(v: Variant, inp: Inputs, k: nat, st: LoopState)
    requires WellFormedPrices(inp.prices) && Loop(v, inp, k, st).Success?
    requires k < |inp.portfolios| && !(k + 1 == |inp.portfolios| && st.start == inp.endDate)
    ensures |Loop(v, inp, k, st).value| > 0 && Simulated(v, inp, Loop(v, inp, k, st).value[0])
  {
    var p := Step(v, inp, k, st).value;
    assert LoopState(p.opening, p.start, p.prev) == st;
  }

  /** How many periods a run simulates: one per rebalance date, except that the last
      one is skipped when it falls on the end date. */
  function Scheduled(inp: Inputs): (n: nat)
    ensures n <= |inp.portfolios|
    ensures n + 1 >= |inp.portfolios|
  {
    var count := |inp.portfolios|;
    if count > 0 && inp.portfolios[count - 1].date == inp.endDate then count - 1 else count
  }

  /** Period i of ps runs from rebalance date k + i to the next one. */
  ghost predicate FollowsSchedule(inp: Inputs, ps: seq<Period>, k: nat)
  {
    && k + |ps| <= |inp.portfolios|
    && forall i :: 0 <= i < |ps| ==>
         ps[i].start == inp.portfolios[k + i].date && ps[i].to == PeriodEnd(inp, k + i)
  }

  lemma FollowsScheduleCons(inp: Inputs, ps: seq<Period>, k: nat)
    requires k < |inp.portfolios| && |ps| > 0
    requires ps[0].start == inp.portfolios[k].date && ps[0].to == PeriodEnd(inp, k)
    requires FollowsSchedule(inp, ps[1..], k + 1)
    ensures FollowsSchedule(inp, ps, k)
  {
    var rest := ps[1..];
    forall i | 0 < i < |ps|
      ensures ps[i].start == inp.portfolios[k + i].date && ps[i].to == PeriodEnd(inp, k + i)
    {
      assert ps[i] == rest[i - 1] && k + i == (k + 1) + (i - 1);
    }
  }

  /** The loop yields nothing once past the last iteration or when the last one breaks
      out. */
  lemma LoopBreaks(v: Variant, inp: Inputs, k: nat, st: LoopState)
    requires WellFormedPrices(inp.prices)
    requires !(k < |inp.portfolios| && !(k + 1 == |inp.portfolios| && st.start == inp.endDate))
    ensures Loop(v, inp, k, st) == Success([])
  {
  }

  /** From iteration k on, the loop simulates the scheduled periods, iteration i
      running from the i-th rebalance date to the next one (the end date for the
      last). */
  lemma {:induction false} LoopSchedule(v: Variant, inp: Inputs, k: nat, st: LoopState)
    requires WellFormedPrices(inp.prices)
    requires k <= Scheduled(inp)
    requires k < |inp.portfolios| ==> st.start == inp.portfolios[k].date
    requires Loop(v, inp, k, st).Success?
    ensures |Loop(v, inp, k, st).value| == Scheduled(inp) - k
    ensures FollowsSchedule(inp, Loop(v, inp, k, st).value, k)
    decreases |inp.portfolios| - k, 1
  {
    if k < |inp.portfolios| && !(k + 1 == |inp.portfolios| && st.start == inp.endDate) {
      LoopScheduleStep(v, inp, k, st);
    } else {
      LoopBreaks(v, inp, k, st);
    }
  }

  /** LoopSchedule for an iteration that does not break out. */
  lemma {:induction false} LoopScheduleStep(v: Variant, inp: Inputs, k: nat, st: LoopState)
    requires WellFormedPrices(inp.prices)
    requires k <= Scheduled(inp)
    requires k < |inp.portfolios| ==> st.start == inp.portfolios[k].date
    requires Loop(v, inp, k, st).Success?
    requires k < |inp.portfolios| && !(k + 1 == |inp.portfolios| && st.start == inp.endDate)
    ensures |Loop(v, inp, k, st).value| == Scheduled(inp) - k
    ensures FollowsSchedule(inp, Loop(v, inp, k, st).value, k)
    decreases |inp.portfolios| - k, 0
  {
    LoopStep(v, inp, k, st);
    var ps := Loop(v, inp, k, st).value;
    LoopSchedule(v, inp, k + 1, LoopState(Last(ps[0].segment).value, ps[0].to, ps[0].drifted));
    FollowsScheduleCons(inp, ps, k);
  }

  /** A successful run simulates the scheduled periods in rebalance order: period i
      runs from the i-th rebalance date to the next one, the first opens with the
      starting balance against all-zero weights, and each hands over to the next. */
  lemma PeriodsSchedule(v: Variant, inp: Inputs)
    requires WellFormedPrices(inp.prices) && Periods(v, inp).Success?
    ensures |inp.portfolios| > 0
    ensures var ps := Periods(v, inp).value;
            && |ps| == Scheduled(inp)
            && (forall i :: 0 <= i < |ps| ==>
                  && ps[i].index == i
                  && Simulated(v, inp, ps[i])
                  && ps[i].start == inp.portfolios[i].date
                  && ps[i].to == PeriodEnd(inp, i))
            && (|ps| > 0 ==> ps[0].opening == inp.startingBalance && ps[0].prev == ZeroWeights(inp.prices.columns))
            && Chained(ps)
  {
    LoopChains(v, inp, 0, InitialState(inp));
    LoopSchedule(v, inp, 0, InitialState(inp));
  }

  /** Both copies of the engine simulate the same periods with the same weights. */
  lemma ScheduleSameForVariants(inp: Inputs)
    requires WellFormedPrices(inp.prices)
    requires Periods(Current, inp).Success? && Periods(Legacy, inp).Success?
    ensures var cs, ls := Periods(Current, inp).value, Periods(Legacy, inp).value;
            && |cs| == |ls|
            && forall i :: 0 <= i < |cs| ==>
                 cs[i].start == ls[i].start && cs[i].to == ls[i].to && cs[i].weights == ls[i].weights
  {
    PeriodsSchedule(Current, inp);
    PeriodsSchedule(Legacy, inp);
    var cs, ls := Periods(Current, inp).value, Periods(Legacy, inp).value;
    forall i | 0 <= i < |cs|
      ensures cs[i].weights == ls[i].weights
    {
      assert Simulated(Current, inp, cs[i]) && Simulated(Legacy, inp, ls[i]);
    }
  }

  // ---------------------------------------------------------------------------
  // Costs of a run
  // ---------------------------------------------------------------------------

  /** Every cost a run charges is non-negative and nothing when the rate is not
      positive; the first period pays the rate on its gross exposure; a period
      following one without positions pays nothing. */
  lemma RunCosts(v: Variant, inp: Inputs)
    requires WellFormedPrices(inp.prices) && Periods(v, inp).Success?
    ensures var ps := Periods(v, inp).value;
            && (forall i :: 0 <= i < |ps| ==> ps[i].cost >= 0.0)
            && (inp.transCost <= 0.0 ==> forall i :: 0 <= i < |ps| ==> ps[i].cost == 0.0)
            && (|ps| > 0 && inp.transCost > 0.0 ==>
                  ps[0].cost == Round(MapSum(map a | a in ps[0].weights :: Abs(ps[0].weights[a]) * inp.transCost), 6))
            && (forall i :: 0 < i < |ps| && |ps[i - 1].weights| == 0 ==> ps[i].cost == 0.0)
  {
    PeriodsSchedule(v, inp);
    var ps := Periods(v, inp).value;
    forall i | 0 <= i < |ps|
      ensures ps[i].cost == ChargedCost(inp.transCost, ps[i].weights, ps[i].prev)
      ensures ps[i].weights.Keys <= inp.prices.columns
      ensures |ps[i].weights| == 0 ==> ps[i].drifted == map[]
    {
      assert Simulated(v, inp, ps[i]);
    }
    forall i | 0 <= i < |ps|
      ensures ps[i].cost >= 0.0
      ensures inp.transCost <= 0.0 ==> ps[i].cost == 0.0
    {
      ChargedCostNonNegative(inp.transCost, ps[i].weights, ps[i].prev);
    }
    if |ps| > 0 && inp.transCost > 0.0 {
      FirstCost(inp.transCost, ps[0].weights, inp.prices.columns);
    }
    forall i | 0 < i < |ps| && |ps[i - 1].weights| == 0
      ensures ps[i].cost == 0.0
    {
      assert HandsOver(ps[i - 1], ps[i]);
      CostAfterFlatPeriod(inp.transCost, ps[i].weights);
    }
  }

  // ---------------------------------------------------------------------------
  // The assembled balance series
  // ---------------------------------------------------------------------------

  /** A period's path is non-empty, in strict date order and within its dates. */
  ghost predicate Shaped(p: Period)
  {
    |p.segment| > 0 && SegmentWithin(p.segment, p.start, p.to, |p.weights| > 0)
  }

  /** Every period of a successful run is shaped. */
  lemma RunShaped(v: Variant, inp: Inputs)
    requires WellFormedPrices(inp.prices) && Periods(v, inp).Success?
    ensures forall i :: 0 <= i < |Periods(v, inp).value| ==> Shaped(Periods(v, inp).value[i])
  {
    PeriodsSchedule(v, inp);
    var ps := Periods(v, inp).value;
    forall i | 0 <= i < |ps|
      ensures Shaped(ps[i])
    {
      assert Simulated(v, inp, ps[i]);
    }
  }

  /** In a chain of shaped periods, no period starts before the first one. */
  lemma {:induction false} StartsAfterFirst(ps: seq<Period>, i: nat)
    requires Chained(ps) && forall j :: 0 <= j < |ps| ==> Shaped(ps[j])
    requires i < |ps|
    ensures ps[0].start <= ps[i].start
    decreases i
  {
    if i > 0 {
      StartsAfterFirst(ps, i - 1);
      var p := ps[i - 1];
      assert Shaped(p) && HandsOver(p, ps[i]);
      assert p.start <= p.segment[0].date <= p.to;
    }
  }

  /** The paths of a chain of shaped periods are in order, and every entry is dated
      no earlier than the first period's start. */
  lemma ChainedInOrder(ps: seq<Period>)
    requires Chained(ps) && forall j :: 0 <= j < |ps| ==> Shaped(ps[j])
    ensures InOrder(Segments(ps))
    ensures forall i, x :: 0 <= i < |ps| && x in ps[i].segment ==> ps[0].start <= x.date
  {
    var segs := Segments(ps);
    forall i | 0 < i < |segs|
      ensures Last(segs[i - 1]).date <= segs[i][0].date
    {
      assert Shaped(ps[i - 1]) && Shaped(ps[i]) && HandsOver(ps[i - 1], ps[i]);
      assert Last(segs[i - 1]) == ps[i - 1].segment[|ps[i - 1].segment| - 1];
    }
    forall i, x | 0 <= i < |ps| && x in ps[i].segment
      ensures ps[0].start <= x.date
    {
      StartsAfterFirst(ps, i);
      assert Shaped(ps[i]);
      var t :| 0 <= t < |ps[i].segment| && ps[i].segment[t] == x;
    }
  }

  /** A period that holds assets begins strictly after everything the previous period
      recorded, since its first return row is dated after its start. A period without
      positions records its start date too, which the previous one may also hold; see
      FlatSegmentRepeatsLast. */
  lemma HeldSegmentsDisjoint(ps: seq<Period>, i: nat)
    requires Chained(ps) && forall j :: 0 <= j < |ps| ==> Shaped(ps[j])
    requires 0 < i < |ps| && |ps[i].weights| > 0
    ensures forall x, y :: x in ps[i - 1].segment && y in ps[i].segment ==> x.date < y.date
  {
    var p, q := ps[i - 1], ps[i];
    assert Shaped(p) && Shaped(q) && HandsOver(p, q);
    forall x, y | x in p.segment && y in q.segment
      ensures x.date < y.date
    {
      var s :| 0 <= s < |p.segment| && p.segment[s] == x;
      var t :| 0 <= t < |q.segment| && q.segment[t] == y;
    }
  }

  /** HeldSegmentsDisjoint for the periods of a run. */
  lemma RunHeldSegmentsDisjoint(v: Variant, inp: Inputs, i: nat)
    requires WellFormedPrices(inp.prices) && Periods(v, inp).Success?
    requires 0 < i < |Periods(v, inp).value| && |Periods(v, inp).value[i].weights| > 0
    ensures var ps := Periods(v, inp).value;
            forall x, y :: x in ps[i - 1].segment && y in ps[i].segment ==> x.date < y.date
  {
    PeriodsSchedule(v, inp);
    RunShaped(v, inp);
    HeldSegmentsDisjoint(Periods(v, inp).value, i);
  }

  /** A period without positions that records the previous period's last balance
      shares at most one date with the previous period, the last one, and records the
      very same point there; every other entry comes after it. */
  lemma FlatSegmentRepeatsLast(ps: seq<Period>, i: nat)
    requires Chained(ps) && forall j :: 0 <= j < |ps| ==> Shaped(ps[j])
    requires 0 < i < |ps| && |ps[i].weights| == 0
    requires forall y :: y in ps[i].segment ==> y.value == Last(ps[i - 1].segment).value
    ensures var last := Last(ps[i - 1].segment);
            forall y :: y in ps[i].segment ==>
              && (y.date == last.date ==> y == last)
              && (y.date != last.date ==> last.date < y.date)
  {
    var p, q := ps[i - 1], ps[i];
    assert Shaped(p) && Shaped(q) && HandsOver(p, q);
    var last := Last(p.segment);
    assert last.date <= p.to;
    forall y | y in q.segment
      ensures q.start <= y.date
    {
      var t :| 0 <= t < |q.segment| && q.segment[t] == y;
    }
  }

  /** For the periods of a run: a period without positions opens with the previous
      period's last balance, which is whole cents, pays nothing and records that
      balance, so where it shares a date with the previous period it repeats the same
      point, and the order of the two after sorting changes no value. */
  lemma RunFlatSegmentsRepeatLast(v: Variant, inp: Inputs, i: nat)
    requires WellFormedPrices(inp.prices) && Periods(v, inp).Success?
    requires 0 < i < |Periods(v, inp).value| && |Periods(v, inp).value[i].weights| == 0
    ensures |Periods(v, inp).value[i - 1].segment| > 0
    ensures var ps := Periods(v, inp).value;
            var last := Last(ps[i - 1].segment);
            forall y :: y in ps[i].segment ==>
              && (y.date == last.date ==> y == last)
              && (y.date != last.date ==> last.date < y.date)
  {
    PeriodsSchedule(v, inp);
    RunShaped(v, inp);
    var ps := Periods(v, inp).value;
    var p, q := ps[i - 1], ps[i];
    assert Simulated(v, inp, p) && Simulated(v, inp, q) && HandsOver(p, q);
    SegmentInCents(v, inp, p.index, LoopState(p.opening, p.start, p.prev));
    FlatKeepsBalance(v, inp, q.index, LoopState(q.opening, q.start, q.prev));
    forall y | y in q.segment
      ensures y.value == Last(p.segment).value
    {
      var t :| 0 <= t < |q.segment| && q.segment[t] == y;
    }
    FlatSegmentRepeatsLast(ps, i);
  }

  /** What `bt` assembles from the periods of a successful run: a date-ordered series
      that starts with the starting balance on the first rebalance date, holds nothing
      else on that date, holds every point of every period's path not on that date,
      and nothing else. */
  lemma AssembledTrajectory(inp: Inputs)
    requires WellFormedPrices(inp.prices) && Periods(Current, inp).Success?
    ensures |inp.portfolios| > 0
    ensures var ps := Periods(Current, inp).value;
            var d0 := inp.portfolios[0].date;
            var r := Assemble(Segments(ps), d0, inp.startingBalance);
            && SortedByDate(r)
            && |r| > 0 && r[0] == Point(d0, inp.startingBalance)
            && (forall x :: x in r && x.date == d0 ==> x == Point(d0, inp.startingBalance))
            && (forall x :: x in r && x.date != d0 ==> exists i :: 0 <= i < |ps| && x in ps[i].segment)
            && (forall i, x :: 0 <= i < |ps| && x in ps[i].segment && x.date != d0 ==> x in r)
  {
    PeriodsSchedule(Current, inp);
    RunShaped(Current, inp);
    AssembleChain(Periods(Current, inp).value, inp.portfolios[0].date, inp.startingBalance);
  }

  /** Assembling the paths of a chain of shaped periods that starts on d0. */
  lemma AssembleChain(ps: seq<Period>, d0: Date, startingBalance: real)
    requires Chained(ps) && forall j :: 0 <= j < |ps| ==> Shaped(ps[j])
    requires |ps| > 0 ==> ps[0].start == d0
    ensures var r := Assemble(Segments(ps), d0, startingBalance);
            && SortedByDate(r)
            && |r| > 0 && r[0] == Point(d0, startingBalance)
            && (forall x :: x in r && x.date == d0 ==> x == Point(d0, startingBalance))
            && (forall x :: x in r && x.date != d0 ==> exists i :: 0 <= i < |ps| && x in ps[i].segment)
            && (forall i, x :: 0 <= i < |ps| && x in ps[i].segment && x.date != d0 ==> x in r)
  {
    var segs := Segments(ps);
    ChainedInOrder(ps);
    ConcatSorted(segs);
    var c := Concat(segs);
    assert forall j :: 0 <= j < |c| ==> d0 <= c[j].date by {
      forall j | 0 <= j < |c|
        ensures d0 <= c[j].date
      {
        assert c[j] in c;
      }
    }
    SetEarliestAndSort(c, d0, startingBalance);
  }

  /** `bt` of __init__.py, when it succeeds, gives the assembled series of its run. */
  lemma BtTrajectory(inp: Inputs)
    requires WellFormedPrices(inp.prices) && Bt(inp).Success?
    ensures Periods(Current, inp).Success? && |inp.portfolios| > 0
    ensures var ps := Periods(Current, inp).value;
            var d0 := inp.portfolios[0].date;
            var r := Bt(inp).value;
            && |ps| > 0
            && SortedByDate(r)
            && |r| > 0 && r[0] == Point(d0, inp.startingBalance)
            && (forall x :: x in r && x.date == d0 ==> x == Point(d0, inp.startingBalance))
            && (forall x :: x in r && x.date != d0 ==> exists i :: 0 <= i < |ps| && x in ps[i].segment)
            && (forall i, x :: 0 <= i < |ps| && x in ps[i].segment && x.date != d0 ==> x in r)
  {
    AssembledTrajectory(inp);
  }

  /** The corrected `bt` gives the assembled series whenever the loop succeeds, also
      when no period is simulated, and agrees with `bt` wherever `bt` succeeds. */
  lemma BtIntendedTrajectory(inp: Inputs)
    requires WellFormedPrices(inp.prices)
    ensures BtIntended(inp).Success? <==> Periods(Current, inp).Success?
    ensures Bt(inp).Success? ==> BtIntended(inp) == Bt(inp)
    ensures BtIntended(inp).Success? ==>
              var ps := Periods(Current, inp).value;
              var d0 := inp.portfolios[0].date;
              var r := BtIntended(inp).value;
              && SortedByDate(r)
              && |r| > 0 && r[0] == Point(d0, inp.startingBalance)
              && (forall x :: x in r && x.date == d0 ==> x == Point(d0, inp.startingBalance))
              && (forall x :: x in r && x.date != d0 ==> exists i :: 0 <= i < |ps| && x in ps[i].segment)
              && (forall i, x :: 0 <= i < |ps| && x in ps[i].segment && x.date != d0 ==> x in r)
  {
    if Periods(Current, inp).Success? {
      AssembledTrajectory(inp);
    }
  }

  /** `bt` of inv_bt/backtester.py keys each scheduled period's path by its index. */
  lemma BtLegacyPeriods(inp: Inputs)
    requires WellFormedPrices(inp.prices) && BtLegacy(inp).Success?
    ensures Periods(Legacy, inp).Success?
    ensures var m := BtLegacy(inp).value;
            var ps := Periods(Legacy, inp).value;
            && |ps| == Scheduled(inp)
            && (forall i: nat :: i in m <==> i < |ps|)
            && (forall i :: 0 <= i < |ps| ==> m[i] == ps[i].segment && ps[i].start == inp.portfolios[i].date)
  {
    PeriodsSchedule(Legacy, inp);
  }

  // ---------------------------------------------------------------------------
  // A run with nothing to simulate
  // ---------------------------------------------------------------------------

  /** With a single rebalance date that is also the end date, the only iteration breaks
      out before simulating anything: `bt` of __init__.py then fails concatenating no
      paths, where the older copy returns no paths and the intended result is the
      starting balance alone. */
  lemma NothingScheduled(inp: Inputs)
    requires WellFormedPrices(inp.prices)
    requires |inp.portfolios| == 1 && inp.portfolios[0].date == inp.endDate
    ensures Scheduled(inp) == 0
    ensures Bt(inp) == Failure(NothingToConcatenate)
    ensures BtLegacy(inp) == Success(map[])
    ensures BtIntended(inp) == Success([Point(inp.endDate, inp.startingBalance)])
  {
    NoPeriods(Current, inp);
    NoPeriods(Legacy, inp);
    AssembleNothing(inp.endDate, inp.startingBalance);
  }

  lemma NoPeriods(v: Variant, inp: Inputs)
    requires WellFormedPrices(inp.prices)
    requires |inp.portfolios| == 1 && inp.portfolios[0].date == inp.endDate
    ensures Periods(v, inp) == Success([])
  {
    LoopBreaks(v, inp, 0, InitialState(inp));
  }

  /** With no paths, the assembled series is the starting balance alone. */
  lemma AssembleNothing(d0: Date, startingBalance: real)
    ensures Assemble(Segments([]), d0, startingBalance) == [Point(d0, startingBalance)]
  {
    var empty: seq<Point> := [];
    assert Concat(Segments([])) == empty;
    assert !HasDate(empty, d0);
    var c := SetAt(empty, d0, startingBalance);
    assert c == [Point(d0, startingBalance)];
    SortOfSorted(c);
  }

  /** A one-asset run whose only rebalance date is its end date. */
  function EndDateOnly(): (inp: Inputs)
    ensures WellFormedPrices(inp.prices)
  {
    var row := PriceRow(20240102, map["SPY" := 470.0]);
    assert PositiveRow(row, {"SPY"});
    Inputs([Rebalance(20240102, map["SPY" := Some(1.0)])], PriceTable({"SPY"}, [row]), 20240102, 0.001, 10000.0)
  }

  /** On EndDateOnly, `bt` of __init__.py raises instead of recording the starting
      balance. */
  lemma EndDateOnlyFails()
    ensures Bt(EndDateOnly()) == Failure(NothingToConcatenate)
    ensures BtIntended(EndDateOnly()) == Success([Point(20240102, 10000.0)])
  {
    NothingScheduled(EndDateOnly());
  }
}
