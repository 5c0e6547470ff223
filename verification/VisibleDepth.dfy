/** Taker execution against one visible order book: a greedy sweep of the displayed levels. */
module VisibleDepth {

  datatype Side = Buy | Sell

  datatype Level = Level(price: real, size: real)

  /** A marketable order, sized in exactly one unit. */
  datatype Request = BaseQuantity(base: real) | QuoteNotional(quote: real)

  datatype Execution = Execution(
    side: Side, request: Request,
    filledBase: real, filledQuote: real, unfilledBase: real, unfilledQuote: real,
    fullyFilled: bool, levelsConsumed: nat,
    vwap: real, slippageVsBest: real, fee: real, cashFlow: real)

  /** A remainder this small counts as nothing left to fill. */
  const SNAP_ABSOLUTE := 0.000000000001
  const SNAP_RELATIVE := 0.000000000000001

  function MinReal(a: real, b: real): real { if a <= b then a else b }
  function MaxReal(a: real, b: real): real { if a >= b then a else b }

  /** What `base` is worth at `price`. */
  function Worth(base: real, price: real): real { base * price }

  function Average(quote: real, base: real): real {
    if base == 0.0 then 0.0 else quote / base
  }

  /** How much worse than the best displayed price a fill of `base` at `vwap` was. */
  function SlippageQuote(side: Side, base: real, vwap: real, best: real): real {
    if side.Buy? then base * (vwap - best) else base * (best - vwap)
  }

  function Tolerance(filledQuote: real): real {
    MaxReal(SNAP_ABSOLUTE, filledQuote * SNAP_RELATIVE)
  }

  predicate NoWorse(side: Side, price: real, other: real) {
    if side.Buy? then price <= other else price >= other
  }

  /** The levels one side of a validated book shows: positive, best price first. */
  ghost predicate ValidLevels(side: Side, levels: seq<Level>) {
    && (forall i :: 0 <= i < |levels| ==> levels[i].price > 0.0 && levels[i].size > 0.0)
    && forall i, j :: 0 <= i < j < |levels| ==> NoWorse(side, levels[i].price, levels[j].price)
  }

  predicate ValidRequest(request: Request) {
    Amount(request) > 0.0
  }

  function Amount(request: Request): real {
    if request.BaseQuantity? then request.base else request.quote
  }

  // ---------------------------------------------------------------- allocations

  /** Base taken from each level. */
  type Allocation = seq<real>

  ghost predicate Feasible(levels: seq<Level>, a: Allocation) {
    |a| == |levels| && forall i :: 0 <= i < |a| ==> 0.0 <= a[i] <= levels[i].size
  }

  function SumBase(a: Allocation): real {
    if a == [] then 0.0 else a[0] + SumBase(a[1..])
  }

  function SumQuote(levels: seq<Level>, a: Allocation): real
    requires |a| == |levels|
  {
    if a == [] then 0.0 else Worth(a[0], levels[0].price) + SumQuote(levels[1..], a[1..])
  }

  /** What an allocation uses up of a request, in the request's own unit. */
  function Used(byBase: bool, levels: seq<Level>, a: Allocation): real
    requires |a| == |levels|
  {
    if byBase then SumBase(a) else SumQuote(levels, a)
  }

  function Everything(levels: seq<Level>): (a: Allocation)
    ensures |a| == |levels|
  {
    if levels == [] then [] else [levels[0].size] + Everything(levels[1..])
  }

  function Nothing(n: nat): (a: Allocation)
    ensures |a| == n && forall i :: 0 <= i < n ==> a[i] == 0.0
  {
    seq(n, _ => 0.0)
  }

  // ---------------------------------------------------------------- the sweep

  function TakeBase(byBase: bool, level: Level, remaining: real): real
    requires level.price > 0.0
  {
    MinReal(level.size, if byBase then remaining else remaining / level.price)
  }

  function Snap(remaining: real, filledQuote: real): real {
    if MaxReal(remaining, -remaining) <= Tolerance(filledQuote) then 0.0 else remaining
  }

  /** What is left of the request behind one level. */
  function Left(byBase: bool, level: Level, remaining: real, quote: real): real
    requires level.price > 0.0
  {
    var take := TakeBase(byBase, level, remaining);
    Snap(remaining - (if byBase then take else Worth(take, level.price)), quote + Worth(take, level.price))
  }

  /** Base the sweep takes from each level, with `remaining` still wanted and `quote` already traded. */
  function Fill(byBase: bool, levels: seq<Level>, remaining: real, quote: real): (a: Allocation)
    requires forall i :: 0 <= i < |levels| ==> levels[i].price > 0.0
    ensures |a| == |levels|
  {
    if levels == [] || remaining <= 0.0 then Nothing(|levels|)
    else
      var take := TakeBase(byBase, levels[0], remaining);
      [take]
      + Fill(byBase, levels[1..], Left(byBase, levels[0], remaining, quote), quote + Worth(take, levels[0].price))
  }

  /** What the sweep leaves unfilled. */
  function Rest(byBase: bool, levels: seq<Level>, remaining: real, quote: real): real
    requires forall i :: 0 <= i < |levels| ==> levels[i].price > 0.0
  {
    if levels == [] || remaining <= 0.0 then remaining
    else
      var take := TakeBase(byBase, levels[0], remaining);
      Rest(byBase, levels[1..], Left(byBase, levels[0], remaining, quote), quote + Worth(take, levels[0].price))
  }

  function LevelsTaken(byBase: bool, levels: seq<Level>, remaining: real, quote: real): nat
    requires forall i :: 0 <= i < |levels| ==> levels[i].price > 0.0
  {
    if levels == [] || remaining <= 0.0 then 0
    else
      var take := TakeBase(byBase, levels[0], remaining);
      1
      + LevelsTaken(byBase, levels[1..], Left(byBase, levels[0], remaining, quote),
                    quote + Worth(take, levels[0].price))
  }

  /** The allocation of a whole order. */
  function Allocated(levels: seq<Level>, request: Request): (a: Allocation)
    requires forall i :: 0 <= i < |levels| ==> levels[i].price > 0.0
    ensures |a| == |levels|
  {
    Fill(request.BaseQuantity?, levels, Amount(request), 0.0)
  }

  /** The report of a sweep that traded `base` for `quote` and left `rest` of the request. */
  function Report(side: Side, best: real, request: Request, feeRate: real,
                  base: real, quote: real, rest: real, taken: nat): Execution
  {
    var byBase := request.BaseQuantity?;
    var vwap := Average(quote, base);
    var fee := Worth(quote, feeRate);
    Execution(
      side, request, base, quote,
      if byBase then MaxReal(0.0, rest) else 0.0, if byBase then 0.0 else MaxReal(0.0, rest),
      rest == 0.0, taken,
      vwap, SlippageQuote(side, base, vwap, best), fee,
      if side.Buy? then -(quote + fee) else quote - fee)
  }

  function Execute(side: Side, levels: seq<Level>, request: Request, feeRate: real): Execution
    requires levels != [] && forall i :: 0 <= i < |levels| ==> levels[i].price > 0.0
  {
    var byBase, a := request.BaseQuantity?, Allocated(levels, request);
    Report(side, levels[0].price, request, feeRate, SumBase(a), SumQuote(levels, a),
           Rest(byBase, levels, Amount(request), 0.0), LevelsTaken(byBase, levels, Amount(request), 0.0))
  }

  /** One step of the sweep never overshoots and never goes backwards. */
  lemma TakeBounds(byBase: bool, level: Level, remaining: real, quote: real)
    requires level.price > 0.0 && level.size > 0.0 && remaining > 0.0 && quote >= 0.0
    ensures var take := TakeBase(byBase, level, remaining);
      var used := if byBase then take else Worth(take, level.price);
      && 0.0 < take <= level.size && Worth(take, level.price) > 0.0 && 0.0 < used <= remaining
      && 0.0 <= Left(byBase, level, remaining, quote) <= remaining - used
      && (take < level.size ==> used == remaining && Left(byBase, level, remaining, quote) == 0.0)
      && (Left(byBase, level, remaining, quote) == 0.0 ==>
        remaining - used <= Tolerance(quote + Worth(take, level.price)))
      && (Left(byBase, level, remaining, quote) != 0.0 ==>
            && Left(byBase, level, remaining, quote) == remaining - used
            && remaining - used > Tolerance(quote + Worth(take, level.price)))
  {
    var take := TakeBase(byBase, level, remaining);
    assert remaining / level.price * level.price == remaining;
    if byBase || level.size > remaining / level.price {
    } else {
      assert level.size * level.price <= remaining / level.price * level.price;
    }
  }

  /** What the sweep of `levels` still contributes: base, quote, remainder and levels consumed. */
  function Pending(byBase: bool, levels: seq<Level>, remaining: real, quote: real): (real, real, real, nat)
    requires forall i :: 0 <= i < |levels| ==> levels[i].price > 0.0
  {
    (SumBase(Fill(byBase, levels, remaining, quote)), SumQuote(levels, Fill(byBase, levels, remaining, quote)),
     Rest(byBase, levels, remaining, quote), LevelsTaken(byBase, levels, remaining, quote))
  }

  lemma PendingStep(byBase: bool, levels: seq<Level>, i: nat, remaining: real, quote: real, take: real, left: real,
      quote': real)
    requires i < |levels| && remaining > 0.0 && forall k :: 0 <= k < |levels| ==> levels[k].price > 0.0
    requires take == TakeBase(byBase, levels[i], remaining) && left == Left(byBase, levels[i], remaining, quote)
    requires quote' == quote + Worth(take, levels[i].price)
    ensures var here, next := Pending(byBase, levels[i..], remaining, quote),
                               Pending(byBase, levels[i + 1..], left, quote');
      here.0 == take + next.0 && here.1 == quote' - quote + next.1 && here.2 == next.2 && here.3 == 1 + next.3
  {
    assert levels[i..][0] == levels[i] && levels[i..][1..] == levels[i + 1..];
    var tail := Fill(byBase, levels[i + 1..], left, quote');
    assert Fill(byBase, levels[i..], remaining, quote) == [take] + tail;
    assert ([take] + tail)[1..] == tail;
  }

  lemma PendingNothing(byBase: bool, levels: seq<Level>, remaining: real, quote: real)
    requires levels == [] || remaining <= 0.0
    requires forall i :: 0 <= i < |levels| ==> levels[i].price > 0.0
    ensures Pending(byBase, levels, remaining, quote) == (0.0, 0.0, remaining, 0)
  {
    NothingSums(levels);
  }

  method SweepVisibleDepth(side: Side, levels: seq<Level>, request: Request, feeRate: real) returns (e: Execution)
    requires levels != [] && ValidLevels(side, levels) && ValidRequest(request)
    ensures e == Execute(side, levels, request, feeRate)
    ensures e.filledBase > 0.0 && e.filledQuote > 0.0
  {
    var byBase := request.BaseQuantity?;
    var remaining := Amount(request);
    var filledBase, filledQuote, levelsConsumed := 0.0, 0.0, 0;
    ghost var whole := Pending(byBase, levels, Amount(request), 0.0);
    assert levels[0..] == levels;
    var i := 0;
    while i < |levels| && remaining > 0.0
      invariant 0 <= i <= |levels| && remaining >= 0.0 && filledBase >= 0.0 && filledQuote >= 0.0
      invariant if i == 0 then remaining > 0.0 else filledBase > 0.0 && filledQuote > 0.0
      invariant whole.0 == filledBase + Pending(byBase, levels[i..], remaining, filledQuote).0
      invariant whole.1 == filledQuote + Pending(byBase, levels[i..], remaining, filledQuote).1
      invariant whole.2 == Pending(byBase, levels[i..], remaining, filledQuote).2
      invariant whole.3 == levelsConsumed + Pending(byBase, levels[i..], remaining, filledQuote).3
      decreases |levels| - i
    {
      TakeBounds(byBase, levels[i], remaining, filledQuote);
      var take := TakeBase(byBase, levels[i], remaining);
      var takeQuote := Worth(take, levels[i].price);
      ghost var before := remaining;
      remaining := Snap(remaining - (if byBase then take else takeQuote), filledQuote + takeQuote);
      PendingStep(byBase, levels, i, before, filledQuote, take, remaining, filledQuote + takeQuote);
      filledBase, filledQuote, levelsConsumed := filledBase + take, filledQuote + takeQuote, levelsConsumed + 1;
      i := i + 1;
    }
    PendingNothing(byBase, levels[i..], remaining, filledQuote);
    e := Report(side, levels[0].price, request, feeRate, filledBase, filledQuote, remaining, levelsConsumed);
  }

  lemma {:induction false} NothingSums(levels: seq<Level>)
    ensures SumBase(Nothing(|levels|)) == 0.0 && SumQuote(levels, Nothing(|levels|)) == 0.0
  {
    if levels != [] {
      NothingSums(levels[1..]);
      assert Nothing(|levels|)[1..] == Nothing(|levels| - 1);
    }
  }

  // ---------------------------------------------------------------- the sweep is greedy

  /** `a` exhausts every level before `m`, takes part or all of level `m`, and nothing behind it. */
  ghost predicate GreedyUpTo(levels: seq<Level>, a: Allocation, m: nat) {
    && Feasible(levels, a) && m < |a| && a[m] > 0.0
    && (forall i :: 0 <= i < m ==> a[i] == levels[i].size)
    && forall i :: m < i < |a| ==> a[i] == 0.0
  }

  lemma {:induction false} FillIsGreedy(byBase: bool, levels: seq<Level>, remaining: real, quote: real) returns (m: nat)
    requires levels != [] && remaining > 0.0 && quote >= 0.0
    requires forall i :: 0 <= i < |levels| ==> levels[i].price > 0.0 && levels[i].size > 0.0
    ensures GreedyUpTo(levels, Fill(byBase, levels, remaining, quote), m)
    decreases |levels|
  {
    hide TakeBase, Left, Worth, Tolerance;
    TakeBounds(byBase, levels[0], remaining, quote);
    var take := TakeBase(byBase, levels[0], remaining);
    var left := Left(byBase, levels[0], remaining, quote);
    var tail := Fill(byBase, levels[1..], left, quote + Worth(take, levels[0].price));
    assert Fill(byBase, levels, remaining, quote) == [take] + tail;
    if left == 0.0 || |levels| == 1 {
      m := 0;
    } else {
      var k := FillIsGreedy(byBase, levels[1..], left, quote + Worth(take, levels[0].price));
      m := k + 1;
    }
  }

  // ---------------------------------------------------------------- greedy is optimal

  /** `d` units traded at `price` instead of `p` cost no less (buy) or bring no more (sell). */
  predicate Adverse(side: Side, d: real, price: real, p: real) {
    NoWorse(side, Worth(d, p), Worth(d, price))
  }

  lemma AdverseWhenOrdered(side: Side, d: real, price: real, p: real)
    requires (d <= 0.0 && NoWorse(side, price, p)) || (d >= 0.0 && NoWorse(side, p, price)) || d == 0.0
    ensures Adverse(side, d, price, p)
  {
    assert Worth(d, price) - Worth(d, p) == d * (price - p);
  }

  /** Where every difference is adverse at price `p`, so is the whole. */
  lemma {:induction false} DifferencesAddUp(side: Side, levels: seq<Level>, g: Allocation, a: Allocation, p: real)
    requires |g| == |a| == |levels|
    requires forall i :: 0 <= i < |a| ==> Adverse(side, a[i] - g[i], levels[i].price, p)
    ensures NoWorse(side, Worth(SumBase(a) - SumBase(g), p), SumQuote(levels, a) - SumQuote(levels, g))
    decreases |a|
  {
    if a != [] {
      DifferencesAddUp(side, levels[1..], g[1..], a[1..], p);
      var d, rest := a[0] - g[0], SumBase(a[1..]) - SumBase(g[1..]);
      assert Worth(d + rest, p) == Worth(d, p) + Worth(rest, p);
      assert Worth(d, levels[0].price) == Worth(a[0], levels[0].price) - Worth(g[0], levels[0].price);
      assert Adverse(side, a[0] - g[0], levels[0].price, p);
    }
  }

  /** No allocation of the same total is cheaper to buy, or sells for more, than the greedy one. */
  lemma GreedyIsOptimal(side: Side, levels: seq<Level>, g: Allocation, m: nat, a: Allocation)
    requires ValidLevels(side, levels) && GreedyUpTo(levels, g, m)
    requires Feasible(levels, a) && SumBase(a) == SumBase(g)
    ensures if side.Buy? then SumQuote(levels, g) <= SumQuote(levels, a) else SumQuote(levels, a) <= SumQuote(levels, g)
  {
    var p := levels[m].price;
    forall i | 0 <= i < |a| ensures Adverse(side, a[i] - g[i], levels[i].price, p) {
      AdverseWhenOrdered(side, a[i] - g[i], levels[i].price, p);
    }
    DifferencesAddUp(side, levels, g, a, p);
    assert Worth(0.0, p) == 0.0;
  }

  /** The sweep trades at the least cost (buy) or for the greatest proceeds (sell) that its size allows. */
  lemma SweepIsOptimal(side: Side, levels: seq<Level>, request: Request, feeRate: real, a: Allocation)
    requires levels != [] && ValidLevels(side, levels) && ValidRequest(request)
    requires Feasible(levels, a) && SumBase(a) == Execute(side, levels, request, feeRate).filledBase
    ensures var e := Execute(side, levels, request, feeRate);
      if side.Buy? then e.filledQuote <= SumQuote(levels, a) else SumQuote(levels, a) <= e.filledQuote
  {
    var m := FillIsGreedy(request.BaseQuantity?, levels, Amount(request), 0.0);
    GreedyIsOptimal(side, levels, Allocated(levels, request), m, a);
  }

  // ---------------------------------------------------------------- what is left

  /** Filled and unfilled add up to the request, except for what one snap may drop. */
  lemma {:induction false} SweepConserves(byBase: bool, levels: seq<Level>, remaining: real, quote: real)
    requires remaining > 0.0 && quote >= 0.0
    requires forall i :: 0 <= i < |levels| ==> levels[i].price > 0.0 && levels[i].size > 0.0
    ensures var a := Fill(byBase, levels, remaining, quote);
      var rest := Rest(byBase, levels, remaining, quote);
      var dropped := remaining - Used(byBase, levels, a) - rest;
      && rest >= 0.0 && SumQuote(levels, a) >= 0.0
      && 0.0 <= dropped <= Tolerance(quote + SumQuote(levels, a))
      && (rest > 0.0 ==> dropped == 0.0 && a == Everything(levels))
      && (rest > 0.0 && levels != [] ==> rest > Tolerance(quote + SumQuote(levels, a)))
    decreases |levels|
  {
    if levels != [] {
      TakeBounds(byBase, levels[0], remaining, quote);
      var take := TakeBase(byBase, levels[0], remaining);
      var left, after := Left(byBase, levels[0], remaining, quote), quote + Worth(take, levels[0].price);
      var tail := Fill(byBase, levels[1..], left, after);
      assert Fill(byBase, levels, remaining, quote)[1..] == tail;
      if left == 0.0 {
        NothingSums(levels[1..]);
      } else {
        SweepConserves(byBase, levels[1..], left, after);
      }
    }
  }

  /** What a sweep of a valid book promises about the request it was given. */
  lemma SweepAccounts(side: Side, levels: seq<Level>, request: Request, feeRate: real)
    requires levels != [] && ValidLevels(side, levels) && ValidRequest(request)
    ensures var e := Execute(side, levels, request, feeRate);
      var byBase := request.BaseQuantity?;
      var filled := if byBase then e.filledBase else e.filledQuote;
      var unfilled := if byBase then e.unfilledBase else e.unfilledQuote;
      && e.filledBase > 0.0 && e.filledQuote > 0.0 && filled <= Amount(request)
      && 0.0 <= Amount(request) - filled - unfilled <= Tolerance(e.filledQuote)
      && (e.fullyFilled <==> unfilled == 0.0)
      && (!e.fullyFilled ==> Allocated(levels, request) == Everything(levels) && filled + unfilled == Amount(request))
      && (e.fullyFilled <==>
            Amount(request) - Used(byBase, levels, Everything(levels))
              <= Tolerance(SumQuote(levels, Everything(levels))))
  {
    hide Fill, Everything;
    var byBase := request.BaseQuantity?;
    SweepConserves(byBase, levels, Amount(request), 0.0);
    var a := Allocated(levels, request);
    var m := FillIsGreedy(byBase, levels, Amount(request), 0.0);
    PositiveSum(levels, a, m);
    WithinEverything(levels, a);
  }

  lemma {:induction false} PositiveSum(levels: seq<Level>, a: Allocation, m: nat)
    requires |a| == |levels| && m < |a| && a[m] > 0.0
    requires forall i :: 0 <= i < |a| ==> a[i] >= 0.0 && levels[i].price > 0.0
    ensures SumBase(a) > 0.0 && SumQuote(levels, a) > 0.0
    decreases |a|
  {
    NonNegativeSum(levels[1..], a[1..]);
    if m > 0 { PositiveSum(levels[1..], a[1..], m - 1); }
    assert a[0] * levels[0].price >= 0.0;
    if m == 0 { assert a[0] * levels[0].price > 0.0; }
  }

  lemma {:induction false} NonNegativeSum(levels: seq<Level>, a: Allocation)
    requires |a| == |levels| && forall i :: 0 <= i < |a| ==> a[i] >= 0.0 && levels[i].price > 0.0
    ensures SumBase(a) >= 0.0 && SumQuote(levels, a) >= 0.0
    decreases |a|
  {
    if a != [] { NonNegativeSum(levels[1..], a[1..]); }
  }

  lemma {:induction false} WithinEverything(levels: seq<Level>, a: Allocation)
    requires Feasible(levels, a) && forall i :: 0 <= i < |levels| ==> levels[i].price > 0.0
    ensures SumBase(a) <= SumBase(Everything(levels)) && SumQuote(levels, a) <= SumQuote(levels, Everything(levels))
    decreases |a|
  {
    if a != [] {
      WithinEverything(levels[1..], a[1..]);
      assert a[0] * levels[0].price <= levels[0].size * levels[0].price;
    }
  }

  // ---------------------------------------------------------------- the average price never improves

  /** A larger request takes at least as much from every level. */
  lemma {:induction false} FillGrows(byBase: bool, levels: seq<Level>, small: real, large: real, quote: real)
    requires small <= large && quote >= 0.0
    requires forall i :: 0 <= i < |levels| ==> levels[i].price > 0.0 && levels[i].size > 0.0
    ensures var a, b := Fill(byBase, levels, small, quote), Fill(byBase, levels, large, quote);
      forall i :: 0 <= i < |levels| ==> a[i] <= b[i]
    decreases |levels|
  {
    hide Worth, Tolerance, NoWorse, Left;
    if levels != [] && large > 0.0 {
      TakeBounds(byBase, levels[0], large, quote);
      var b := Fill(byBase, levels, large, quote);
      if small <= 0.0 {
        var m := FillIsGreedy(byBase, levels, large, quote);
      } else {
        TakeBounds(byBase, levels[0], small, quote);
        FirstTakeGrows(byBase, levels[0], small, large);
        var take := TakeBase(byBase, levels[0], small);
        var left := Left(byBase, levels[0], small, quote);
        assert Fill(byBase, levels, small, quote)[1..]
          == Fill(byBase, levels[1..], left, quote + Worth(take, levels[0].price));
        if left == 0.0 {
          var m := FillIsGreedy(byBase, levels, large, quote);
        } else {
          assert take == levels[0].size == TakeBase(byBase, levels[0], large);
          FillGrows(byBase, levels[1..], left, Left(byBase, levels[0], large, quote),
                    quote + Worth(take, levels[0].price));
        }
      }
    }
  }

  lemma FirstTakeGrows(byBase: bool, level: Level, small: real, large: real)
    requires level.price > 0.0 && small <= large
    ensures TakeBase(byBase, level, small) <= TakeBase(byBase, level, large)
  {
    if !byBase { Quotients(small, large, level.price); }
  }

  lemma Quotients(x: real, y: real, d: real)
    requires x <= y && d > 0.0
    ensures x / d <= y / d
  {
  }

  /** The average price of a larger order in the same unit is never better. */
  lemma VwapNeverImproves(side: Side, levels: seq<Level>, small: Request, large: Request, feeRate: real)
    requires levels != [] && ValidLevels(side, levels) && ValidRequest(small)
    requires small.BaseQuantity? == large.BaseQuantity? && Amount(small) <= Amount(large)
    ensures NoWorse(side, Execute(side, levels, small, feeRate).vwap, Execute(side, levels, large, feeRate).vwap)
  {
    var byBase := small.BaseQuantity?;
    var a, b := Allocated(levels, small), Allocated(levels, large);
    var m := FillIsGreedy(byBase, levels, Amount(small), 0.0);
    var n := FillIsGreedy(byBase, levels, Amount(large), 0.0);
    FillGrows(byBase, levels, Amount(small), Amount(large), 0.0);
    assert a == Fill(byBase, levels, Amount(small), 0.0) && b == Fill(byBase, levels, Amount(large), 0.0);
    PositiveSum(levels, a, m);
    LargerIsWorse(side, levels, a, m, b);
  }

  /** What a greedy allocation took cost at most its marginal price, what an extension adds at least that. */
  lemma ExtensionPrices(side: Side, levels: seq<Level>, a: Allocation, m: nat, b: Allocation)
    requires ValidLevels(side, levels) && GreedyUpTo(levels, a, m) && Feasible(levels, b)
    requires forall i :: 0 <= i < |a| ==> a[i] <= b[i]
    ensures NoWorse(side, SumQuote(levels, a), Worth(SumBase(a), levels[m].price))
    ensures NoWorse(side, Worth(SumBase(b) - SumBase(a), levels[m].price), SumQuote(levels, b) - SumQuote(levels, a))
  {
    hide Worth, SumBase, SumQuote;
    var p, zero := levels[m].price, Nothing(|levels|);
    forall i | 0 <= i < |a|
      ensures Adverse(side, zero[i] - a[i], levels[i].price, p) && Adverse(side, b[i] - a[i], levels[i].price, p)
    {
      AdverseWhenOrdered(side, zero[i] - a[i], levels[i].price, p);
      AdverseWhenOrdered(side, b[i] - a[i], levels[i].price, p);
    }
    NothingSums(levels);
    DifferencesAddUp(side, levels, a, zero, p);
    DifferencesAddUp(side, levels, a, b, p);
    Negated(SumBase(a), p);
  }

  lemma Negated(amount: real, price: real)
    ensures Worth(0.0 - amount, price) == -Worth(amount, price)
  {
  }

  lemma LargerIsWorse(side: Side, levels: seq<Level>, a: Allocation, m: nat, b: Allocation)
    requires ValidLevels(side, levels) && GreedyUpTo(levels, a, m) && Feasible(levels, b)
    requires forall i :: 0 <= i < |a| ==> a[i] <= b[i]
    requires SumBase(a) > 0.0
    ensures NoWorse(side, Average(SumQuote(levels, a), SumBase(a)), Average(SumQuote(levels, b), SumBase(b)))
  {
    ExtensionPrices(side, levels, a, m, b);
    SumGrows(a, b);
    AverageOfExtension(side, SumBase(a), SumQuote(levels, a), SumBase(b), SumQuote(levels, b), levels[m].price);
  }

  lemma {:induction false} SumGrows(a: Allocation, b: Allocation)
    requires |a| == |b| && forall i :: 0 <= i < |a| ==> a[i] <= b[i]
    ensures SumBase(a) <= SumBase(b)
    decreases |a|
  {
    if a != [] { SumGrows(a[1..], b[1..]); }
  }

  lemma AverageOfExtension(side: Side, base: real, cost: real, base': real, cost': real, p: real)
    requires 0.0 < base <= base'
    requires NoWorse(side, cost, Worth(base, p)) && NoWorse(side, Worth(base' - base, p), cost' - cost)
    ensures NoWorse(side, Average(cost, base), Average(cost', base'))
  {
    hide Worth, Average;
    var extra, more := base' - base, cost' - cost;
    ByExtension(side, base, cost, extra, more, p);
    assert Worth(cost, base') == Worth(cost, base) + Worth(cost, extra) by { WorthAdds(cost, base, extra); }
    assert Worth(cost', base) == Worth(cost, base) + Worth(more, base) by { WorthCosts(cost, more, base); }
    RatioOrder(cost, base, cost', base');
  }

  lemma WorthAdds(x: real, a: real, b: real)
    ensures Worth(x, a + b) == Worth(x, a) + Worth(x, b)
  {
  }

  lemma WorthCosts(x: real, y: real, a: real)
    ensures Worth(x + y, a) == Worth(x, a) + Worth(y, a)
  {
  }

  /** Both at the marginal price `p`: `cost` for `base` against `more` for `extra`. */
  lemma ByExtension(side: Side, base: real, cost: real, extra: real, more: real, p: real)
    requires base > 0.0 && extra >= 0.0 && NoWorse(side, cost, Worth(base, p)) && NoWorse(side, Worth(extra, p), more)
    ensures NoWorse(side, Worth(cost, extra), Worth(more, base))
  {
    if side.Buy? {
      Scaled(cost, base * p, extra);
      Scaled(extra * p, more, base);
    } else {
      Scaled(base * p, cost, extra);
      Scaled(more, extra * p, base);
    }
    assert base * p * extra == extra * p * base;
  }

  lemma Scaled(x: real, y: real, k: real)
    requires x <= y && k >= 0.0
    ensures x * k <= y * k
  {
  }

  lemma RatioOrder(x: real, a: real, y: real, b: real)
    requires a > 0.0 && b > 0.0
    ensures Worth(x, b) <= Worth(y, a) <==> Average(x, a) <= Average(y, b)
    ensures Worth(x, b) >= Worth(y, a) <==> Average(x, a) >= Average(y, b)
  {
    var p, q := x / a, y / b;
    assert x == p * a && y == q * b;
    assert x * b == p * (a * b) && y * a == q * (a * b);
    if p < q { assert p * (a * b) < q * (a * b); }
    if p > q { assert p * (a * b) > q * (a * b); }
  }

  /** Executing never beats the best displayed price. */
  lemma SlippageIsAdverse(side: Side, levels: seq<Level>, request: Request, feeRate: real)
    requires levels != [] && ValidLevels(side, levels) && ValidRequest(request)
    ensures Execute(side, levels, request, feeRate).slippageVsBest >= 0.0
  {
    var a, zero, best := Allocated(levels, request), Nothing(|levels|), levels[0].price;
    var m := FillIsGreedy(request.BaseQuantity?, levels, Amount(request), 0.0);
    PositiveSum(levels, a, m);
    NothingSums(levels);
    forall i | 0 <= i < |a| ensures Adverse(side, a[i] - zero[i], levels[i].price, best) {
      AdverseWhenOrdered(side, a[i] - zero[i], levels[i].price, best);
    }
    DifferencesAddUp(side, levels, zero, a, best);
    Slippage(side, SumBase(a), SumQuote(levels, a), best);
  }

  lemma Slippage(side: Side, base: real, quote: real, best: real)
    requires base > 0.0 && NoWorse(side, Worth(base, best), quote)
    ensures SlippageQuote(side, base, Average(quote, base), best) >= 0.0
  {
    assert base * (quote / base - best) == quote - Worth(base, best);
  }

  // ---------------------------------------------------------------- what the report says

  /** How many levels an allocation takes something from. */
  function LevelsTouched(a: Allocation): nat {
    if a == [] then 0 else (if a[0] > 0.0 then 1 else 0) + LevelsTouched(a[1..])
  }

  lemma {:induction false} NothingTouched(n: nat)
    ensures LevelsTouched(Nothing(n)) == 0
  {
    if n > 0 {
      NothingTouched(n - 1);
      assert Nothing(n)[1..] == Nothing(n - 1);
    }
  }

  lemma {:induction false} TakenIsTouched(byBase: bool, levels: seq<Level>, remaining: real, quote: real)
    requires quote >= 0.0 && forall i :: 0 <= i < |levels| ==> levels[i].price > 0.0 && levels[i].size > 0.0
    ensures LevelsTaken(byBase, levels, remaining, quote) == LevelsTouched(Fill(byBase, levels, remaining, quote))
  {
    hide TakeBase, Left, Tolerance;
    if levels == [] || remaining <= 0.0 {
      NothingTouched(|levels|);
    } else {
      TakeBounds(byBase, levels[0], remaining, quote);
      var take := TakeBase(byBase, levels[0], remaining);
      var left := Left(byBase, levels[0], remaining, quote);
      TakenIsTouched(byBase, levels[1..], left, quote + Worth(take, levels[0].price));
      assert Fill(byBase, levels, remaining, quote)[1..]
        == Fill(byBase, levels[1..], left, quote + Worth(take, levels[0].price));
    }
  }

  /** Taken from the best level alone. */
  lemma AtBest(levels: seq<Level>, a: Allocation)
    requires |a| == |levels| > 0 && forall i :: 0 < i < |a| ==> a[i] == 0.0
    ensures SumBase(a) == a[0] && SumQuote(levels, a) == a[0] * levels[0].price
  {
    ZeroSums(levels[1..], a[1..]);
  }

  lemma {:induction false} ZeroSums(levels: seq<Level>, a: Allocation)
    requires |a| == |levels| && forall i :: 0 <= i < |a| ==> a[i] == 0.0
    ensures SumBase(a) == 0.0 && SumQuote(levels, a) == 0.0
  {
    if a != [] { ZeroSums(levels[1..], a[1..]); }
  }

  lemma Quotient(quote: real, base: real)
    requires base != 0.0
    ensures quote / base * base == quote
  {
  }

  lemma BestTimesBase(base: real, vwap: real, best: real, quote: real)
    requires vwap * base == quote
    ensures base * (vwap - best) == quote - base * best && base * (best - vwap) == base * best - quote
  {
  }

  /** The fields of a report, from what was traded. */
  lemma ReportFields(
      side: Side, best: real, request: Request, feeRate: real, base: real, quote: real, rest: real, taken: nat)
    requires base > 0.0
    ensures var e := Report(side, best, request, feeRate, base, quote, rest, taken);
      && e.side == side && e.request == request && e.filledBase == base && e.filledQuote == quote
      && e.levelsConsumed == taken && e.fee == quote * feeRate && e.vwap * base == quote
      && e.cashFlow == (if side.Buy? then -(quote + quote * feeRate) else quote - quote * feeRate)
      && e.slippageVsBest == (if side.Buy? then quote - base * best else base * best - quote)
  {
    Quotient(quote, base);
    BestTimesBase(base, quote / base, best, quote);
  }

  /** What a greedy sweep takes something from, and what trading at the best level alone costs. */
  lemma TakenLevels(byBase: bool, levels: seq<Level>, amount: real)
    requires levels != [] && amount > 0.0
    requires forall i :: 0 <= i < |levels| ==> levels[i].price > 0.0 && levels[i].size > 0.0
    ensures var a, taken := Fill(byBase, levels, amount, 0.0), LevelsTaken(byBase, levels, amount, 0.0);
      && taken == LevelsTouched(a) && 1 <= taken <= |levels| && SumBase(a) > 0.0
      && (taken == 1 ==> SumQuote(levels, a) == SumBase(a) * levels[0].price)
  {
    hide Fill, LevelsTaken, SumBase, SumQuote;
    var a := Fill(byBase, levels, amount, 0.0);
    var m := FillIsGreedy(byBase, levels, amount, 0.0);
    PositiveSum(levels, a, m);
    TakenIsTouched(byBase, levels, amount, 0.0);
    TouchedUpTo(levels, a, m);
    if m == 0 { AtBest(levels, a); }
  }

  /**
   The report of every valid order: the fee is the rate of what was traded and the cash that moves is the trade and the
   fee, the average price times the base is what was traded, slippage is the difference to trading all of it at the best
   price, and the levels consumed are those something was taken from.
   */
  lemma ReportMeaning(side: Side, levels: seq<Level>, request: Request, feeRate: real)
    requires levels != [] && ValidLevels(side, levels) && ValidRequest(request)
    ensures var e, best, a := Execute(side, levels, request, feeRate), levels[0].price, Allocated(levels, request);
      && e.side == side && e.request == request
      && e.fee == e.filledQuote * feeRate
      && e.cashFlow == (if side.Buy? then -(e.filledQuote + e.filledQuote * feeRate)
                        else e.filledQuote - e.filledQuote * feeRate)
      && e.vwap * e.filledBase == e.filledQuote
      && e.slippageVsBest == (if side.Buy? then e.filledQuote - e.filledBase * best
                              else e.filledBase * best - e.filledQuote)
      && e.levelsConsumed == LevelsTouched(a) && 1 <= e.levelsConsumed <= |levels|
      && (e.levelsConsumed == 1 ==> e.filledQuote == e.filledBase * best)
  {
    hide Fill, Rest, LevelsTaken, Report, SumBase, SumQuote, Worth;
    var byBase, a := request.BaseQuantity?, Allocated(levels, request);
    TakenLevels(byBase, levels, Amount(request));
    ReportFields(side, levels[0].price, request, feeRate, SumBase(a), SumQuote(levels, a),
                 Rest(byBase, levels, Amount(request), 0.0), LevelsTaken(byBase, levels, Amount(request), 0.0));
  }

  /** What is neither filled nor reported unfilled is below the code's tolerance. */
  lemma ShortfallIsTiny(side: Side, levels: seq<Level>, request: Request, feeRate: real)
    requires levels != [] && ValidLevels(side, levels) && ValidRequest(request)
    ensures var e := Execute(side, levels, request, feeRate);
      var missing := Amount(request) - (if request.BaseQuantity? then e.filledBase + e.unfilledBase
                                        else e.filledQuote + e.unfilledQuote);
      0.0 <= missing <= 0.000000000001 || 0.0 <= missing <= e.filledQuote * 0.000000000000001
  {
    hide Execute;
    SweepAccounts(side, levels, request, feeRate);
  }

  lemma {:induction false} TouchedUpTo(levels: seq<Level>, a: Allocation, m: nat)
    requires GreedyUpTo(levels, a, m) && forall i :: 0 <= i < |levels| ==> levels[i].size > 0.0
    ensures LevelsTouched(a) == m + 1
    decreases m
  {
    if m > 0 {
      assert a[0] == levels[0].size;
      TouchedUpTo(levels[1..], a[1..], m - 1);
    } else {
      NoneTouched(a[1..]);
    }
  }

  lemma {:induction false} NoneTouched(a: Allocation)
    requires forall i :: 0 <= i < |a| ==> a[i] == 0.0
    ensures LevelsTouched(a) == 0
  {
    if a != [] { NoneTouched(a[1..]); }
  }
}
