/** The Monte Carlo loop over price paths and the gain/loss tally of its final
    prices. The normal samples are an input (one row of daily returns per run)
    and prices are reals, so what is checked is the structure of the loops and
    of the tally, not floating-point numerics. */
module Simulation {

  /** A list of prices that the loop appends to in place. The result list holds
      references to such lists, so two of its entries may be the same object. */
  class PriceList {
    var items: seq<real>

    constructor (first: real)
      ensures items == [first]
    {
      items := [first];
    }

    method Append(x: real)
      modifies this
      ensures items == old(items) + [x]
    {
      items := items + [x];
    }
  }

  /** What the referenced lists hold now, in order. */
  function Contents(ps: seq<PriceList>): (r: seq<seq<real>>)
    reads ps
    ensures |r| == |ps|
  {
    seq(|ps|, i requires 0 <= i < |ps| reads ps => ps[i].items)
  }

  /** One simulated day: the previous price times one plus the sampled return. */
  function NextPrice(price: real, ret: real): real
  {
    price * (1.0 + ret)
  }

  /** A positive price stays positive under a return above -1. */
  lemma NextPricePositive(price: real, ret: real)
    requires price > 0.0 && ret > -1.0
    ensures NextPrice(price, ret) > 0.0
  {
  }

  /** The path of one run from `last` under the daily returns `steps`:
      one price more than there are steps, each the previous one times one plus
      that day's return. */
  function Path(last: real, steps: seq<real>): (p: seq<real>)
    ensures |p| == |steps| + 1
    ensures p[0] == last
    ensures forall k {:trigger steps[k]} :: 0 <= k < |steps| ==> p[k + 1] == NextPrice(p[k], steps[k])
    decreases |steps|
  {
    if steps == [] then [last]
    else
      var prev := Path(last, steps[..|steps| - 1]);
      prev + [NextPrice(prev[|prev| - 1], steps[|steps| - 1])]
  }

  /** One more daily return appends one price: the previous last price times one plus that return. */
  lemma PathSnoc(last: real, steps: seq<real>, x: real)
    ensures Path(last, steps + [x]) == Path(last, steps) + [NextPrice(Path(last, steps)[|steps|], x)]
  {
    assert (steps + [x])[..|steps|] == steps;
  }

  /** One iteration of a run's inner loop extends the path by that day's price. */
  lemma PathStep(last: real, steps: seq<real>, d: nat, items: seq<real>)
    requires d < |steps| && items == Path(last, steps[..d])
    ensures items + [NextPrice(items[|items| - 1], steps[d])] == Path(last, steps[..d + 1])
  {
    assert steps[..d + 1] == steps[..d] + [steps[d]];
    PathSnoc(last, steps[..d], steps[d]);
  }

  /** The injected samples fit the loops: `runs` rows of `days` returns each. */
  predicate Shaped(samples: seq<seq<real>>, runs: nat, days: nat)
  {
    |samples| == runs && forall r :: 0 <= r < runs ==> |samples[r]| == days
  }

  function Repeat<T>(x: T, n: nat): (r: seq<T>)
    ensures |r| == n
    ensures forall i :: 0 <= i < n ==> r[i] == x
  {
    seq(n, _ => x)
  }

  lemma RepeatSnoc<T>(x: T, n: nat)
    ensures Repeat(x, n) + [x] == Repeat(x, n + 1)
  {
  }

  /** What the result list holds once the loops finish with the append inside the
      inner loop: every run contributes its finished path once per day. */
  function AsWrittenPaths(last: real, samples: seq<seq<real>>, days: nat): (r: seq<seq<real>>)
    ensures forall i :: 0 <= i < |r| ==> r[i] != []
    decreases |samples|
  {
    if samples == [] then []
    else AsWrittenPaths(last, samples[..|samples| - 1], days) + Repeat(Path(last, samples[|samples| - 1]), days)
  }

  /** What the result list was meant to hold: one finished path per run. */
  function IntendedPaths(last: real, samples: seq<seq<real>>): (r: seq<seq<real>>)
    ensures |r| == |samples|
    ensures forall i :: 0 <= i < |r| ==> r[i] == Path(last, samples[i])
  {
    seq(|samples|, i requires 0 <= i < |samples| => Path(last, samples[i]))
  }

  lemma ContentsAppend(ps: seq<PriceList>, qs: seq<PriceList>)
    ensures Contents(ps + qs) == Contents(ps) + Contents(qs)
  {
  }

  lemma ContentsRepeat(p: PriceList, n: nat)
    ensures Contents(Repeat(p, n)) == Repeat(p.items, n)
  {
  }

  lemma AsWrittenPathsSnoc(last: real, samples: seq<seq<real>>, days: nat, run: nat)
    requires run < |samples|
    ensures AsWrittenPaths(last, samples[..run + 1], days)
      == AsWrittenPaths(last, samples[..run], days) + Repeat(Path(last, samples[run]), days)
  {
    assert samples[..run + 1][..run] == samples[..run];
  }

  /** Once a run's inner loop is over, the result list shows that run's finished
      path `days` times after the earlier runs. */
  lemma AsWrittenRunDone(last: real, samples: seq<seq<real>>, days: nat, run: nat,
                         before: seq<PriceList>, prices: PriceList)
    requires run < |samples| && |samples[run]| == days
    requires Contents(before) == AsWrittenPaths(last, samples[..run], days)
    requires prices.items == Path(last, samples[run][..days])
    ensures Contents(before + Repeat(prices, days)) == AsWrittenPaths(last, samples[..run + 1], days)
  {
    assert samples[run][..days] == samples[run];
    ContentsAppend(before, Repeat(prices, days));
    ContentsRepeat(prices, days);
    AsWrittenPathsSnoc(last, samples, days, run);
  }

  lemma IntendedPathsSnoc(last: real, samples: seq<seq<real>>, run: nat)
    requires run < |samples|
    ensures IntendedPaths(last, samples[..run + 1]) == IntendedPaths(last, samples[..run]) + [Path(last, samples[run])]
  {
  }

  /** The nested loop as written: the inner loop pushes the run's list onto the
      result after every step, and keeps growing that same list afterwards. */
  method SimulateAsWritten(lastPrice: real, days: nat, runs: nat, samples: seq<seq<real>>)
    returns (simulated: seq<PriceList>)
    requires Shaped(samples, runs, days)
    ensures Contents(simulated) == AsWrittenPaths(lastPrice, samples, days)
  {
    simulated := [];
    var run := 0;
    while run < runs
      invariant run <= runs
      invariant Contents(simulated) == AsWrittenPaths(lastPrice, samples[..run], days)
    {
      var prices := new PriceList(lastPrice);
      ghost var before := simulated;
      var d := 0;
      while d < days
        invariant d <= days
        invariant prices.items == Path(lastPrice, samples[run][..d])
        invariant simulated == before + Repeat(prices, d)
        modifies prices
      {
        PathStep(lastPrice, samples[run], d, prices.items);
        var next := NextPrice(prices.items[|prices.items| - 1], samples[run][d]);
        prices.Append(next);
        simulated := simulated + [prices];
        RepeatSnoc(prices, d);
        d := d + 1;
      }
      AsWrittenRunDone(lastPrice, samples, days, run, before, prices);
      run := run + 1;
    }
    assert samples[..runs] == samples;
  }

  /** The nested loop as intended: the run's list is pushed once, after its last step. */
  method Simulate(lastPrice: real, days: nat, runs: nat, samples: seq<seq<real>>)
    returns (simulated: seq<PriceList>)
    requires Shaped(samples, runs, days)
    ensures Contents(simulated) == IntendedPaths(lastPrice, samples)
  {
    simulated := [];
    var run := 0;
    while run < runs
      invariant run <= runs
      invariant Contents(simulated) == IntendedPaths(lastPrice, samples[..run])
    {
      var prices := new PriceList(lastPrice);
      var d := 0;
      while d < days
        invariant d <= days
        invariant prices.items == Path(lastPrice, samples[run][..d])
        modifies prices
      {
        PathStep(lastPrice, samples[run], d, prices.items);
        var next := NextPrice(prices.items[|prices.items| - 1], samples[run][d]);
        prices.Append(next);
        d := d + 1;
      }
      assert samples[run][..d] == samples[run];
      ContentsAppend(simulated, [prices]);
      simulated := simulated + [prices];
      IntendedPathsSnoc(lastPrice, samples, run);
      run := run + 1;
    }
    assert samples[..runs] == samples;
  }

  /** `final_prices`: the last price of every entry of the result list. */
  function FinalPrices(paths: seq<seq<real>>): (r: seq<real>)
    requires forall i :: 0 <= i < |paths| ==> paths[i] != []
    ensures |r| == |paths|
    ensures forall i :: 0 <= i < |paths| ==> r[i] == paths[i][|paths[i]| - 1]
  {
    seq(|paths|, i requires 0 <= i < |paths| => paths[i][|paths[i]| - 1])
  }

  /** `gains`: how many final prices are above the last observed price. */
  function Gains(prices: seq<real>, last: real): nat
    decreases |prices|
  {
    if prices == [] then 0
    else Gains(prices[..|prices| - 1], last) + (if prices[|prices| - 1] > last then 1 else 0)
  }

  /** `losses`: how many final prices are at or below the last observed price. */
  function Losses(prices: seq<real>, last: real): nat
    decreases |prices|
  {
    if prices == [] then 0
    else Losses(prices[..|prices| - 1], last) + (if prices[|prices| - 1] <= last then 1 else 0)
  }

  /** Every final price is counted exactly once, as a gain or as a loss. */
  lemma {:induction false} TallyPartition(prices: seq<real>, last: real)
    ensures Gains(prices, last) + Losses(prices, last) == |prices|
    decreases |prices|
  {
    if prices != [] {
      TallyPartition(prices[..|prices| - 1], last);
    }
  }

  lemma {:induction false} TallyAppend(a: seq<real>, b: seq<real>, last: real)
    ensures Gains(a + b, last) == Gains(a, last) + Gains(b, last)
    ensures Losses(a + b, last) == Losses(a, last) + Losses(b, last)
    decreases |b|
  {
    if b == [] {
      assert a + b == a;
    } else {
      assert (a + b)[..|a + b| - 1] == a + b[..|b| - 1];
      TallyAppend(a, b[..|b| - 1], last);
    }
  }

  /** A price repeated n times is tallied n times on its side. */
  lemma {:induction false} TallyRepeat(x: real, n: nat, last: real)
    ensures Gains(Repeat(x, n), last) == n * Gains([x], last)
    ensures Losses(Repeat(x, n), last) == n * Losses([x], last)
    decreases n
  {
    if n > 0 {
      assert Repeat(x, n)[..n - 1] == Repeat(x, n - 1);
      TallyRepeat(x, n - 1, last);
      assert [x][..0] == [];
    }
  }

  /** There are days entries per run in the result list as written. */
  lemma {:induction false} AsWrittenLength(last: real, samples: seq<seq<real>>, days: nat)
    ensures |AsWrittenPaths(last, samples, days)| == |samples| * days
    decreases |samples|
  {
    if samples != [] {
      AsWrittenLength(last, samples[..|samples| - 1], days);
      assert (|samples| - 1) * days + days == |samples| * days;
    }
  }

  lemma FinalPricesAppend(a: seq<seq<real>>, b: seq<seq<real>>)
    requires forall i :: 0 <= i < |a| ==> a[i] != []
    requires forall i :: 0 <= i < |b| ==> b[i] != []
    ensures FinalPrices(a + b) == FinalPrices(a) + FinalPrices(b)
  {
  }

  lemma FinalPricesRepeat(p: seq<real>, n: nat)
    requires p != []
    ensures FinalPrices(Repeat(p, n)) == Repeat(p[|p| - 1], n)
  {
  }

  /** Each price of `xs` in turn, repeated n times. */
  function Expand(xs: seq<real>, n: nat): seq<real>
    decreases |xs|
  {
    if xs == [] then [] else Expand(xs[..|xs| - 1], n) + Repeat(xs[|xs| - 1], n)
  }

  /** The final prices as written are the intended ones, each repeated once per day. */
  lemma {:induction false} AsWrittenFinalsRepeatRuns(last: real, samples: seq<seq<real>>, days: nat)
    ensures FinalPrices(AsWrittenPaths(last, samples, days)) == Expand(FinalPrices(IntendedPaths(last, samples)), days)
    decreases |samples|
  {
    if samples != [] {
      var init := samples[..|samples| - 1];
      var p := Path(last, samples[|samples| - 1]);
      AsWrittenFinalsRepeatRuns(last, init, days);
      FinalPricesAppend(AsWrittenPaths(last, init, days), Repeat(p, days));
      FinalPricesRepeat(p, days);
      var xs := FinalPrices(IntendedPaths(last, samples));
      assert xs[..|xs| - 1] == FinalPrices(IntendedPaths(last, init));
    }
  }

  lemma Distribute(k: nat, a: nat, b: nat)
    ensures k * (a + b) == k * a + k * b
  {
  }

  /** Repeating every price n times multiplies both counts by n. */
  lemma {:induction false} TallyExpand(xs: seq<real>, n: nat, last: real)
    ensures Gains(Expand(xs, n), last) == n * Gains(xs, last)
    ensures Losses(Expand(xs, n), last) == n * Losses(xs, last)
    decreases |xs|
  {
    if xs != [] {
      var init := xs[..|xs| - 1];
      var x := xs[|xs| - 1];
      TallyExpand(init, n, last);
      TallyAppend(Expand(init, n), Repeat(x, n), last);
      TallyRepeat(x, n, last);
      assert [x][..0] == [];
      Distribute(n, Gains(init, last), Gains([x], last));
      Distribute(n, Losses(init, last), Losses([x], last));
    }
  }

  /** With the append inside the inner loop every run is tallied `days` times:
      both counts are `days` times what one entry per run gives. */
  lemma AsWrittenTallyScales(last: real, samples: seq<seq<real>>, days: nat)
    ensures Gains(FinalPrices(AsWrittenPaths(last, samples, days)), last)
      == days * Gains(FinalPrices(IntendedPaths(last, samples)), last)
    ensures Losses(FinalPrices(AsWrittenPaths(last, samples, days)), last)
      == days * Losses(FinalPrices(IntendedPaths(last, samples)), last)
  {
    AsWrittenFinalsRepeatRuns(last, samples, days);
    TallyExpand(FinalPrices(IntendedPaths(last, samples)), days, last);
  }

  /** As written, `final_prices` has runs * days entries and the tally splits all of them. */
  lemma AsWrittenFinalCount(last: real, samples: seq<seq<real>>, runs: nat, days: nat)
    requires Shaped(samples, runs, days)
    ensures |FinalPrices(AsWrittenPaths(last, samples, days))| == runs * days
    ensures Gains(FinalPrices(AsWrittenPaths(last, samples, days)), last)
      + Losses(FinalPrices(AsWrittenPaths(last, samples, days)), last) == runs * days
  {
    AsWrittenLength(last, samples, days);
    TallyPartition(FinalPrices(AsWrittenPaths(last, samples, days)), last);
  }

  lemma MoreThanOnce(n: nat, k: nat)
    requires n >= 1 && k >= 2
    ensures n * k > n
  {
  }

  /** With two or more days, as the sliders always give, the tally does not
      come to one entry per run. */
  lemma AsWrittenMiscounts(last: real, samples: seq<seq<real>>, runs: nat, days: nat)
    requires Shaped(samples, runs, days) && runs >= 1 && days >= 2
    ensures Gains(FinalPrices(AsWrittenPaths(last, samples, days)), last)
      + Losses(FinalPrices(AsWrittenPaths(last, samples, days)), last) != runs
  {
    AsWrittenFinalCount(last, samples, runs, days);
    MoreThanOnce(runs, days);
  }

  /** As intended, there is one final price per run and the tally splits the runs. */
  lemma IntendedFinalCount(last: real, samples: seq<seq<real>>, runs: nat, days: nat)
    requires Shaped(samples, runs, days)
    ensures |FinalPrices(IntendedPaths(last, samples))| == runs
    ensures Gains(FinalPrices(IntendedPaths(last, samples)), last)
      + Losses(FinalPrices(IntendedPaths(last, samples)), last) == runs
  {
    TallyPartition(FinalPrices(IntendedPaths(last, samples)), last);
  }

  /** Every intended path has days + 1 prices and starts at the last observed price. */
  lemma IntendedPathShape(last: real, samples: seq<seq<real>>, runs: nat, days: nat, r: nat)
    requires Shaped(samples, runs, days) && r < runs
    ensures |IntendedPaths(last, samples)[r]| == days + 1
    ensures IntendedPaths(last, samples)[r][0] == last
  {
  }

  /** A path stays positive while every daily return is above -1. */
  lemma {:induction false} PathStaysPositive(last: real, steps: seq<real>)
    requires last > 0.0
    requires forall k :: 0 <= k < |steps| ==> steps[k] > -1.0
    ensures forall k :: 0 <= k < |steps| + 1 ==> Path(last, steps)[k] > 0.0
    decreases |steps|
  {
    if steps != [] {
      var init := steps[..|steps| - 1];
      PathStaysPositive(last, init);
      var prev := Path(last, init);
      assert steps == init + [steps[|steps| - 1]];
      PathSnoc(last, init, steps[|steps| - 1]);
      NextPricePositive(prev[|prev| - 1], steps[|steps| - 1]);
    }
  }

  /** Nothing keeps a price positive: one return below -1 takes it below zero. */
  lemma NegativeReturnGivesNegativePrice()
    ensures Path(100.0, [-2.0]) == [100.0, -100.0]
  {
    assert [-2.0][..0] == [];
  }
}
