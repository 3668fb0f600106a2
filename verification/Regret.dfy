/** The reference optimiser and the regret it is selected on (rtb-bid-model/src/bid_optimizer.py). */
module Regret {
  import opened Arithmetic
  import opened Types
  import opened BidOptimizer

  // ---------- the reference grid optimiser ----------

  /** The first index of the largest profit among the first `n` bins. */
  function GridArgmax(p: seq<real>, v: real, n: nat): (k: nat)
    requires 0 < n <= |p|
    ensures k < n
  {
    if n == 1 then 0
    else
      var k := GridArgmax(p, v, n - 1);
      if Profit(p, v, n - 1) > Profit(p, v, k) then n - 1 else k
  }

  /** A negative best profit means no bid. */
  function GridOptimize(p: seq<real>, v: real): (real, real)
    requires p != []
  {
    var k := GridArgmax(p, v, |p|);
    if Profit(p, v, k) < 0.0 then (0.0, 0.0) else (k as real, Profit(p, v, k))
  }

  lemma {:induction false} ScanFollowsGrid(p: seq<real>, v: real, n: nat)
    requires 0 < n <= |p|
    ensures var k, b := GridArgmax(p, v, n), Scan(p, v, n);
      && (forall j :: 0 <= j < n ==> Profit(p, v, j) <= Profit(p, v, k))
      && if Profit(p, v, k) > NO_PROFIT then b == Best(Profit(p, v, k), k, Mass(p, k + 1))
         else b == Best(NO_PROFIT, 0, 0.0)
  {
    hide Profit;
    if n > 1 {
      ScanFollowsGrid(p, v, n - 1);
    }
    assert Scan(p, v, 0) == Best(NO_PROFIT, 0, 0.0);
  }

  /** The served optimiser at multiplier one makes the reference's bid on every distribution and value,
      its sentinel included. */
  lemma ServedBidMatchesReference(p: seq<real>, v: real)
    requires p != []
    ensures Optimize(p, v, 1.0).bidPrice == GridOptimize(p, v).0
  {
    hide Profit, Gain, Times;
    ScanFollowsGrid(p, v, |p|);
    TimesUnits(GridArgmax(p, v, |p|) as real);
    TimesUnits(1.0);
  }

  /** The profit the two report for a distribution agrees exactly when the value is not negative or
      bin zero has no mass: below zero the reference reports the zeroed profit, the server the loss. */
  lemma ReportedProfitMatchesReference(p: seq<real>, v: real)
    requires NonNegative(p) && p != []
    ensures Optimize(p, v, 1.0).expectedProfit == GridOptimize(p, v).1 <==> v >= 0.0 || p[0] == 0.0
  {
    hide Times, Optimize, Gain;
    ScanFollowsGrid(p, v, |p|);
    BestBinIsFirstBest(p, v);
    ProfitIsNotNegative(p, v, BestBin(p, v));
    if v >= 0.0 {
      ProfitMaximiserReportsTheMaximum(p, v);
    } else {
      NegativeValueBidsZero(p, v, 1.0);
      TimesSign(v, p[0]);
      TimesUnits(v);
    }
  }

  /** They can differ: all mass on bin zero and a value of -1. */
  lemma ReportedProfitCanDiffer()
    ensures Optimize([1.0], -1.0, 1.0).expectedProfit != GridOptimize([1.0], -1.0).1
  {
    hide Optimize, GridOptimize;
    ReportedProfitMatchesReference([1.0], -1.0);
  }

  // ---------- regret ----------

  function PerfectProfit(pay: real, v: real): real {
    if v > pay then v - pay else 0.0
  }

  function Realized(bid: real, pay: real, v: real): real {
    if bid >= pay then v - bid else 0.0
  }

  function RegretOf(bid: real, pay: real, v: real): real {
    PerfectProfit(pay, v) - Realized(bid, pay, v)
  }

  datatype Outcome = Outcome(bid: real, pay: real, value: real)

  function TotalRegret(log: seq<Outcome>): real {
    if log == [] then 0.0
    else TotalRegret(log[..|log| - 1]) + RegretOf(log[|log| - 1].bid, log[|log| - 1].pay, log[|log| - 1].value)
  }

  /** No log of auctions, whatever was bid, has negative regret; bidding exactly the clearing price
      when it is below the value, and losing otherwise, has none. */
  lemma {:induction false} RegretIsNeverNegative(log: seq<Outcome>)
    ensures TotalRegret(log) >= 0.0
    ensures TotalRegret(log) == 0.0 <==>
      forall i :: 0 <= i < |log| ==> RegretOf(log[i].bid, log[i].pay, log[i].value) == 0.0
  {
    if log != [] {
      RegretIsNeverNegative(log[..|log| - 1]);
      assert forall i :: 0 <= i < |log| - 1 ==> log[i] == log[..|log| - 1][i];
    }
  }

  lemma RegretVanishesExactlyForThePerfectBid(bid: real, pay: real, v: real)
    ensures RegretOf(bid, pay, v) >= 0.0
    ensures RegretOf(bid, pay, v) == 0.0 <==> if v > pay then bid == pay else bid < pay || bid == v
  {
  }

  // ---------- expected regret under the model ----------

  /** Regret of `bid` when the clearing price is drawn from the first `n` bins. */
  function ExpectedRegret(p: seq<real>, v: real, bid: real, n: nat): real
    requires n <= |p|
  {
    if n == 0 then 0.0
    else ExpectedRegret(p, v, bid, n - 1) + Times(p[n - 1], RegretOf(bid, (n - 1) as real, v))
  }

  function ExpectedOracle(p: seq<real>, v: real, n: nat): real
    requires n <= |p|
  {
    if n == 0 then 0.0 else ExpectedOracle(p, v, n - 1) + Times(p[n - 1], PerfectProfit((n - 1) as real, v))
  }

  /** The number of the first `n` bins a bid wins. */
  function Won(bid: real, n: nat): nat {
    if bid < 0.0 then 0 else Min(bid.Floor + 1, n)
  }

  /** Summing over prices instead of outcomes: expected regret is the oracle's profit less (V - b) CDF(b). */
  lemma {:induction false} ExpectedRegretSplits(p: seq<real>, v: real, bid: real, n: nat)
    requires n <= |p|
    ensures ExpectedRegret(p, v, bid, n) == ExpectedOracle(p, v, n) - Gain(v, bid, Mass(p, Won(bid, n)))
  {
    hide Times, Gain, RegretOf, PerfectProfit;
    if n > 0 {
      ExpectedRegretSplits(p, v, bid, n - 1);
      var pay := (n - 1) as real;
      RegretSplits(p[n - 1], bid, pay, v);
      if bid >= pay {
        WonAll(bid, n);
        GainAddsUp(v, bid, Mass(p, n - 1), p[n - 1]);
      } else {
        WonNoMore(bid, n);
      }
    } else {
      NothingGained(v, bid);
    }
  }

  lemma WonAll(bid: real, n: nat)
    requires n > 0 && bid >= (n - 1) as real
    ensures Won(bid, n) == n && Won(bid, n - 1) == n - 1
  {
  }

  lemma WonNoMore(bid: real, n: nat)
    requires n > 0 && bid < (n - 1) as real
    ensures Won(bid, n) == Won(bid, n - 1)
  {
  }

  lemma NothingGained(v: real, bid: real)
    ensures Gain(v, bid, 0.0) == 0.0
  {
    TimesUnits(v - bid);
    hide Times;
  }

  lemma RegretSplits(mass: real, bid: real, pay: real, v: real)
    ensures Times(mass, RegretOf(bid, pay, v))
         == Times(mass, PerfectProfit(pay, v)) - if bid >= pay then Gain(v, bid, mass) else 0.0
  {
    hide Times;
    TimesAdds(RegretOf(bid, pay, v), Realized(bid, pay, v), mass);
    TimesCommutes(mass, v - bid);
    TimesUnits(mass);
    assert RegretOf(bid, pay, v) + Realized(bid, pay, v) == PerfectProfit(pay, v);
  }

  lemma GainAddsUp(v: real, bid: real, a: real, b: real)
    ensures Gain(v, bid, a + b) == Gain(v, bid, a) + Gain(v, bid, b)
  {
    TimesAdds(a, b, v - bid);
    hide Times;
  }

  /** The bin with the highest expected profit has the lowest model-expected regret of all bids of at
      least zero, between bins and above the value included; for a value of at least zero, of all bids. */
  lemma BestBinMinimisesExpectedRegret(p: seq<real>, v: real, bid: real)
    requires NonNegative(p) && p != []
    requires bid >= 0.0 || v >= 0.0
    ensures ExpectedRegret(p, v, GridOptimize(p, v).0, |p|) <= ExpectedRegret(p, v, bid, |p|)
  {
    hide Gain, Times;
    var k := BestBin(p, v);
    ServedBidMatchesReference(p, v);
    DecisionShape(p, v, 1.0);
    BestBinIsFirstBest(p, v);
    TimesUnits(k as real);
    hide Optimize, ExpectedRegret, ExpectedOracle, GridOptimize;
    ExpectedRegretSplits(p, v, k as real, |p|);
    ExpectedRegretSplits(p, v, bid, |p|);
    BestBinBeatsEveryBid(p, v, bid);
  }

  lemma BestBinBeatsEveryBid(p: seq<real>, v: real, bid: real)
    requires NonNegative(p) && p != []
    requires bid >= 0.0 || v >= 0.0
    ensures Gain(v, bid, Mass(p, Won(bid, |p|))) <= Gain(v, BestBin(p, v) as real, Mass(p, BestBin(p, v) + 1))
  {
    hide Gain;
    var k, won := BestBin(p, v), Won(bid, |p|);
    BestBinIsFirstBest(p, v);
    MassGrows(p, won, won);
    if v < 0.0 {
      // every price loses, and bin zero loses least
      MassGrows(p, 1, won);
      LosesLeast(v, bid, Mass(p, 1), Mass(p, won));
    } else {
      ProfitIsNotNegative(p, v, k);
      if bid < 0.0 || v < bid {
        CannotGain(v, bid, Mass(p, won));
      } else {
        CheaperGainsMore(v, bid, (won - 1) as real, Mass(p, won));
        assert Profit(p, v, won - 1) <= Profit(p, v, k);
      }
    }
  }

  lemma CannotGain(v: real, bid: real, mass: real)
    requires mass >= 0.0 && (v <= bid || mass == 0.0)
    ensures Gain(v, bid, mass) <= 0.0
  {
    hide Times;
    TimesSign(v - bid, mass);
    TimesUnits(v - bid);
  }

  lemma CheaperGainsMore(v: real, bid: real, price: real, mass: real)
    requires price <= bid && mass >= 0.0
    ensures Gain(v, bid, mass) <= Gain(v, price, mass)
  {
    hide Times;
    TimesGrows(v - bid, v - price, mass);
  }

  lemma LosesLeast(v: real, bid: real, low: real, high: real)
    requires v < 0.0 <= bid && 0.0 <= low <= high
    ensures Gain(v, bid, high) <= Gain(v, 0.0, low)
  {
    hide Times;
    TimesGrows(v - bid, v, high);
    TimesAdds(low, high - low, v);
    TimesSign(v, high - low);
    assert low + (high - low) == high && v - 0.0 == v;
  }

  /** A negative bid is the one escape from a negative value: it beats bin zero exactly when bin zero has mass. */
  lemma NegativeBidBeatsBinZero(p: seq<real>, v: real, bid: real)
    requires NonNegative(p) && p != [] && v < 0.0 && bid < 0.0
    ensures ExpectedRegret(p, v, bid, |p|) < ExpectedRegret(p, v, GridOptimize(p, v).0, |p|) <==> p[0] > 0.0
  {
    hide Times, Optimize, GridOptimize, ExpectedRegret, ExpectedOracle;
    ServedBidMatchesReference(p, v);
    NegativeValueBidsZero(p, v, 1.0);
    ExpectedRegretSplits(p, v, 0.0, |p|);
    ExpectedRegretSplits(p, v, bid, |p|);
    NothingGained(v, bid);
    assert Mass(p, 1) == Mass(p, 0) + p[0];
    assert v - 0.0 == v;
    TimesSign(v, p[0]);
    TimesUnits(v);
  }
}
