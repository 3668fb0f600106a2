/** From a price distribution to a bid (cpp-bidder/src/bid_optimizer.cpp). Prices and probabilities are exact reals. */
module BidOptimizer {
  import opened Arithmetic
  import opened Types

  ghost predicate NonNegative(p: seq<real>) {
    forall i :: 0 <= i < |p| ==> p[i] >= 0.0
  }

  /** Expected profit of bidding `bid` with a win probability of `cdf`. */
  function Gain(v: real, bid: real, cdf: real): real {
    Times(v - bid, cdf)
  }

  /** Expected profit of bidding `k`; bidding above the value is forced to zero. */
  function Profit(p: seq<real>, v: real, k: nat): real
    requires k < |p|
  {
    if k as real > v then 0.0 else Gain(v, k as real, Mass(p, k + 1))
  }

  /** The profit every real one beats. */
  const NO_PROFIT: real := -1000000000000000000.0

  datatype Best = Best(profit: real, bin: nat, cdf: real)

  /** The running winner after the first `n` bins; a later bin must be strictly better. */
  function Scan(p: seq<real>, v: real, n: nat): (b: Best)
    requires n <= |p|
    ensures b.bin < Max(1, n)
  {
    if n == 0 then Best(NO_PROFIT, 0, 0.0)
    else
      var b := Scan(p, v, n - 1);
      if Profit(p, v, n - 1) > b.profit then Best(Profit(p, v, n - 1), n - 1, Mass(p, n)) else b
  }

  function BestBin(p: seq<real>, v: real): (k: nat)
    ensures p != [] ==> k < |p|
  {
    Scan(p, v, |p|).bin
  }

  /** The CDF at a bid that may fall between two bins. */
  function CdfAt(p: seq<real>, bid: real): real {
    if bid <= 0.0 then 0.0
    else
      var lo := bid.Floor;
      if lo >= |p| - 1 then Mass(p, |p|)
      else Mass(p, lo + 1) + Times(bid - lo as real, p[lo + 1])
  }

  function Clamp(bid: real, top: real): real {
    var floored := if bid < 0.0 then 0.0 else bid;
    if floored > top then top else floored
  }

  function Scaled(bin: real, multiplier: real, top: real): real {
    Clamp(Times(bin, multiplier), top)
  }

  /** The strategy's bid: the best bin scaled and clamped to the price range. */
  function ScaledBid(p: seq<real>, v: real, multiplier: real): real {
    Scaled(BestBin(p, v) as real, multiplier, (|p| - 1) as real)
  }

  function Optimize(p: seq<real>, v: real, multiplier: real): Decision {
    var best := Scan(p, v, |p|);
    if best.profit < 0.0 then EMPTY_DECISION
    else
      var bid := ScaledBid(p, v, multiplier);
      var winP := if multiplier == 1.0 then best.cdf else CdfAt(p, bid);
      Decision(bid, winP, Gain(v, bid, winP))
  }

  // ---------- the scan finds the first best bin ----------

  /** No earlier bin is as good, no later bin is better. */
  ghost predicate FirstBest(p: seq<real>, v: real, k: nat) {
    && k < |p|
    && (forall j :: 0 <= j < k ==> Profit(p, v, j) < Profit(p, v, k))
    && (forall j :: k < j < |p| ==> Profit(p, v, j) <= Profit(p, v, k))
  }

  lemma {:induction false} MassGrows(p: seq<real>, m: nat, n: nat)
    requires NonNegative(p) && m <= n <= |p|
    ensures 0.0 <= Mass(p, m) <= Mass(p, n)
  {
    if 0 < m {
      MassGrows(p, m - 1, m - 1);
    }
    if m < n {
      MassGrows(p, m, n - 1);
    }
  }

  lemma ProfitIsNotNegative(p: seq<real>, v: real, k: nat)
    requires NonNegative(p) && k < |p|
    ensures Profit(p, v, k) >= 0.0
  {
    hide Times;
    MassGrows(p, k + 1, k + 1);
    TimesSign(v - k as real, Mass(p, k + 1));
  }

  lemma {:induction false} ScanFindsFirstBest(p: seq<real>, v: real, n: nat)
    requires NonNegative(p) && 0 < n <= |p|
    ensures var b := Scan(p, v, n);
      && b.bin < n && b.profit == Profit(p, v, b.bin) && b.cdf == Mass(p, b.bin + 1)
      && (forall j :: 0 <= j < b.bin ==> Profit(p, v, j) < b.profit)
      && (forall j :: 0 <= j < n ==> Profit(p, v, j) <= b.profit)
  {
    hide Profit;
    ProfitIsNotNegative(p, v, n - 1);
    if n > 1 {
      ScanFindsFirstBest(p, v, n - 1);
    }
  }

  /** For probabilities, the chosen bin is the first maximum of the profit, and it is never above the
      value unless the value is negative, when it is bin zero. */
  lemma BestBinIsFirstBest(p: seq<real>, v: real)
    requires NonNegative(p) && p != []
    ensures FirstBest(p, v, BestBin(p, v))
    ensures forall k :: FirstBest(p, v, k) ==> k == BestBin(p, v)
    ensures v >= 0.0 ==> BestBin(p, v) as real <= v
    ensures v < 0.0 ==> BestBin(p, v) == 0
  {
    hide Gain;
    ScanFindsFirstBest(p, v, |p|);
    ProfitIsNotNegative(p, v, 0);
  }

  // ---------- comparative statics ----------

  /** A price with more mass gains more from a higher value. */
  lemma GapWidens(v: real, w: real, low: real, high: real, lowMass: real, highMass: real)
    requires v <= w && lowMass <= highMass
    requires Gain(v, low, lowMass) < Gain(v, high, highMass)
    ensures Gain(w, low, lowMass) < Gain(w, high, highMass)
  {
    hide Times;
    TimesAdds(w - v, v - high, highMass);
    TimesAdds(w - v, v - low, lowMass);
    TimesGrows(lowMass, highMass, w - v);
  }

  lemma HigherBinStaysAhead(p: seq<real>, v: real, w: real, low: nat, high: nat)
    requires NonNegative(p) && low < high < |p| && high as real <= v <= w
    requires Profit(p, v, low) < Profit(p, v, high)
    ensures Profit(p, w, low) < Profit(p, w, high)
  {
    hide Gain;
    MassGrows(p, low + 1, high + 1);
    GapWidens(v, w, low as real, high as real, Mass(p, low + 1), Mass(p, high + 1));
  }

  /** Raising the value never lowers the chosen bin. */
  lemma BestBinGrowsWithValue(p: seq<real>, v: real, w: real)
    requires NonNegative(p) && v <= w
    ensures BestBin(p, v) <= BestBin(p, w)
  {
    hide Gain;
    if p != [] {
      var a, b := BestBin(p, v), BestBin(p, w);
      BestBinIsFirstBest(p, v);
      BestBinIsFirstBest(p, w);
      if b < a {
        HigherBinStaysAhead(p, v, w, b, a);
        assert false;
      }
    }
  }

  lemma ScalingIsMonotone(a: real, b: real, multiplier: real, top: real)
    requires 0.0 <= a <= b && top >= 0.0
    ensures 0.0 <= Scaled(a, multiplier, top) <= Scaled(b, multiplier, top) <= top
  {
    hide Times;
    TimesSign(a, multiplier);
    TimesSign(multiplier, a);
    TimesSign(multiplier, b);
    if multiplier >= 0.0 {
      TimesGrows(a, b, multiplier);
    }
  }

  lemma DecisionShape(p: seq<real>, v: real, multiplier: real)
    requires NonNegative(p) && p != []
    ensures Optimize(p, v, multiplier).bidPrice == ScaledBid(p, v, multiplier)
    ensures Optimize(p, v, multiplier).winProbability ==
      if multiplier == 1.0 then Mass(p, BestBin(p, v) + 1) else CdfAt(p, ScaledBid(p, v, multiplier))
    ensures Optimize(p, v, multiplier).expectedProfit ==
      Gain(v, Optimize(p, v, multiplier).bidPrice, Optimize(p, v, multiplier).winProbability)
  {
    hide Gain;
    AlwaysBids(p, v);
    ScanFindsFirstBest(p, v, |p|);
  }

  /** Nor does it lower the final bid, under any fixed multiplier. */
  lemma BidGrowsWithValue(p: seq<real>, v: real, w: real, multiplier: real)
    requires NonNegative(p) && p != [] && v <= w
    ensures 0.0 <= Optimize(p, v, multiplier).bidPrice <= Optimize(p, w, multiplier).bidPrice <= (|p| - 1) as real
  {
    hide Gain, Scaled;
    BestBinGrowsWithValue(p, v, w);
    DecisionShape(p, v, multiplier);
    DecisionShape(p, w, multiplier);
    ScalingIsMonotone(BestBin(p, v) as real, BestBin(p, w) as real, multiplier, (|p| - 1) as real);
  }

  /** What the strategy does to the bid: the first best bin times the multiplier wherever that is a price, nothing for a
      multiplier that is not positive, and the highest price beyond it. */
  lemma StrategyScalesTheBestBin(p: seq<real>, v: real, multiplier: real, k: nat)
    requires NonNegative(p) && FirstBest(p, v, k)
    ensures var bid, product := Optimize(p, v, multiplier).bidPrice, k as real * multiplier;
      && (multiplier <= 0.0 ==> bid == 0.0)
      && (0.0 <= product <= (|p| - 1) as real ==> bid == product)
      && (product > (|p| - 1) as real ==> bid == (|p| - 1) as real)
  {
    hide Optimize, BestBin, FirstBest, NonNegative, Scaled;
    ThatBin(p, v, k);
    DecisionShape(p, v, multiplier);
    ScalingByCases(k as real, multiplier, (|p| - 1) as real);
  }

  lemma ThatBin(p: seq<real>, v: real, k: nat)
    requires NonNegative(p) && FirstBest(p, v, k)
    ensures p != [] && k == BestBin(p, v)
  {
    BestBinIsFirstBest(p, v);
  }

  lemma ScalingByCases(bin: real, multiplier: real, top: real)
    requires bin >= 0.0 && top >= 0.0
    ensures multiplier <= 0.0 ==> Scaled(bin, multiplier, top) == 0.0
    ensures 0.0 <= bin * multiplier <= top ==> Scaled(bin, multiplier, top) == bin * multiplier
    ensures bin * multiplier > top ==> Scaled(bin, multiplier, top) == top
  {
    if multiplier <= 0.0 {
      NeverPositive(bin, multiplier);
    }
  }

  lemma NeverPositive(a: real, b: real)
    requires a >= 0.0 && b <= 0.0
    ensures a * b <= 0.0
  {
  }

  /** What is reported with the bid: at multiplier one the mass up to the best bin, otherwise the interpolated CDF at
      the bid, and the profit that bid makes at that probability. */
  lemma ReportIsThatOfTheBid(p: seq<real>, v: real, multiplier: real, k: nat)
    requires NonNegative(p) && FirstBest(p, v, k)
    ensures var d := Optimize(p, v, multiplier);
      && d.winProbability == (if multiplier == 1.0 then Mass(p, k + 1) else CdfAt(p, d.bidPrice))
      && d.expectedProfit == (v - d.bidPrice) * d.winProbability
  {
    hide Optimize, BestBin, FirstBest, NonNegative, CdfAt, Gain;
    ThatBin(p, v, k);
    DecisionShape(p, v, multiplier);
    var d := Optimize(p, v, multiplier);
    assert (v - d.bidPrice) * d.winProbability == Gain(v, d.bidPrice, d.winProbability) by {
      GainIsTheProduct(v, d.bidPrice, d.winProbability);
    }
  }

  lemma GainIsTheProduct(v: real, bid: real, cdf: real)
    ensures Gain(v, bid, cdf) == (v - bid) * cdf
  {
  }

  /** The "sit out" branch is dead for a real distribution. */
  lemma AlwaysBids(p: seq<real>, v: real)
    requires NonNegative(p) && p != []
    ensures Scan(p, v, |p|).profit >= 0.0
  {
    ScanFindsFirstBest(p, v, |p|);
    ProfitIsNotNegative(p, v, 0);
  }

  /** The profit without the rule that bids above the value earn zero. */
  function RawProfit(p: seq<real>, v: real, k: nat): real
    requires k < |p|
  {
    Gain(v, k as real, Mass(p, k + 1))
  }

  /** Forcing bids above the value to zero never changes which bin is chosen for a value of at least zero. */
  lemma ZeroingNeverChangesTheBin(p: seq<real>, v: real)
    requires NonNegative(p) && p != [] && v >= 0.0
    ensures forall j :: 0 <= j < BestBin(p, v) ==> RawProfit(p, v, j) < RawProfit(p, v, BestBin(p, v))
    ensures forall j :: BestBin(p, v) < j < |p| ==> RawProfit(p, v, j) <= RawProfit(p, v, BestBin(p, v))
  {
    hide Profit, RawProfit;
    var k := BestBin(p, v);
    BestBinIsFirstBest(p, v);
    forall j | 0 <= j < |p|
      ensures j < k ==> RawProfit(p, v, j) < RawProfit(p, v, k)
      ensures k < j ==> RawProfit(p, v, j) <= RawProfit(p, v, k)
    {
      RawProfitIsAtMostProfit(p, v, j);
      RawProfitIsAtMostProfit(p, v, k);
    }
  }

  lemma RawProfitIsAtMostProfit(p: seq<real>, v: real, k: nat)
    requires NonNegative(p) && k < |p|
    ensures RawProfit(p, v, k) <= Profit(p, v, k)
    ensures k as real <= v ==> RawProfit(p, v, k) == Profit(p, v, k)
  {
    hide Times;
    MassGrows(p, k + 1, k + 1);
    TimesSign(v - k as real, Mass(p, k + 1));
  }

  /** First-wins matters: the last of the best bins can fall when the value rises. */
  lemma LastBestCanFall()
    ensures var p, v, w := [0.0, 1.0, 0.0], 0.5, 2.0;
      && NonNegative(p) && v < w
      && (forall j :: 0 <= j < 3 ==> Profit(p, v, j) <= Profit(p, v, 2))
      && Profit(p, w, 2) < Profit(p, w, 1)
  {
    var p := [0.0, 1.0, 0.0];
    assert Mass(p, 1) == 0.0 && Mass(p, 2) == 1.0 && Mass(p, 3) == 1.0;
    assert Profit(p, 0.5, 0) == 0.0 && Profit(p, 0.5, 1) == 0.0 && Profit(p, 0.5, 2) == 0.0;
  }

  // ---------- the interpolated CDF ----------

  /** It meets the running sum at every integer bid from one on, and is zero at bid zero. */
  lemma CdfMeetsRunningSum(p: seq<real>, k: nat)
    requires k < |p|
    ensures CdfAt(p, k as real) == if k == 0 then 0.0 else Mass(p, k + 1)
  {
    hide Times;
    if 0 < k < |p| - 1 {
      TimesUnits(p[k + 1]);
      assert (k as real).Floor == k;
    }
  }

  /** Between two integers it is the straight line between their running sums, and past the last bin the whole mass. */
  lemma CdfIsLinearBetween(p: seq<real>, k: nat, frac: real)
    requires 0.0 <= frac <= 1.0 && k as real + frac > 0.0
    ensures k + 1 < |p| ==> CdfAt(p, k as real + frac) == Mass(p, k + 1) + frac * (Mass(p, k + 2) - Mass(p, k + 1))
    ensures k + 1 >= |p| ==> CdfAt(p, k as real + frac) == Mass(p, |p|)
  {
    if frac == 1.0 && k + 1 < |p| {
      CdfMeetsRunningSum(p, k + 1);
      assert k as real + frac == (k + 1) as real;
    } else if frac < 1.0 {
      assert (k as real + frac).Floor == k;
    } else {
      assert (k as real + frac).Floor == k + 1;
    }
  }

  lemma CdfGrowsInItsCell(p: seq<real>, a: real, b: real)
    requires NonNegative(p) && 0.0 < a <= b && a.Floor == b.Floor
    ensures CdfAt(p, a) <= CdfAt(p, b)
  {
    hide Times, Mass;
    var lo := a.Floor;
    if lo < |p| - 1 {
      TimesGrows(a - lo as real, b - lo as real, p[lo + 1]);
    }
  }

  lemma NothingBelowZero(p: seq<real>, bid: real)
    requires bid <= 0.0
    ensures CdfAt(p, bid) == 0.0
  {
  }

  /** It never decreases and stays between zero and the total mass. */
  lemma CdfIsMonotone(p: seq<real>, a: real, b: real)
    requires NonNegative(p) && a <= b
    ensures 0.0 <= CdfAt(p, a) <= CdfAt(p, b) <= Mass(p, |p|)
  {
    hide CdfAt, Mass;
    CdfWithinItsCell(p, a);
    CdfWithinItsCell(p, b);
    if a <= 0.0 {
      NothingBelowZero(p, a);
    } else if a.Floor < b.Floor {
      MassGrows(p, Min(a.Floor + 2, |p|), Min(b.Floor + 1, |p|));
    } else {
      CdfGrowsInItsCell(p, a, b);
    }
  }

  lemma CdfWithinItsCell(p: seq<real>, bid: real)
    requires NonNegative(p)
    ensures 0.0 <= CdfAt(p, bid) <= Mass(p, |p|)
    ensures bid > 0.0 ==> Mass(p, Min(bid.Floor + 1, |p|)) <= CdfAt(p, bid) <= Mass(p, Min(bid.Floor + 2, |p|))
  {
    hide Times;
    MassGrows(p, |p|, |p|);
    if bid > 0.0 {
      var lo := bid.Floor;
      MassGrows(p, Min(lo + 1, |p|), |p|);
      MassGrows(p, Min(lo + 2, |p|), |p|);
      if lo < |p| - 1 {
        var frac, next := bid - lo as real, p[lo + 1];
        TimesSign(frac, next);
        TimesGrows(frac, 1.0, next);
        TimesUnits(next);
        assert Mass(p, lo + 2) == Mass(p, lo + 1) + next;
      }
    }
  }

  /** For a value of at least zero, at multiplier one the reported profit is the maximum over the bins. */
  lemma ProfitMaximiserReportsTheMaximum(p: seq<real>, v: real)
    requires NonNegative(p) && p != [] && v >= 0.0
    ensures Optimize(p, v, 1.0).bidPrice == BestBin(p, v) as real
    ensures Optimize(p, v, 1.0).expectedProfit == Profit(p, v, BestBin(p, v))
    ensures forall k :: 0 <= k < |p| ==> Profit(p, v, k) <= Optimize(p, v, 1.0).expectedProfit
  {
    hide Times;
    DecisionShape(p, v, 1.0);
    BestBinIsFirstBest(p, v);
    TimesUnits(BestBin(p, v) as real);
    hide Optimize, CdfAt;
  }

  /** Moving a bid down from the next bin, by less than one, gains less than the mass there. */
  lemma PartialStep(v: real, bid: real, next: real, cdf: real, up: real)
    requires 0.0 <= cdf <= up && bid <= next <= bid + 1.0 && bid <= v
    ensures Gain(v, bid, cdf) <= if next <= v then Gain(v, next, up) + up else up
  {
    hide Times;
    TimesGrows(cdf, up, v - bid);
    TimesUnits(up);
    if next <= v {
      TimesAdds(v - next, next - bid, up);
      TimesGrows(next - bid, 1.0, up);
    } else {
      TimesGrows(v - bid, 1.0, up);
    }
  }

  /** Between two bins a bid can gain at most the total mass over the best bin. */
  lemma OffGridProfit(p: seq<real>, v: real, bid: real, best: real)
    requires NonNegative(p) && p != [] && v >= 0.0 && 0.0 <= bid <= (|p| - 1) as real
    requires best >= 0.0
    requires forall k :: 0 <= k < |p| ==> Profit(p, v, k) <= best
    ensures Gain(v, bid, CdfAt(p, bid)) <= best + Mass(p, |p|)
  {
    CdfWithinItsCell(p, bid);
    if v < bid {
      hide Times, CdfAt;
      TimesSign(v - bid, CdfAt(p, bid));
    } else if bid == 0.0 {
      TimesUnits(v - bid);
      MassGrows(p, |p|, |p|);
      hide Times;
    } else {
      PositiveBidProfit(p, v, bid, best);
    }
  }

  lemma PositiveBidProfit(p: seq<real>, v: real, bid: real, best: real)
    requires NonNegative(p) && p != [] && 0.0 < bid <= (|p| - 1) as real && bid <= v
    requires best >= 0.0
    requires forall k :: 0 <= k < |p| ==> Profit(p, v, k) <= best
    ensures Gain(v, bid, CdfAt(p, bid)) <= best + Mass(p, |p|)
  {
    hide Times, Gain;
    var lo := bid.Floor;
    MassGrows(p, |p|, |p|);
    if lo == |p| - 1 {
      assert bid == lo as real;
      assert Profit(p, v, lo) == Gain(v, bid, CdfAt(p, bid));
    } else {
      CdfWithinItsCell(p, bid);
      hide CdfAt;
      MassGrows(p, lo + 2, |p|);
      PartialStep(v, bid, (lo + 1) as real, CdfAt(p, bid), Mass(p, lo + 2));
      assert Profit(p, v, lo + 1) <= best;
    }
  }

  /** Whatever the multiplier, the reported profit exceeds the profit-maximising strategy's by at most
      the total mass. With a negative value it can fail, and then it fails exactly when the multiplier
      is not one and the loss of bidding zero outweighs the total mass: the multiplied strategies are
      then credited with never winning at zero, the profit maximiser with winning bin zero. */
  lemma OffGridLossIsBounded(p: seq<real>, v: real, multiplier: real)
    requires NonNegative(p) && p != []
    ensures Optimize(p, v, multiplier).expectedProfit <= Optimize(p, v, 1.0).expectedProfit + Mass(p, |p|)
      <==> v >= 0.0 || multiplier == 1.0 || -Times(v, p[0]) <= Mass(p, |p|)
  {
    hide Gain, Scaled, Optimize, Times, CdfAt;
    MassGrows(p, |p|, |p|);
    DecisionShape(p, v, multiplier);
    if v >= 0.0 {
      ProfitMaximiserReportsTheMaximum(p, v);
      ProfitIsNotNegative(p, v, BestBin(p, v));
      if multiplier != 1.0 {
        var bin := BestBin(p, v) as real;
        ScalingIsMonotone(bin, bin, multiplier, (|p| - 1) as real);
        OffGridProfit(p, v, ScaledBid(p, v, multiplier), Optimize(p, v, 1.0).expectedProfit);
      }
    } else {
      NegativeValueBidsZero(p, v, multiplier);
      NegativeValueBidsZero(p, v, 1.0);
    }
  }

  lemma NegativeValueBidsZero(p: seq<real>, v: real, multiplier: real)
    requires NonNegative(p) && p != [] && v < 0.0
    ensures Optimize(p, v, multiplier).bidPrice == 0.0
    ensures Optimize(p, v, multiplier).expectedProfit == if multiplier == 1.0 then Times(v, p[0]) else 0.0
  {
    hide Times, Optimize;
    DecisionShape(p, v, multiplier);
    BestBinIsFirstBest(p, v);
    TimesUnits(multiplier);
    TimesUnits(v);
    assert v - 0.0 == v;
    assert ScaledBid(p, v, multiplier) == Scaled(0.0, multiplier, (|p| - 1) as real);
    assert Mass(p, 1) == Mass(p, 0) + p[0];
  }

  lemma OffGridLossCanExceedTheMass()
    ensures var p, v := [1.0], -2.0;
      Optimize(p, v, 2.0).expectedProfit > Optimize(p, v, 1.0).expectedProfit + Mass(p, |p|)
  {
    OffGridLossIsBounded([1.0], -2.0, 2.0);
    assert Mass([1.0], 1) == 1.0;
  }

  // ---------- the two loops ----------

  method InterpolatedCdf(p: seq<real>, bid: real) returns (cdf: real)
    ensures cdf == CdfAt(p, bid)
  {
    hide Times;
    if bid <= 0.0 {
      return 0.0;
    }
    var lo := bid.Floor;
    if lo >= |p| - 1 {
      var total := 0.0;
      for k := 0 to |p|
        invariant total == Mass(p, k)
      {
        total := total + p[k];
      }
      return total;
    }
    var cum := 0.0;
    for k := 0 to lo + 1
      invariant cum == Mass(p, k)
    {
      cum := cum + p[k];
    }
    var frac := bid - lo as real;
    cdf := cum + Times(frac, p[lo + 1]);
  }

  method OptimizeBid(p: seq<real>, v: real, multiplier: real) returns (d: Decision)
    ensures d == Optimize(p, v, multiplier)
  {
    hide Gain, CdfAt, Times;
    var running := 0.0;
    var bestProfit, bestK, bestCdf := NO_PROFIT, 0, 0.0;
    for k := 0 to |p|
      invariant running == Mass(p, k)
      invariant Best(bestProfit, bestK, bestCdf) == Scan(p, v, k)
    {
      running := running + p[k];
      var profit;
      if k as real > v {
        profit := 0.0;
      } else {
        profit := Gain(v, k as real, running);
      }
      if profit > bestProfit {
        bestProfit, bestK, bestCdf := profit, k, running;
      }
    }
    if bestProfit < 0.0 {
      return EMPTY_DECISION;
    }
    var bid := Times(bestK as real, multiplier);
    if bid < 0.0 {
      bid := 0.0;
    }
    var maxBid := (|p| - 1) as real;
    if bid > maxBid {
      bid := maxBid;
    }
    var winP;
    if multiplier == 1.0 {
      winP := bestCdf;
    } else {
      winP := InterpolatedCdf(p, bid);
    }
    d := Decision(bid, winP, Gain(v, bid, winP));
    assert d == Optimize(p, v, multiplier);
  }
}
