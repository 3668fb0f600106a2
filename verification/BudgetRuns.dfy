/** Spending a budget over an auction log: the skip-and-continue simulator
    (rtb-bid-model/src/experiments/budget_eval.py)
    and the constant-bid loop that stops early (rtb-bid-model/src/experiments/budget_naive.py). */
module BudgetRuns {
  import opened Arithmetic
  import opened Types

  /** One auction: the price that won it in the log, what winning is worth, and whether it brought clicks. */
  datatype Auction = Auction(price: real, value: real, clicks: real)

  datatype Report = Report(won: nat, spent: real, profit: real, clicksWon: nat, meanCost: real)

  // ---------- what a list of won auctions adds up to ----------

  ghost predicate Within(taken: seq<nat>, n: nat) {
    forall k :: 0 <= k < |taken| ==> taken[k] < n
  }

  function Cost(taken: seq<nat>, bids: seq<real>): real
    requires Within(taken, |bids|)
  {
    if taken == [] then 0.0 else Cost(taken[..|taken| - 1], bids) + bids[taken[|taken| - 1]]
  }

  function Value(taken: seq<nat>, log: seq<Auction>): real
    requires Within(taken, |log|)
  {
    if taken == [] then 0.0 else Value(taken[..|taken| - 1], log) + log[taken[|taken| - 1]].value
  }

  /** Auctions with clicks among the won ones; a log without a click column counts none. */
  function Clicked(taken: seq<nat>, log: seq<Auction>, counted: bool): nat
    requires Within(taken, |log|)
  {
    if taken == [] then 0
    else Clicked(taken[..|taken| - 1], log, counted) + if counted && log[taken[|taken| - 1]].clicks > 0.0 then 1 else 0
  }

  function MeanCost(spent: real, won: nat): real {
    Over(spent, Max(1, won) as real)
  }

  function ReportOf(taken: seq<nat>, bids: seq<real>, log: seq<Auction>, counted: bool): Report
    requires Within(taken, |log|) && |bids| == |log|
  {
    Report(|taken|, Cost(taken, bids), Value(taken, log) - Cost(taken, bids), Clicked(taken, log, counted),
           MeanCost(Cost(taken, bids), |taken|))
  }

  // ---------- the auctions each loop wins ----------

  /** The simulator passes over what it cannot pay for and goes on. */
  function Taken(bids: seq<real>, log: seq<Auction>, budget: real, n: nat): (t: seq<nat>)
    requires n <= |bids| == |log|
    ensures Within(t, n)
  {
    if n == 0 then []
    else
      var t := Taken(bids, log, budget, n - 1);
      var b := bids[n - 1];
      if b > 0.0 && Cost(t, bids) + b <= budget && b >= log[n - 1].price then t + [n - 1] else t
  }

  lemma CostGrows(t: seq<nat>, i: nat, bids: seq<real>)
    requires Within(t, |bids|) && i < |bids|
    ensures Within(t + [i], |bids|) && Cost(t + [i], bids) == Cost(t, bids) + bids[i]
  {
    assert (t + [i])[..|t|] == t;
  }

  lemma TotalsGrow(t: seq<nat>, i: nat, log: seq<Auction>, counted: bool)
    requires Within(t, |log|) && i < |log|
    ensures Within(t + [i], |log|)
    ensures Value(t + [i], log) == Value(t, log) + log[i].value
    ensures Clicked(t + [i], log, counted) == Clicked(t, log, counted) + if counted && log[i].clicks > 0.0 then 1 else 0
  {
    assert (t + [i])[..|t|] == t;
  }

  lemma TakenStep(bids: seq<real>, log: seq<Auction>, budget: real, i: nat)
    requires i < |bids| == |log|
    ensures var t := Taken(bids, log, budget, i);
            Taken(bids, log, budget, i + 1) ==
              if bids[i] > 0.0 && Cost(t, bids) + bids[i] <= budget && bids[i] >= log[i].price then t + [i] else t
  {
    hide Cost;
  }

  lemma NothingTaken(bids: seq<real>, log: seq<Auction>, budget: real, counted: bool)
    requires |bids| == |log|
    ensures Taken(bids, log, budget, 0) == [] && Within([], |log|)
    ensures Cost([], bids) == 0.0 && Value([], log) == 0.0 && Clicked([], log, counted) == 0
  {
  }

  method Simulate(bids: seq<real>, log: seq<Auction>, counted: bool, totalBudget: real) returns (r: Report)
    requires |bids| == |log|
    ensures r == ReportOf(Taken(bids, log, totalBudget, |bids|), bids, log, counted)
  {
    var spent, won, profit, clicksWon := 0.0, 0, 0.0, 0;
    ghost var t: seq<nat> := [];
    hide Cost, Value, Clicked, MeanCost, Taken, Within;
    NothingTaken(bids, log, totalBudget, counted);
    for i := 0 to |bids|
      invariant t == Taken(bids, log, totalBudget, i) && Within(t, |log|)
      invariant won == |t| && spent == Cost(t, bids) && profit == Value(t, log) - spent
        && clicksWon == Clicked(t, log, counted)
    {
      TakenStep(bids, log, totalBudget, i);
      var b := bids[i];
      if b <= 0.0 {
        continue;
      }
      if spent + b > totalBudget {
        continue;
      }
      if b >= log[i].price {
        CostGrows(t, i, bids);
        TotalsGrow(t, i, log, counted);
        spent := spent + b;
        won := won + 1;
        profit := profit + (log[i].value - b);
        if counted && log[i].clicks > 0.0 {
          clicksWon := clicksWon + 1;
        }
        t := t + [i];
      }
    }
    r := Report(won, spent, profit, clicksWon, MeanCost(spent, won));
  }

  /** The auctions among the first `n` that a bid of `b` wins. */
  function Winnable(b: real, log: seq<Auction>, n: nat): (w: seq<nat>)
    requires n <= |log|
    ensures Within(w, n)
  {
    if n == 0 then []
    else
      var w := Winnable(b, log, n - 1);
      if b >= log[n - 1].price then w + [n - 1] else w
  }

  function Always(b: real, n: nat): (bids: seq<real>)
    ensures |bids| == n
  {
    seq(n, _ => b)
  }

  /** How many bids of `b > 0` a budget pays for. */
  function Affordable(b: real, budget: real): nat
    requires b > 0.0
  {
    Max(0, Over(budget, b).Floor)
  }

  /** The wins the constant-bid loop takes before it stops: a bid that costs nothing is limited only if the budget
      does not even cover it. */
  function Prefix(b: real, log: seq<Auction>, budget: real, n: nat): (t: seq<nat>)
    requires n <= |log|
    ensures Within(t, n)
  {
    var w := Winnable(b, log, n);
    if b > 0.0 then w[..Min(|w|, Affordable(b, budget))]
    else if b <= budget then w
    else []
  }

  /** What `n` bids of `b` cost. */
  function Bill(n: nat, b: real): real {
    Times(n as real, b)
  }

  lemma BillGrows(n: nat, b: real)
    ensures Bill(0, b) == 0.0
    ensures Bill(n + 1, b) == Bill(n, b) + b
    ensures b <= 0.0 ==> Bill(n, b) <= 0.0
  {
    hide Times;
    TimesUnits(b);
    TimesAdds(n as real, 1.0, b);
    TimesSign(b, n as real);
    TimesSign(n as real, b);
    assert (n + 1) as real == n as real + 1.0;
  }

  lemma {:induction false} ConstantCost(t: seq<nat>, b: real, n: nat)
    requires Within(t, n)
    ensures Cost(t, Always(b, n)) == Bill(|t|, b)
  {
    hide Bill;
    BillGrows(0, b);
    if t != [] {
      ConstantCost(t[..|t| - 1], b, n);
      BillGrows(|t| - 1, b);
    }
  }

  /** One more bid of `b` fits the budget exactly below the affordable number. */
  lemma FitsBelowAffordable(k: nat, b: real, budget: real)
    requires b > 0.0
    ensures Bill(k, b) + b <= budget <==> k < Affordable(b, budget)
  {
    hide Bill, Over, Times;
    var q := Over(budget, b);
    OverTimes(budget, b);
    BillGrows(k, b);
    BillFits(k + 1, q, b);
    assert (k + 1) as real <= q <==> k + 1 <= q.Floor;
  }

  lemma BillFits(n: nat, q: real, b: real)
    requires b > 0.0
    ensures Bill(n, b) <= Times(q, b) <==> n as real <= q
  {
    hide Times;
    TimesCompare(q, n as real, b);
  }

  lemma PrefixTakesOneMore(w: seq<nat>, x: nat, k: nat)
    ensures var t := w[..Min(|w|, k)];
            (w + [x])[..Min(|w| + 1, k)] == if |t| < k then t + [x] else t
    ensures |w[..Min(|w|, k)]| < k ==> w[..Min(|w|, k)] == w
  {
  }

  lemma PaidStep(b: real, log: seq<Auction>, budget: real, i: nat)
    requires i < |log| && b > 0.0
    ensures var t := Prefix(b, log, budget, i);
            Prefix(b, log, budget, i + 1) ==
              if Bill(|t|, b) + b <= budget && b >= log[i].price then t + [i] else t
  {
    hide Affordable, Bill;
    var w, k := Winnable(b, log, i), Affordable(b, budget);
    FitsBelowAffordable(|w[..Min(|w|, k)]|, b, budget);
    PrefixTakesOneMore(w, i, k);
  }

  /** What one more auction adds to the closed form, in the terms of the loop. */
  lemma PrefixStep(b: real, log: seq<Auction>, budget: real, i: nat)
    requires i < |log|
    ensures var t, bids := Prefix(b, log, budget, i), Always(b, |log|);
            && Within(t, |log|)
            && Prefix(b, log, budget, i + 1) ==
                 if Cost(t, bids) + b <= budget && b >= log[i].price then t + [i] else t
  {
    hide Cost, Affordable, Bill, Always;
    var t := Prefix(b, log, budget, i);
    ConstantCost(t, b, |log|);
    if b > 0.0 {
      PaidStep(b, log, budget, i);
      hide Prefix;
    } else {
      BillGrows(|t|, b);
      EmptyCost(Always(b, |log|));
    }
  }

  lemma EmptyCost(bids: seq<real>)
    ensures Cost([], bids) == 0.0
  {
  }

  /** Once a bid no longer fits nothing more is won. */
  lemma {:induction false} StoppedForGood(b: real, log: seq<Auction>, budget: real, i: nat, n: nat)
    requires i <= n <= |log|
    requires Within(Prefix(b, log, budget, i), |log|) && Cost(Prefix(b, log, budget, i), Always(b, |log|)) + b > budget
    ensures Prefix(b, log, budget, n) == Prefix(b, log, budget, i)
  {
    hide Prefix, Cost;
    if i < n {
      StoppedForGood(b, log, budget, i, n - 1);
      PrefixStep(b, log, budget, n - 1);
    }
  }

  /** The early-exit loop for one bid. */
  method NaiveRun(b: real, log: seq<Auction>, counted: bool, budget: real) returns (r: Report)
    ensures Within(Prefix(b, log, budget, |log|), |log|)
    ensures r == ReportOf(Prefix(b, log, budget, |log|), Always(b, |log|), log, counted)
  {
    hide Prefix, MeanCost, Cost, Value, Clicked, Within;
    ghost var bids := Always(b, |log|);
    ghost var t: seq<nat> := [];
    var spent, won, profit, clicksWon := 0.0, 0, 0.0, 0;
    var i := 0;
    NothingAtFirst(b, log, budget, counted);
    while i < |log|
      invariant i <= |log|
      invariant t == Prefix(b, log, budget, i) && Within(t, |log|)
      invariant won == |t| && spent == Cost(t, bids) && profit == Value(t, log) - spent
        && clicksWon == Clicked(t, log, counted)
    {
      PrefixStep(b, log, budget, i);
      if spent + b > budget {
        StoppedForGood(b, log, budget, i, |log|);
        assert Prefix(b, log, budget, |log|) == t;
        break;
      }
      if b >= log[i].price {
        CostGrows(t, i, bids);
        TotalsGrow(t, i, log, counted);
        spent := spent + b;
        won := won + 1;
        profit := profit + (log[i].value - b);
        if counted && log[i].clicks > 0.0 {
          clicksWon := clicksWon + 1;
        }
        t := t + [i];
      }
      i := i + 1;
    }
    assert t == Prefix(b, log, budget, |log|);
    r := Report(won, spent, profit, clicksWon, MeanCost(spent, won));
  }

  lemma NothingAtFirst(b: real, log: seq<Auction>, budget: real, counted: bool)
    ensures Prefix(b, log, budget, 0) == [] && Within([], |log|)
    ensures Cost([], Always(b, |log|)) == 0.0 && Value([], log) == 0.0 && Clicked([], log, counted) == 0
  {
  }

  // ---------- properties ----------

  /** What one more win adds to a report: one win, its bid to the spend, its value less its bid to the profit, and a
      click win if clicks are counted and it brought any; the mean cost is the spend over the wins. */
  lemma ReportGrowsByAWin(t: seq<nat>, i: nat, bids: seq<real>, log: seq<Auction>, counted: bool)
    requires |bids| == |log| && Within(t, |log|) && i < |log|
    ensures Within(t + [i], |log|) && Within([], |log|)
    ensures var none := ReportOf([], bids, log, counted);
            none.won == 0 && none.spent == 0.0 && none.profit == 0.0 && none.clicksWon == 0 && none.meanCost == 0.0
    ensures var r, more := ReportOf(t, bids, log, counted), ReportOf(t + [i], bids, log, counted);
            && more.won == r.won + 1 && more.spent == r.spent + bids[i]
            && more.profit == r.profit + (log[i].value - bids[i])
            && more.clicksWon == r.clicksWon + (if counted && log[i].clicks > 0.0 then 1 else 0)
            && Times(more.meanCost, more.won as real) == more.spent
  {
    CostGrows(t, i, bids);
    TotalsGrow(t, i, log, counted);
    NothingTaken(bids, log, 0.0, counted);
    OverUnits(1.0);
    OverTimes(Cost(t + [i], bids), (|t| + 1) as real);
    hide Cost, Value, Clicked, Times, Over;
  }

  /** The simulator wins an auction exactly when its positive bid reaches the price and still fits what is left. */
  lemma {:induction false} TakenExactlyWhenItFits(bids: seq<real>, log: seq<Auction>, budget: real, n: nat, i: nat)
    requires i < n <= |bids| == |log|
    ensures Within(Taken(bids, log, budget, i), |bids|)
    ensures i in Taken(bids, log, budget, n) <==>
      bids[i] > 0.0 && bids[i] >= log[i].price && Cost(Taken(bids, log, budget, i), bids) + bids[i] <= budget
  {
    hide Cost;
    if i < n - 1 {
      TakenExactlyWhenItFits(bids, log, budget, n - 1, i);
    }
  }

  /** Whatever is bid, the spend is never negative and never exceeds a budget that pays for anything. */
  lemma {:induction false} SpendStaysWithinBudget(bids: seq<real>, log: seq<Auction>, budget: real, n: nat)
    requires n <= |bids| == |log|
    ensures var t := Taken(bids, log, budget, n);
            && Within(t, |bids|) && Cost(t, bids) >= 0.0
            && (t != [] ==> 0.0 < Cost(t, bids) <= budget)
  {
    EmptyCost(bids);
    hide Cost;
    if n > 0 {
      SpendStaysWithinBudget(bids, log, budget, n - 1);
      CostGrows(Taken(bids, log, budget, n - 1), n - 1, bids);
    }
  }

  lemma {:induction false} SimulatorIsTheEarlyExit(b: real, log: seq<Auction>, budget: real, n: nat)
    requires b > 0.0 && n <= |log|
    ensures Taken(Always(b, |log|), log, budget, n) == Prefix(b, log, budget, n)
  {
    hide Cost, Prefix;
    if n == 0 {
      NothingAtFirst(b, log, budget, false);
    } else {
      SimulatorIsTheEarlyExit(b, log, budget, n - 1);
      PrefixStep(b, log, budget, n - 1);
    }
  }

  /** For a constant positive bid the simulator wins the first winnable auctions, as many as the budget pays for: the
      very list the early-exit loop wins. */
  lemma ConstantBidWinsTheFirstAffordable(b: real, log: seq<Auction>, budget: real, n: nat)
    requires b > 0.0 && n <= |log|
    ensures var t, w := Taken(Always(b, |log|), log, budget, n), Winnable(b, log, n);
            && |t| == Min(|w|, Affordable(b, budget)) && t == w[..|t|]
  {
    SimulatorIsTheEarlyExit(b, log, budget, n);
    hide Taken, Winnable, Affordable;
  }

  lemma {:induction false} FreeBidsAreSkipped(b: real, log: seq<Auction>, budget: real, n: nat)
    requires b <= 0.0 && n <= |log|
    ensures Taken(Always(b, |log|), log, budget, n) == []
  {
    if n > 0 {
      FreeBidsAreSkipped(b, log, budget, n - 1);
    }
  }

  /** The two loops report the same wins exactly when the bid is positive, or exceeds the budget, or wins nothing: only
      the simulator passes over a bid of zero or less. */
  lemma LoopsAgreeExactlyIf(b: real, log: seq<Auction>, budget: real, counted: bool)
    ensures var n := |log|; var bids := Always(b, n);
            && Within(Taken(bids, log, budget, n), n) && Within(Prefix(b, log, budget, n), n)
            && ((ReportOf(Taken(bids, log, budget, n), bids, log, counted)
                 == ReportOf(Prefix(b, log, budget, n), bids, log, counted))
                <==> b > 0.0 || b > budget || Winnable(b, log, n) == [])
  {
    if b > 0.0 {
      SimulatorIsTheEarlyExit(b, log, budget, |log|);
    } else {
      FreeBidsAreSkipped(b, log, budget, |log|);
    }
    hide Cost, Value, Clicked, Taken, Affordable, Winnable, MeanCost;
  }

  /** They can differ: a bid of nothing wins a free impression in the early-exit loop only. */
  lemma LoopsCanDisagree(counted: bool)
    ensures var log, bids := [Auction(0.0, 1.0, 0.0)], Always(0.0, 1);
            && Within(Taken(bids, log, 1.0, 1), 1) && Within(Prefix(0.0, log, 1.0, 1), 1)
            && ReportOf(Taken(bids, log, 1.0, 1), bids, log, counted)
               != ReportOf(Prefix(0.0, log, 1.0, 1), bids, log, counted)
  {
    hide ReportOf, Taken, Prefix;
    var log := [Auction(0.0, 1.0, 0.0)];
    assert Winnable(0.0, log, 1) == Winnable(0.0, log, 0) + [0];
    LoopsAgreeExactlyIf(0.0, log, 1.0, counted);
  }

  /** For a constant bid that wins anything the mean cost is the bid. */
  lemma MeanCostIsTheBid(b: real, log: seq<Auction>, budget: real)
    requires b > 0.0
    ensures var t := Prefix(b, log, budget, |log|);
            Within(t, |log|) && MeanCost(Cost(t, Always(b, |log|)), |t|) == if t == [] then 0.0 else b
  {
    hide Cost, Prefix, Over, Times, Always;
    var t := Prefix(b, log, budget, |log|);
    ConstantCost(t, b, |log|);
    var k := |t|;
    BillGrows(k, b);
    if k > 0 {
      TimesCommutes(k as real, b);
      OverIsUnique(b, Bill(k, b), k as real);
    } else {
      OverUnits(1.0);
    }
  }
}
