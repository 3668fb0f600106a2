/** Runs of live auctions: what every company's budget does over simulated days
    (go-engine/internal/engine/engine.go). */
module AuctionRuns {
  import opened Arithmetic
  import opened Types
  import opened Auctions

  /** The engine as it is built: nothing spent, nobody benched. */
  predicate Opening(x: Exchange) {
    && x.counter == 0
    && forall i :: 0 <= i < |x.accounts| ==> x.accounts[i].budget == x.accounts[i].daily && !x.accounts[i].paced
  }

  predicate IsRun(x: Exchange, h: seq<Market>) {
    forall k :: 0 <= k < |h| ==> Fits(x, h[k])
  }

  function After(cfg: Settings, x: Exchange, h: seq<Market>): (r: Exchange)
    requires IsRun(x, h)
    ensures |r.accounts| == |x.accounts| && r.counter == x.counter + |h|
  {
    if h == [] then x
    else assert Fits(x, h[|h| - 1]); AfterAuction(cfg, After(cfg, x, h[..|h| - 1]), h[|h| - 1])
  }

  /** The outcome of auction `k` of the run. */
  function OutcomeAt(cfg: Settings, x: Exchange, h: seq<Market>, k: nat): (o: Outcome)
    requires IsRun(x, h) && k < |h|
    ensures o.winner.Some? ==> o.winner.value < |x.accounts|
  {
    assert Fits(x, h[k]);
    OutcomeOf(cfg, After(cfg, x, h[..k]), h[k])
  }

  predicate WonBy(cfg: Settings, x: Exchange, h: seq<Market>, i: nat, k: nat)
    requires IsRun(x, h) && k < |h|
  {
    OutcomeAt(cfg, x, h, k).winner == Some(i)
  }

  /** What company `i` paid in the auctions from `lo` up to `hi`. */
  function Spent(cfg: Settings, x: Exchange, h: seq<Market>, i: nat, lo: nat, hi: nat): real
    requires IsRun(x, h) && lo <= hi <= |h|
  {
    if lo == hi then 0.0
    else Spent(cfg, x, h, i, lo, hi - 1) + if WonBy(cfg, x, h, i, hi - 1) then OutcomeAt(cfg, x, h, hi - 1).bid else 0.0
  }

  /** The first auction of the day the latest of `n` auctions belongs to. */
  function DayStart(cfg: Settings, n: nat): (d: nat)
    ensures d <= n
  {
    if cfg.dayAuctions <= 0 || n == 0 then 0 else n - 1 - Position(cfg, n - 1)
  }

  /** Days begun in `n` auctions; without a day length there is one. */
  function Days(cfg: Settings, n: nat): nat {
    if cfg.dayAuctions <= 0 then 1 else (n + cfg.dayAuctions - 1) / cfg.dayAuctions
  }

  lemma RunShortens(x: Exchange, h: seq<Market>, more: seq<Market>)
    requires IsRun(x, h + more)
    ensures IsRun(x, h)
    ensures forall k :: 0 <= k < |more| ==> Fits(x, more[k])
  {
    forall k | 0 <= k < |h| ensures Fits(x, h[k]) {
      assert (h + more)[k] == h[k];
    }
    forall k | 0 <= k < |more| ensures Fits(x, more[k]) {
      assert (h + more)[|h| + k] == more[k];
    }
  }

  lemma {:induction false} SpentBefore(cfg: Settings, x: Exchange, h: seq<Market>, more: seq<Market>, i: nat,
      lo: nat, hi: nat)
    requires IsRun(x, h + more) && lo <= hi <= |h|
    ensures IsRun(x, h)
    ensures Spent(cfg, x, h + more, i, lo, hi) == Spent(cfg, x, h, i, lo, hi)
  {
    hide OutcomeOf, After, Fits;
    RunShortens(x, h, more);
    if lo < hi {
      SpentBefore(cfg, x, h, more, i, lo, hi - 1);
      assert (h + more)[..hi - 1] == h[..hi - 1];
    }
  }

  lemma {:induction false} SpentSplits(cfg: Settings, x: Exchange, h: seq<Market>, i: nat, lo: nat, mid: nat, hi: nat)
    requires IsRun(x, h) && lo <= mid <= hi <= |h|
    ensures Spent(cfg, x, h, i, lo, hi) == Spent(cfg, x, h, i, lo, mid) + Spent(cfg, x, h, i, mid, hi)
  {
    hide WonBy, OutcomeAt, IsRun;
    if mid < hi {
      SpentSplits(cfg, x, h, i, lo, mid, hi - 1);
    }
  }

  // ---------- days ----------

  lemma NextPosition(n: nat, day: nat)
    requires day > 0
    ensures n % day > 0 ==> n > 0 && (n - 1) % day == n % day - 1
    ensures n % day == 0 && n > 0 ==> (n - 1) % day == day - 1
  {
    if n % day > 0 {
      DivisionIsUnique(n - 1, day, n / day, n % day - 1);
    } else if n > 0 {
      assert n == (n / day) * day;
      QuotientIsPositive(n, day);
      LastOfTheDay(n / day, day);
      DivisionIsUnique(n - 1, day, n / day - 1, day - 1);
    }
  }

  lemma QuotientIsPositive(n: nat, day: nat)
    requires day > 0 && n > 0 && n % day == 0
    ensures n / day > 0
  {
  }

  lemma LastOfTheDay(q: nat, day: nat)
    requires q > 0
    ensures q * day - 1 == (q - 1) * day + (day - 1)
  {
  }

  lemma NextDayStart(cfg: Settings, n: nat)
    ensures cfg.dayAuctions > 0 && Position(cfg, n) == 0 ==> DayStart(cfg, n + 1) == n
    ensures cfg.dayAuctions <= 0 || Position(cfg, n) > 0 ==> DayStart(cfg, n + 1) == DayStart(cfg, n)
  {
    if cfg.dayAuctions > 0 {
      NextPosition(n, cfg.dayAuctions);
    }
  }

  /** A day that has begun follows as many whole days as had begun at its start. */
  lemma DaysGoByOne(cfg: Settings, n: nat)
    requires cfg.dayAuctions > 0 && n > 0
    ensures DayStart(cfg, n) < n && Days(cfg, n) == Days(cfg, DayStart(cfg, n)) + 1
  {
    var day := cfg.dayAuctions;
    var q, p := (n - 1) / day, (n - 1) % day;
    assert n - 1 == q * day + p;
    assert DayStart(cfg, n) == q * day;
    assert n + day - 1 == (q + 1) * day + p;
    DivisionIsUnique(n + day - 1, day, q + 1, p);
    DivisionIsUnique(q * day + day - 1, day, q, day - 1);
  }

  // ---------- one company in one auction ----------

  /** An auction touches a company's budget twice at most: a day's start renews it, a win charges the bid, which
      the company could pay. */
  lemma CompanyInOneAuction(cfg: Settings, x: Exchange, m: Market, i: nat)
    requires Fits(x, m) && i < |x.accounts|
    ensures var o, was, r := OutcomeOf(cfg, x, m), Renewed(cfg, x.accounts[i], x.counter),
      AfterAuction(cfg, x, m).accounts[i];
            && r.id == was.id && r.daily == was.daily
            && r.budget == was.budget - (if o.winner == Some(i) then o.bid else 0.0)
            && (o.winner == Some(i) ==> 0.0 < o.bid <= was.budget)
            && r.paced == if cfg.dayAuctions > 0 then Benched(cfg, was, x.counter, m.draws[i]) else x.accounts[i].paced
  {
    var seated := Seated(cfg, x, m);
    var results := Results(seated, m.calls);
    WinnerIsTheFirstHighestPayableBid(seated, results, m.competitorBids);
    hide Decide, Results, Benched, Position;
    assert seated[i] == Paced(cfg, x.accounts[i], x.counter, m.draws[i]);
    var o := OutcomeOf(cfg, x, m);
    if o.winner == Some(i) {
      assert Eligible(seated[i], results[i]);
    }
  }

  // ---------- budgets over a run ----------

  /** Company `i` after a run has spent exactly what it won since the day began. */
  ghost predicate SpentToday(cfg: Settings, x: Exchange, h: seq<Market>, i: nat)
    requires IsRun(x, h) && i < |x.accounts|
  {
    var a, today := After(cfg, x, h).accounts[i], Spent(cfg, x, h, i, DayStart(cfg, |h|), |h|);
    && a.id == x.accounts[i].id && a.daily == x.accounts[i].daily
    && a.daily - a.budget == today >= 0.0
    && (if a.daily >= 0.0 then a.budget >= 0.0 else a.budget == a.daily)
    && (cfg.dayAuctions <= 0 ==> !a.paced)
  }

  /** What one more auction adds to a run. */
  lemma RunGrows(cfg: Settings, x: Exchange, h: seq<Market>, m: Market)
    requires IsRun(x, h + [m])
    ensures IsRun(x, h) && Fits(After(cfg, x, h), m)
    ensures After(cfg, x, h + [m]) == AfterAuction(cfg, After(cfg, x, h), m)
    ensures OutcomeAt(cfg, x, h + [m], |h|) == OutcomeOf(cfg, After(cfg, x, h), m)
  {
    RunShortens(x, h, [m]);
    assert Fits(x, [m][0]);
    hide AfterAuction, OutcomeOf;
    assert (h + [m])[..|h|] == h;
  }

  lemma SpentGrows(cfg: Settings, x: Exchange, h: seq<Market>, m: Market, i: nat, lo: nat)
    requires IsRun(x, h + [m]) && lo <= |h|
    ensures IsRun(x, h) && Fits(After(cfg, x, h), m)
    ensures var o := OutcomeOf(cfg, After(cfg, x, h), m);
            Spent(cfg, x, h + [m], i, lo, |h| + 1)
              == Spent(cfg, x, h, i, lo, |h|) + if o.winner == Some(i) then o.bid else 0.0
  {
    hide After, OutcomeAt, OutcomeOf, AfterAuction;
    RunGrows(cfg, x, h, m);
    SpentBefore(cfg, x, h, [m], i, lo, |h|);
  }

  lemma AuctionKeepsSpentToday(cfg: Settings, x: Exchange, h: seq<Market>, m: Market, i: nat)
    requires Opening(x) && IsRun(x, h) && IsRun(x, h + [m]) && i < |x.accounts|
    requires SpentToday(cfg, x, h, i)
    ensures SpentToday(cfg, x, h + [m], i)
  {
    hide AfterAuction, OutcomeOf, Benched, DayStart, Position, After, OutcomeAt, Fits, IsRun;
    RunGrows(cfg, x, h, m);
    NextDayStart(cfg, |h|);
    CompanyInOneAuction(cfg, After(cfg, x, h), m, i);
    SpentGrows(cfg, x, h, m, i, DayStart(cfg, |h| + 1));
    assert |h + [m]| == |h| + 1;
  }

  /** Whatever is bid and drawn: a company's budget never leaves 0 to its daily budget, and falls short of the daily
      budget by exactly the bids it has won since the day began. */
  lemma {:induction false} BudgetIsTheDailyLessTodaysWins(cfg: Settings, x: Exchange, h: seq<Market>, i: nat)
    requires Opening(x) && IsRun(x, h) && i < |x.accounts|
    ensures var a := After(cfg, x, h).accounts[i];
            && a.daily == x.accounts[i].daily
            && a.budget == a.daily - Spent(cfg, x, h, i, DayStart(cfg, |h|), |h|)
            && a.budget <= a.daily && (if a.daily >= 0.0 then 0.0 <= a.budget else a.budget == a.daily)
    ensures SpentToday(cfg, x, h, i)
  {
    if h != [] {
      var front, m := h[..|h| - 1], h[|h| - 1];
      assert h == front + [m];
      RunShortens(x, front, [m]);
      BudgetIsTheDailyLessTodaysWins(cfg, x, front, i);
      AuctionKeepsSpentToday(cfg, x, front, m, i);
      hide After, Spent, DayStart;
    }
  }

  /** What a company may spend in one day: a negative daily budget buys nothing. */
  function DailyCap(a: Account): real {
    if a.daily >= 0.0 then a.daily else 0.0
  }

  function Allowance(a: Account, days: nat): real {
    Times(DailyCap(a), days as real)
  }

  lemma AllowanceGrows(a: Account, days: nat)
    ensures Allowance(a, 0) == 0.0 && Allowance(a, 1) == DailyCap(a)
    ensures Allowance(a, days) >= 0.0
    ensures Allowance(a, days + 1) == Allowance(a, days) + DailyCap(a)
  {
    hide Times;
    TimesUnits(DailyCap(a));
    TimesSign(DailyCap(a), days as real);
    TimesAdds(days as real, 1.0, DailyCap(a));
    assert (days + 1) as real == days as real + 1.0;
  }

  /** Total spend after any number of auctions is at most a daily budget for every day begun. */
  lemma {:induction false} TotalSpendIsBounded(cfg: Settings, x: Exchange, h: seq<Market>, i: nat)
    requires Opening(x) && IsRun(x, h) && i < |x.accounts|
    ensures Spent(cfg, x, h, i, 0, |h|) <= Allowance(x.accounts[i], Days(cfg, |h|))
    decreases |h|
  {
    hide After, OutcomeAt, Fits, Position, Days, DayStart, Opening, Allowance;
    var a, n := x.accounts[i], |h|;
    AllowanceGrows(a, Days(cfg, n));
    if h != [] {
      var d := DayStart(cfg, n);
      BudgetIsTheDailyLessTodaysWins(cfg, x, h, i);
      SpentSplits(cfg, x, h, i, 0, d, n);
      if cfg.dayAuctions > 0 {
        DaysGoByOne(cfg, n);
        assert h == h[..d] + h[d..];
        RunShortens(x, h[..d], h[d..]);
        SpentBefore(cfg, x, h[..d], h[d..], i, 0, d);
        TotalSpendIsBounded(cfg, x, h[..d], i);
        AllowanceGrows(a, Days(cfg, d));
      } else {
        OneEndlessDay(cfg, n);
        AllowanceGrows(a, 0);
      }
    }
  }

  lemma OneEndlessDay(cfg: Settings, n: nat)
    requires cfg.dayAuctions <= 0
    ensures DayStart(cfg, n) == 0 && Days(cfg, n) == 1
  {
  }

  lemma DrawAgainstRatio(spent: real, share: real, draw: real)
    requires spent > 0.0 && share > 0.0
    ensures Over(spent, share) > 0.0
    ensures draw > Over(1.0, Over(spent, share)) <==> Times(draw, spent) > share
  {
    hide Over, Times;
    var ratio := Over(spent, share);
    OverSign(spent, share);
    OverTimes(spent, share);
    var q := Over(1.0, ratio);
    OverTimes(1.0, ratio);
    assert Times(q, spent) == share by {
      TimesAssociate(q, ratio, share);
      TimesUnits(share);
    }
    TimesCompare(q, draw, spent);
  }

  lemma AgainstTheEvenShare(cfg: Settings, daily: real, before: nat, amount: real)
    requires cfg.dayAuctions > 0
    ensures var due, day := Times(daily, (before % cfg.dayAuctions) as real), cfg.dayAuctions as real;
            && (amount > EvenShare(cfg, daily, before) <==> Times(amount, day) > due)
            && (EvenShare(cfg, daily, before) > 0.0 <==> due > 0.0)
  {
    hide Over, Times;
    var due, day := Times(daily, (before % cfg.dayAuctions) as real), cfg.dayAuctions as real;
    OverTimes(due, day);
    OverSign(due, day);
    TimesCompare(Over(due, day), amount, day);
  }

  /** A company sits an auction out exactly when it has spent more than a positive even share of the day and its draw
      falls above the share over the spending; at or behind the even-spend line it is never benched. The even share of
      a day's budget is the part of the day that has gone by, so all is compared in day-lengths: `spent * day` against
      `daily * position`. */
  lemma BenchedExactlyWhenAheadOfPace(cfg: Settings, x: Exchange, h: seq<Market>, m: Market, i: nat)
    requires Opening(x) && IsRun(x, h) && IsRun(x, h + [m]) && i < |x.accounts| && |m.draws| == |x.accounts|
    ensures After(cfg, x, h + [m]).accounts[i].paced <==>
      && cfg.dayAuctions > 0
      && var spent, day := Spent(cfg, x, h, i, DayStart(cfg, |h| + 1), |h|), cfg.dayAuctions as real;
         var due := Times(x.accounts[i].daily, (|h| % cfg.dayAuctions) as real);
         Times(spent, day) > due > 0.0 && Times(Times(m.draws[i], spent), day) > due
  {
    hide AfterAuction, OutcomeOf, DayStart, After, OutcomeAt, Fits, IsRun, EvenShare, Position, Over, Times;
    BudgetIsTheDailyLessTodaysWins(cfg, x, h, i);
    BudgetIsTheDailyLessTodaysWins(cfg, x, h + [m], i);
    RunGrows(cfg, x, h, m);
    NextDayStart(cfg, |h|);
    CompanyInOneAuction(cfg, After(cfg, x, h), m, i);
    if cfg.dayAuctions > 0 {
      var was := Renewed(cfg, After(cfg, x, h).accounts[i], |h|);
      var spent, share := was.daily - was.budget, EvenShare(cfg, was.daily, |h|);
      AgainstTheEvenShare(cfg, was.daily, |h|, spent);
      AgainstTheEvenShare(cfg, was.daily, |h|, Times(m.draws[i], spent));
      if spent > share > 0.0 {
        DrawAgainstRatio(spent, share, m.draws[i]);
      }
    }
  }

  // ---------- who is asked, and who wins ----------

  /** Company `i` is asked, answers with a positive bid, and can pay it out of what the day has left it. */
  predicate CanWin(cfg: Settings, x: Exchange, m: Market, i: nat)
    requires Fits(x, m) && i < |x.accounts|
  {
    && !AfterAuction(cfg, x, m).accounts[i].paced
    && m.calls[i].answer.Some? && 0.0 < m.calls[i].answer.value.bid <= Renewed(cfg, x.accounts[i], x.counter).budget
  }

  lemma SeatedAs(cfg: Settings, x: Exchange, m: Market, i: nat)
    requires Fits(x, m) && i < |x.accounts|
    ensures var a, was := Seated(cfg, x, m)[i], Renewed(cfg, x.accounts[i], x.counter);
            a.id == was.id && a.budget == was.budget && a.paced == AfterAuction(cfg, x, m).accounts[i].paced
  {
    hide Decide, Results, Benched, Position;
    assert Seated(cfg, x, m)[i] == Paced(cfg, x.accounts[i], x.counter, m.draws[i]);
  }

  lemma EligibleCanWin(cfg: Settings, x: Exchange, m: Market, i: nat)
    requires Fits(x, m) && i < |x.accounts|
    ensures var r := Results(Seated(cfg, x, m), m.calls)[i];
            && (Eligible(Seated(cfg, x, m)[i], r) <==> CanWin(cfg, x, m, i))
            && (CanWin(cfg, x, m, i) ==> r.bid == m.calls[i].answer.value.bid)
  {
    SeatedAs(cfg, x, m, i);
    hide Seated, AfterAuction, Renewed;
    assert Results(Seated(cfg, x, m), m.calls)[i] == ResultOf(Seated(cfg, x, m)[i], m.calls[i]);
  }

  /** A company wins exactly when it can, its own answer reaches every competitor's bid and that of every company that
      can win, and no earlier such company answered as much. A benched company never wins, whatever it would have
      answered. */
  lemma WinnerIsTheFirstHighestOfThoseAsked(cfg: Settings, x: Exchange, m: Market, i: nat)
    requires Fits(x, m) && i < |x.accounts|
    ensures var o := OutcomeOf(cfg, x, m);
            && (o.winner == Some(i) ==> CanWin(cfg, x, m, i) && o.bid == m.calls[i].answer.value.bid)
            && (CanWin(cfg, x, m, i) ==>
                 var bid := m.calls[i].answer.value.bid;
                 (o.winner == Some(i) <==>
                   && (forall j :: 0 <= j < |m.competitorBids| ==> m.competitorBids[j] <= bid)
                   && (forall j :: 0 <= j < |x.accounts| && CanWin(cfg, x, m, j) ==>
                         m.calls[j].answer.value.bid <= bid && (j < i ==> m.calls[j].answer.value.bid < bid))))
            && (AfterAuction(cfg, x, m).accounts[i].paced ==> o.winner != Some(i))
  {
    var seated := Seated(cfg, x, m);
    var results := Results(seated, m.calls);
    var o := OutcomeOf(cfg, x, m);
    WinnerIsTheFirstHighestPayableBid(seated, results, m.competitorBids);
    WinnerReachesTheCompetitors(seated, results, m.competitorBids);
    hide Decide, CanWin, Eligible, Seated, Results, Renewed, AfterAuction;
    forall j | 0 <= j < |x.accounts|
      ensures Eligible(seated[j], results[j]) <==> CanWin(cfg, x, m, j)
      ensures CanWin(cfg, x, m, j) ==> m.calls[j].answer.Some? && results[j].bid == m.calls[j].answer.value.bid
    {
      EligibleCanWin(cfg, x, m, j);
      CanWinMeans(cfg, x, m, j);
    }
    CanWinMeans(cfg, x, m, i);
  }

  lemma CanWinMeans(cfg: Settings, x: Exchange, m: Market, i: nat)
    requires Fits(x, m) && i < |x.accounts|
    ensures CanWin(cfg, x, m, i) ==> m.calls[i].answer.Some? && !AfterAuction(cfg, x, m).accounts[i].paced
  {
  }
}
