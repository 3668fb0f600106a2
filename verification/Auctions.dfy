/** One live auction and one replayed auction of the exchange (go-engine/internal/engine/engine.go): pacing, the
    highest affordable bid, settlement, and what is handed to the store. Amounts are exact reals; bids, competitor
    draws and pacing draws are arbitrary. */
module Auctions {
  import opened Arithmetic
  import opened Types
  import opened StatsStores

  datatype Settings = Settings(dayAuctions: int, value: real, dailyBudget: real)

  /** A company and the budget tracked for it. */
  datatype Account = Account(id: string, daily: real, budget: real, paced: bool)

  datatype Answer = Answer(bid: real, winProb: real, expProfit: real, infUs: real, fallback: bool)

  /** How asking one company would turn out; no answer is an error or a missed deadline. */
  datatype Call = Call(answer: Option<Answer>, rttUs: real)

  /** Everything an auction does not decide itself; `draws[i]` is the pacing draw of company `i`, if it takes one. */
  datatype Market = Market(requestId: string, draws: seq<real>, calls: seq<Call>, competitorBids: seq<real>)

  datatype Result = Result(ok: bool, paced: bool, bid: real, winProb: real, expProfit: real, infUs: real, rttUs: real,
                           fallback: bool)

  /** The engine between two auctions: how many were run, and its companies. */
  datatype Exchange = Exchange(counter: nat, accounts: seq<Account>)

  // ---------- pacing ----------

  /** Position in the day of the auction that follows `before` auctions. */
  function Position(cfg: Settings, before: nat): (pos: nat)
    requires cfg.dayAuctions > 0
    ensures pos < cfg.dayAuctions
  {
    before % cfg.dayAuctions
  }

  /** The even share of the daily budget by this point of the day. */
  function EvenShare(cfg: Settings, daily: real, before: nat): real
    requires cfg.dayAuctions > 0
  {
    Over(Times(daily, Position(cfg, before) as real), cfg.dayAuctions as real)
  }

  function Renewed(cfg: Settings, a: Account, before: nat): Account {
    if cfg.dayAuctions > 0 && Position(cfg, before) == 0 then a.(budget := a.daily) else a
  }

  predicate AheadOfPace(cfg: Settings, a: Account, before: nat)
    requires cfg.dayAuctions > 0
  {
    EvenShare(cfg, a.daily, before) > 0.0 && a.daily - a.budget > EvenShare(cfg, a.daily, before)
  }

  predicate Benched(cfg: Settings, a: Account, before: nat, draw: real)
    requires cfg.dayAuctions > 0
  {
    && AheadOfPace(cfg, a, before)
    && var ratio := Over(a.daily - a.budget, EvenShare(cfg, a.daily, before));
       ratio > 0.0 && draw > Over(1.0, ratio)
  }

  function Paced(cfg: Settings, a: Account, before: nat, draw: real): Account {
    var r := Renewed(cfg, a, before);
    if cfg.dayAuctions > 0 then r.(paced := Benched(cfg, r, before, draw)) else r
  }

  // ---------- bids ----------

  function ResultOf(a: Account, c: Call): Result {
    if a.paced then Result(false, true, 0.0, 0.0, 0.0, 0.0, 0.0, false)
    else
      match c.answer
      case None => Result(false, false, 0.0, 0.0, 0.0, 0.0, c.rttUs, false)
      case Some(r) => Result(true, false, r.bid, r.winProb, r.expProfit, r.infUs, c.rttUs, r.fallback)
  }

  /** A bid that can win: it came back, is positive, and the company can pay it. */
  predicate Eligible(a: Account, r: Result) {
    r.ok && r.bid > 0.0 && a.budget >= r.bid
  }

  datatype Leader = Leader(index: Option<nat>, bid: real)

  /** The leader among the first `n` companies; a later one must bid strictly more. */
  function Lead(accounts: seq<Account>, results: seq<Result>, n: nat): (l: Leader)
    requires n <= |accounts| == |results|
    ensures l.index.Some? ==> l.index.value < n
  {
    if n == 0 then Leader(None, 0.0)
    else
      var l := Lead(accounts, results, n - 1);
      if Eligible(accounts[n - 1], results[n - 1]) && results[n - 1].bid > l.bid
        then Leader(Some(n - 1), results[n - 1].bid)
      else l
  }

  /** The highest of the competitors' bids, or zero. */
  function Top(bids: seq<real>): real {
    if bids == [] then 0.0
    else
      var t := Top(bids[..|bids| - 1]);
      if bids[|bids| - 1] > t then bids[|bids| - 1] else t
  }

  // ---------- one auction ----------

  predicate Fits(x: Exchange, m: Market) {
    |m.draws| == |x.accounts| && |m.calls| == |x.accounts|
  }

  /** The companies when bids are asked for. */
  function Seated(cfg: Settings, x: Exchange, m: Market): (r: seq<Account>)
    requires Fits(x, m)
    ensures |r| == |x.accounts|
  {
    seq(|x.accounts|, i requires 0 <= i < |x.accounts| => Paced(cfg, x.accounts[i], x.counter, m.draws[i]))
  }

  function Results(seated: seq<Account>, calls: seq<Call>): (r: seq<Result>)
    requires |calls| == |seated|
    ensures |r| == |seated|
  {
    seq(|seated|, i requires 0 <= i < |seated| => ResultOf(seated[i], calls[i]))
  }

  /** Who won and what was paid; `winner` is None when the competitors won or nobody bid. */
  datatype Outcome = Outcome(winner: Option<nat>, bid: real, clearing: real, competitorTop: real)

  function Decide(seated: seq<Account>, results: seq<Result>, competitorBids: seq<real>): (o: Outcome)
    requires |results| == |seated|
    ensures o.winner.Some? ==> o.winner.value < |seated|
  {
    var l := Lead(seated, results, |seated|);
    var top := Top(competitorBids);
    Outcome(if l.bid >= top then l.index else None, l.bid, if top > l.bid then top else l.bid, top)
  }

  function OutcomeOf(cfg: Settings, x: Exchange, m: Market): (o: Outcome)
    requires Fits(x, m)
    ensures o.winner.Some? ==> o.winner.value < |x.accounts|
  {
    var seated := Seated(cfg, x, m);
    Decide(seated, Results(seated, m.calls), m.competitorBids)
  }

  function Charged(seated: seq<Account>, o: Outcome): (r: seq<Account>)
    requires o.winner.Some? ==> o.winner.value < |seated|
    ensures |r| == |seated|
  {
    if o.winner.None? then seated
    else var w := o.winner.value; seated[w := seated[w].(budget := seated[w].budget - o.bid)]
  }

  function AfterAuction(cfg: Settings, x: Exchange, m: Market): (r: Exchange)
    requires Fits(x, m)
    ensures |r.accounts| == |x.accounts|
  {
    Exchange(x.counter + 1, Charged(Seated(cfg, x, m), OutcomeOf(cfg, x, m)))
  }

  function EntryOf(a: Account, r: Result, won: bool, value: real): Entry {
    Entry(a.id, r.ok, r.paced, won, r.bid, r.winProb, r.expProfit, r.infUs, r.rttUs, r.fallback,
          if won then value - r.bid else 0.0, if won then r.bid else 0.0, a.budget)
  }

  function EntriesOf(charged: seq<Account>, results: seq<Result>, winner: Option<nat>, value: real): (r: seq<Entry>)
    requires |results| == |charged|
    ensures |r| == |charged|
  {
    seq(|charged|, i requires 0 <= i < |charged| => EntryOf(charged[i], results[i], winner == Some(i), value))
  }

  function WinnerName(seated: seq<Account>, o: Outcome): string
    requires o.winner.Some? ==> o.winner.value < |seated|
  {
    match o.winner
    case Some(w) => seated[w].id
    case None => if o.competitorTop > 0.0 then "market" else ""
  }

  /** What the auction records in the store. */
  function RecordOf(cfg: Settings, x: Exchange, m: Market): Auction
    requires Fits(x, m)
  {
    var seated := Seated(cfg, x, m);
    var o := OutcomeOf(cfg, x, m);
    Auction(m.requestId, o.clearing, o.competitorTop, m.competitorBids, WinnerName(seated, o),
            EntriesOf(Charged(seated, o), Results(seated, m.calls), o.winner, cfg.value))
  }

  // ---------- who wins, and at what price ----------

  lemma {:induction false} LeaderIsTheFirstHighest(accounts: seq<Account>, results: seq<Result>, n: nat)
    requires n <= |accounts| == |results|
    ensures var l := Lead(accounts, results, n);
            && (l.index.None? <==> l.bid == 0.0) && l.bid >= 0.0
            && (l.index.None? <==> forall i :: 0 <= i < n ==> !Eligible(accounts[i], results[i]))
            && (forall i :: 0 <= i < n && Eligible(accounts[i], results[i]) ==> results[i].bid <= l.bid)
            && (l.index.Some? ==> var w := l.index.value;
                  && Eligible(accounts[w], results[w]) && results[w].bid == l.bid
                  && forall i :: 0 <= i < w && Eligible(accounts[i], results[i]) ==> results[i].bid < l.bid)
  {
    if n > 0 {
      LeaderIsTheFirstHighest(accounts, results, n - 1);
      hide Eligible;
      assert Eligible(accounts[n - 1], results[n - 1]) ==> results[n - 1].bid > 0.0 by {
        EligibleIsPositive(accounts[n - 1], results[n - 1]);
      }
    }
  }

  lemma EligibleIsPositive(a: Account, r: Result)
    ensures Eligible(a, r) ==> r.bid > 0.0
  {
  }

  lemma {:induction false} TopIsTheHighest(bids: seq<real>)
    ensures Top(bids) >= 0.0
    ensures forall i :: 0 <= i < |bids| ==> bids[i] <= Top(bids)
    ensures Top(bids) == 0.0 || exists i :: 0 <= i < |bids| && bids[i] == Top(bids)
  {
    if bids != [] {
      TopIsTheHighest(bids[..|bids| - 1]);
    }
  }

  /** A company wins exactly when some payable bid reaches every competitor's; the winner is then the first company
      with the highest payable bid, and the auction clears at it. */
  lemma WinnerIsTheFirstHighestPayableBid(seated: seq<Account>, results: seq<Result>, competitorBids: seq<real>)
    requires |results| == |seated|
    ensures var o := Decide(seated, results, competitorBids);
            && (o.winner.Some? <==> exists i :: 0 <= i < |seated| && Eligible(seated[i], results[i])
                                     && forall j :: 0 <= j < |competitorBids| ==> competitorBids[j] <= results[i].bid)
            && (o.winner.Some? ==> var w := o.winner.value;
                  && Eligible(seated[w], results[w]) && results[w].bid == o.bid == o.clearing
                  && (forall i :: 0 <= i < |seated| && Eligible(seated[i], results[i]) ==>
                        results[i].bid <= o.bid && (i < w ==> results[i].bid < o.bid)))
  {
    LeaderIsTheFirstHighest(seated, results, |seated|);
    TopIsTheHighest(competitorBids);
    var l, top := Lead(seated, results, |seated|), Top(competitorBids);
    if l.index.Some? && l.bid >= top {
      assert Eligible(seated[l.index.value], results[l.index.value]);
    } else {
      forall i | 0 <= i < |seated| && Eligible(seated[i], results[i])
        ensures exists j :: 0 <= j < |competitorBids| && competitorBids[j] > results[i].bid
      {
        assert results[i].bid < top;
      }
    }
  }

  lemma WinnerReachesTheCompetitors(seated: seq<Account>, results: seq<Result>, competitorBids: seq<real>)
    requires |results| == |seated|
    ensures var o := Decide(seated, results, competitorBids);
            o.winner.Some? ==> forall j :: 0 <= j < |competitorBids| ==> competitorBids[j] <= o.bid
  {
    TopIsTheHighest(competitorBids);
  }

  /** The clearing price is the highest of zero, the payable company bids and the competitors' bids. */
  lemma ClearingIsTheHighestPayable(seated: seq<Account>, results: seq<Result>, competitorBids: seq<real>)
    requires |results| == |seated|
    ensures var c := Decide(seated, results, competitorBids).clearing;
            && (forall i :: 0 <= i < |seated| && Eligible(seated[i], results[i]) ==> results[i].bid <= c)
            && (forall j :: 0 <= j < |competitorBids| ==> competitorBids[j] <= c)
            && (|| c == 0.0
                || (exists i :: 0 <= i < |seated| && Eligible(seated[i], results[i]) && results[i].bid == c)
                || exists j :: 0 <= j < |competitorBids| && competitorBids[j] == c)
  {
    LeaderIsTheFirstHighest(seated, results, |seated|);
    TopIsTheHighest(competitorBids);
  }

  /** A company outbids everyone with money it does not have. */
  ghost predicate Overreaches(seated: seq<Account>, results: seq<Result>, competitorBids: seq<real>, i: nat)
    requires i < |seated| == |results|
  {
    && results[i].ok && results[i].bid > 0.0 && seated[i].budget < results[i].bid
    && (forall j :: 0 <= j < |seated| && Eligible(seated[j], results[j]) ==> results[j].bid < results[i].bid)
    && (forall k :: 0 <= k < |competitorBids| ==> competitorBids[k] < results[i].bid)
  }

  /** The clearing price reaches every bid that came back unless some company outbids everyone beyond its budget. */
  lemma ClearingReachesEveryBidExactlyIf(seated: seq<Account>, results: seq<Result>, competitorBids: seq<real>)
    requires |results| == |seated|
    ensures var c := Decide(seated, results, competitorBids).clearing;
            (forall i :: 0 <= i < |seated| && results[i].ok ==> results[i].bid <= c)
            <==> !exists i :: 0 <= i < |seated| && Overreaches(seated, results, competitorBids, i)
  {
    ClearingIsTheHighestPayable(seated, results, competitorBids);
    LeaderIsTheFirstHighest(seated, results, |seated|);
    TopIsTheHighest(competitorBids);
    hide Lead, Top;
    var c := Decide(seated, results, competitorBids).clearing;
    forall i | 0 <= i < |seated| && results[i].ok && results[i].bid > c
      ensures Overreaches(seated, results, competitorBids, i)
    {
      assert !Eligible(seated[i], results[i]);
    }
  }

  /** It can happen: the only bid is above its company's budget, and the auction clears at nothing. */
  lemma UnaffordableBidCanExceedTheClearing()
    ensures exists seated: seq<Account>, results: seq<Result> ::
              |seated| == 1 && |results| == 1 && results[0].ok && results[0].bid > Decide(seated, results, []).clearing
  {
    var seated := [Account("a", 10.0, 5.0, false)];
    var results := [Result(true, false, 7.0, 0.5, 0.0, 1.0, 1.0, false)];
    assert Lead(seated, results, 1) == Lead(seated, results, 0);
    assert Decide(seated, results, []).clearing == 0.0;
  }

  // ---------- replay ----------

  /** A replayed company is scored alone against the recorded price. */
  function ReplayEntry(cfg: Settings, id: string, c: Call, clearing: real): Entry {
    match c.answer
    case None => Entry(id, false, false, false, 0.0, 0.0, 0.0, 0.0, c.rttUs, false, 0.0, 0.0, 0.0)
    case Some(r) =>
      var won := r.bid > 0.0 && r.bid >= clearing;
      Entry(id, true, false, won, r.bid, r.winProb, r.expProfit, r.infUs, c.rttUs, r.fallback,
            if won then cfg.value - r.bid else 0.0, if won then r.bid else 0.0, cfg.dailyBudget)
  }

  function ReplayRecord(cfg: Settings, accounts: seq<Account>, requestId: string, calls: seq<Call>,
      clearing: real): Auction
    requires |calls| == |accounts|
  {
    Auction(requestId, clearing, 0.0, [], "backtest",
            seq(|accounts|, i requires 0 <= i < |accounts| => ReplayEntry(cfg, accounts[i].id, calls[i], clearing)))
  }
}
