/** The exchange as an object: companies whose budgets are updated auction by auction, and the store every auction is
    recorded in (go-engine/internal/engine/engine.go). */
module Engines {
  import opened Arithmetic
  import opened Types
  import opened Auctions
  import opened AuctionRuns
  import opened AuctionBooks
  import opened StatsStores

  class Company {
    const id: string
    const dailyBudget: real
    var budget: real
    var paced: bool

    ghost function View(): Account
      reads this
    {
      Account(id, dailyBudget, budget, paced)
    }

    constructor (id: string, budget: real)
      ensures View() == Account(id, budget, budget, false)
    {
      this.id, dailyBudget, this.budget, paced := id, budget, budget, false;
    }

    /** A new day refills the budget; a company ahead of its even share sits out by chance. */
    method Pace(cfg: Settings, before: nat, draw: real)
      requires cfg.dayAuctions > 0
      modifies this
      ensures View() == Paced(cfg, old(View()), before, draw)
    {
      var pos := before % cfg.dayAuctions;
      if pos == 0 {
        budget := dailyBudget;
      }
      hide Over, Times;
      var expectedSpent := Over(Times(dailyBudget, pos as real), cfg.dayAuctions as real);
      var spent := dailyBudget - budget;
      if expectedSpent > 0.0 && spent > expectedSpent {
        DrawAgainstRatio(spent, expectedSpent, draw);
        if draw > Over(1.0, Over(spent, expectedSpent)) {
          paced := true;
          return;
        }
      }
      paced := false;
    }

    method Charge(bid: real)
      modifies this`budget
      ensures View() == old(View()).(budget := old(budget) - bid)
    {
      budget := budget - bid;
    }
  }

  ghost function Views(comps: seq<Company>): (r: seq<Account>)
    reads comps
    ensures |r| == |comps|
  {
    seq(|comps|, i requires 0 <= i < |comps| reads comps => comps[i].View())
  }

  ghost predicate Separate(comps: seq<Company>) {
    forall i, j :: 0 <= i < j < |comps| ==> comps[i] != comps[j]
  }

  method PaceAll(cfg: Settings, comps: seq<Company>, before: nat, draws: seq<real>)
    requires Separate(comps) && |draws| == |comps|
    modifies comps
    ensures forall i :: 0 <= i < |comps| ==> comps[i].View() == Paced(cfg, old(comps[i].View()), before, draws[i])
  {
    hide Benched, Position;
    if cfg.dayAuctions > 0 {
      for i := 0 to |comps|
        invariant forall j :: 0 <= j < i ==> comps[j].View() == Paced(cfg, old(comps[j].View()), before, draws[j])
        invariant forall j :: i <= j < |comps| ==> comps[j].View() == old(comps[j].View())
      {
        comps[i].Pace(cfg, before, draws[i]);
      }
    }
  }

  method Ask(comps: seq<Company>, calls: seq<Call>) returns (results: seq<Result>)
    requires |calls| == |comps|
    ensures results == Results(Views(comps), calls)
    ensures forall i :: 0 <= i < |comps| && comps[i].paced ==>
      results[i] == Result(false, true, 0.0, 0.0, 0.0, 0.0, 0.0, false)
    ensures forall i :: 0 <= i < |comps| && !comps[i].paced && calls[i].answer.None? ==>
      results[i] == Result(false, false, 0.0, 0.0, 0.0, 0.0, calls[i].rttUs, false)
    ensures forall i :: 0 <= i < |comps| && !comps[i].paced && calls[i].answer.Some? ==>
      var r := calls[i].answer.value;
      results[i] == Result(true, false, r.bid, r.winProb, r.expProfit, r.infUs, calls[i].rttUs, r.fallback)
  {
    results := [];
    for i := 0 to |comps|
      invariant |results| == i
      invariant forall j :: 0 <= j < i ==> results[j] == ResultOf(comps[j].View(), calls[j])
    {
      if comps[i].paced {
        results := results + [Result(false, true, 0.0, 0.0, 0.0, 0.0, 0.0, false)];
      } else {
        match calls[i].answer {
          case None =>
            results := results + [Result(false, false, 0.0, 0.0, 0.0, 0.0, calls[i].rttUs, false)];
          case Some(r) =>
            results := results + [Result(true, false, r.bid, r.winProb, r.expProfit, r.infUs, calls[i].rttUs,
              r.fallback)];
        }
      }
    }
  }

  /** The highest bid among the companies that can pay theirs. */
  method FindWinner(comps: seq<Company>, results: seq<Result>) returns (winner: Option<nat>, winningBid: real)
    requires |results| == |comps|
    ensures Leader(winner, winningBid) == Lead(Views(comps), results, |comps|)
  {
    winner, winningBid := None, 0.0;
    for i := 0 to |comps|
      invariant Leader(winner, winningBid) == Lead(Views(comps), results, i)
    {
      if !results[i].ok || results[i].bid <= 0.0 {
        continue;
      }
      var afford := comps[i].budget >= results[i].bid;
      if afford && results[i].bid > winningBid {
        winningBid := results[i].bid;
        winner := Some(i);
      }
    }
  }

  method CompetitorTop(bids: seq<real>) returns (top: real)
    ensures top == Top(bids)
  {
    top := 0.0;
    for i := 0 to |bids|
      invariant top == Top(bids[..i])
    {
      if bids[i] > top {
        top := bids[i];
      }
      assert bids[..i + 1][..i] == bids[..i];
    }
    assert bids[..|bids|] == bids;
  }

  method BuildEntries(comps: seq<Company>, results: seq<Result>, winner: Option<nat>, value: real)
      returns (es: seq<Entry>)
    requires |results| == |comps|
    ensures es == EntriesOf(Views(comps), results, winner, value)
  {
    es := [];
    for i := 0 to |comps|
      invariant |es| == i
      invariant forall j :: 0 <= j < i ==> es[j] == EntryOf(comps[j].View(), results[j], winner == Some(j), value)
    {
      var r := results[i];
      var won := winner == Some(i);
      var profit, spend := 0.0, 0.0;
      if won {
        // a bid above the value makes this a loss, and it is booked as one
        profit := value - r.bid;
        spend := r.bid;
      }
      es := es + [Entry(comps[i].id, r.ok, r.paced, won, r.bid, r.winProb, r.expProfit, r.infUs, r.rttUs, r.fallback,
                        profit, spend, comps[i].budget)];
    }
  }

  /** A company as configured; a budget of its own replaces the shared one. */
  datatype Configured = Configured(id: string, budget: real)

  function BudgetFor(c: Configured, shared: real): (b: real)
    ensures c.budget > 0.0 ==> b == c.budget
    ensures c.budget <= 0.0 ==> b == shared
  {
    if c.budget > 0.0 then c.budget else shared
  }

  function OpeningOf(cfg: Settings, configured: seq<Configured>): (x: Exchange)
    ensures Opening(x) && |x.accounts| == |configured|
  {
    Exchange(0, seq(|configured|, i requires 0 <= i < |configured| =>
                      var b := BudgetFor(configured[i], cfg.dailyBudget); Account(configured[i].id, b, b, false)))
  }

  /** One company object each, its budget made known to the store. */
  method Build(cfg: Settings, configured: seq<Configured>, st: Store) returns (comps: seq<Company>)
    requires st.Valid() && st.history == []
    modifies st
    ensures fresh(comps) && Separate(comps)
    ensures Views(comps) == OpeningOf(cfg, configured).accounts
    ensures |comps| == |configured|
    ensures forall i :: 0 <= i < |configured| ==>
      comps[i].View() == Account(configured[i].id, BudgetFor(configured[i], cfg.dailyBudget),
                                 BudgetFor(configured[i], cfg.dailyBudget), false)
    ensures st.Valid() && st.history == Seeds(Views(comps))
  {
    hide AfterSetBudget, Recorded, Opening;
    ghost var opening := OpeningOf(cfg, configured).accounts;
    comps := [];
    for i := 0 to |configured|
      invariant |comps| == i && Separate(comps) && fresh(comps)
      invariant forall j :: 0 <= j < i ==> comps[j].View() == opening[j]
      invariant st.Valid() && st.history == Seeds(opening)[..i]
    {
      var bud := BudgetFor(configured[i], cfg.dailyBudget);
      var c := new Company(configured[i].id, bud);
      comps := comps + [c];
      st.SetBudget(configured[i].id, bud);
    }
  }

  class Engine {
    const cfg: Settings
    const st: Store
    var comps: seq<Company>
    var counter: nat
    ghost const opening: Exchange
    ghost var markets: seq<Market>

    ghost function View(): Exchange
      reads this, comps
    {
      Exchange(counter, Views(comps))
    }

    /** The engine is where its run has brought it, and the store holds exactly that run. */
    ghost predicate Valid()
      reads this, comps, st.Repr()
    {
      && Separate(comps) && Opening(opening) && IsRun(opening, markets)
      && View() == After(cfg, opening, markets)
      && st.Valid() && st.history == Log(opening.accounts, Records(cfg, opening, markets))
    }

    constructor (cfg: Settings, configured: seq<Configured>, st: Store)
      requires st.Valid() && st.history == []
      modifies st
      ensures Valid() && this.cfg == cfg && this.st == st
      ensures opening == OpeningOf(cfg, configured) && markets == []
      ensures |comps| == |configured|
      ensures forall i :: 0 <= i < |configured| ==>
        var b := if configured[i].budget > 0.0 then configured[i].budget else cfg.dailyBudget;
        comps[i].View() == Account(configured[i].id, b, b, false)
      ensures fresh(comps)
    {
      this.cfg, this.st := cfg, st;
      var built := Build(cfg, configured, st);
      comps := built;
      counter := 0;
      opening, markets := OpeningOf(cfg, configured), [];
      new;
      LogStarts(opening.accounts);
    }

    /** Picks the winner, charges it, and draws up what is to be recorded. */
    method Settle(m: Market, results: seq<Result>) returns (a: Auction)
      requires Separate(comps) && |results| == |comps|
      modifies comps
      ensures var seated := old(Views(comps));
              var o := Decide(seated, results, m.competitorBids);
              && Views(comps) == Charged(seated, o)
              && a == Auction(m.requestId, o.clearing, o.competitorTop, m.competitorBids, WinnerName(seated, o),
                              EntriesOf(Charged(seated, o), results, o.winner, cfg.value))
    {
      ghost var seated := Views(comps);
      var leader, winningBid := FindWinner(comps, results);
      var top := CompetitorTop(m.competitorBids);
      var winner := if winningBid >= top then leader else None;
      var clearing := winningBid;
      if top > clearing {
        clearing := top;
      }
      ghost var o := Outcome(winner, winningBid, clearing, top);
      assert o == Decide(seated, results, m.competitorBids);
      hide Decide, Lead, Top, EntriesOf;
      var winnerId := if winner.Some? then comps[winner.value].id else if top > 0.0 then "market" else "";
      if winner.Some? {
        comps[winner.value].Charge(winningBid);
      }
      assert Views(comps) == Charged(seated, o);
      var entries := BuildEntries(comps, results, winner, cfg.value);
      a := Auction(m.requestId, clearing, top, m.competitorBids, winnerId, entries);
    }

    /** One live auction, up to its recording. */
    method Hold(m: Market) returns (a: Auction)
      requires Separate(comps) && Fits(View(), m)
      modifies this`counter, comps
      ensures View() == AfterAuction(cfg, old(View()), m)
      ensures a == RecordOf(cfg, old(View()), m)
    {
      hide Paced, Decide, EntriesOf, WinnerName;
      ghost var x := View();
      counter := counter + 1;
      PaceAll(cfg, comps, counter - 1, m.draws);
      assert Views(comps) == Seated(cfg, x, m);
      var results := Ask(comps, m.calls);
      hide Seated, Results;
      a := Settle(m, results);
    }

    /** One live auction, end to end. */
    method RunAuction(m: Market)
      requires Valid() && Fits(View(), m)
      modifies this`counter, this`markets, comps, st.Repr()
      ensures Valid() && markets == old(markets) + [m]
      ensures View() == AfterAuction(cfg, old(View()), m)
      ensures st.View() == AfterRecord(old(st.View()), RecordOf(cfg, old(View()), m))
    {
      hide AfterAuction, RecordOf, After, Records, AfterRecord, Log, Opening, IsRun, Recorded, Shaped;
      RunExtends(cfg, opening, markets, m);
      var a := Hold(m);
      st.Record(a);
      LogGrows(opening.accounts, Records(cfg, opening, markets), a);
      markets := markets + [m];
    }

    /** Scores every company on one recorded auction; budgets are neither asked nor charged. */
    method ReplayOne(requestId: string, calls: seq<Call>, clearing: real)
      requires st.Valid() && |calls| == |comps|
      modifies st.Repr()
      ensures st.Valid() && st.history
        == old(st.history) + [Held(ReplayRecord(cfg, Views(comps), requestId, calls, clearing))]
      ensures st.View() == AfterRecord(old(st.View()), ReplayRecord(cfg, Views(comps), requestId, calls, clearing))
    {
      hide AfterRecord, Recorded, Shaped;
      var entries := [];
      for i := 0 to |comps|
        invariant |entries| == i
        invariant forall j :: 0 <= j < i ==> entries[j] == ReplayEntry(cfg, comps[j].id, calls[j], clearing)
      {
        match calls[i].answer {
          case None =>
            entries := entries + [Entry(comps[i].id, false, false, false, 0.0, 0.0, 0.0, 0.0, calls[i].rttUs, false,
              0.0, 0.0, 0.0)];
          case Some(r) =>
            var won := r.bid > 0.0 && r.bid >= clearing;
            var profit, spend := 0.0, 0.0;
            if won {
              profit := cfg.value - r.bid;
              spend := r.bid;
            }
            entries := entries + [Entry(comps[i].id, true, false, won, r.bid, r.winProb, r.expProfit, r.infUs,
                                        calls[i].rttUs, r.fallback, profit, spend, cfg.dailyBudget)];
        }
      }
      assert entries == ReplayRecord(cfg, Views(comps), requestId, calls, clearing).entries;
      st.Record(Auction(requestId, clearing, 0.0, [], "backtest", entries));
    }
  }

  lemma RunExtends(cfg: Settings, x: Exchange, h: seq<Market>, m: Market)
    requires IsRun(x, h) && Fits(After(cfg, x, h), m)
    ensures IsRun(x, h + [m])
    ensures After(cfg, x, h + [m]) == AfterAuction(cfg, After(cfg, x, h), m)
    ensures Records(cfg, x, h + [m]) == Records(cfg, x, h) + [RecordOf(cfg, After(cfg, x, h), m)]
  {
    var g := h + [m];
    hide AfterAuction, RecordOf;
    forall k | 0 <= k < |g| ensures Fits(x, g[k]) {
      assert g[k] == if k < |h| then h[k] else m;
    }
    RunGrows(cfg, x, h, m);
    assert g[..|g| - 1] == h;
  }
}
