/** What the telemetry store's numbers mean: each is a count, a sum or a latest value over the whole history of
    recorded auctions (go-engine/internal/stats/stats.go). */
module StatsLedgers {
  import opened Rings
  import opened StatsStores
  import opened Tallies

  // ---------- selections from a history ----------

  /** Every entry of every auction, in order. */
  function Entries(h: seq<Auction>): seq<Entry> {
    if h == [] then [] else Entries(h[..|h| - 1]) + h[|h| - 1].entries
  }

  function CompetitorBids(h: seq<Auction>): seq<real> {
    if h == [] then [] else CompetitorBids(h[..|h| - 1]) + h[|h| - 1].competitorBids
  }

  /** A bid that came back in time, from a company that was not sitting out. */
  predicate IsBid(e: Entry) {
    e.ok && !e.paced
  }

  function Bids(es: seq<Entry>): seq<Entry>
  {
    if es == [] then []
    else Bids(es[..|es| - 1]) + if IsBid(es[|es| - 1]) then [es[|es| - 1]] else []
  }

  function Of(es: seq<Entry>, id: string): seq<Entry>
  {
    if es == [] then []
    else Of(es[..|es| - 1], id) + if es[|es| - 1].id == id then [es[|es| - 1]] else []
  }

  function Wins(es: seq<Entry>): (r: seq<Entry>)
    ensures |r| <= |es|
  {
    if es == [] then []
    else Wins(es[..|es| - 1]) + if es[|es| - 1].won then [es[|es| - 1]] else []
  }

  function Misses(es: seq<Entry>): nat {
    if es == [] then 0
    else Misses(es[..|es| - 1]) + if !es[|es| - 1].ok && !es[|es| - 1].paced then 1 else 0
  }

  function Fallbacks(es: seq<Entry>): nat {
    if es == [] then 0 else Fallbacks(es[..|es| - 1]) + if es[|es| - 1].fallback then 1 else 0
  }

  datatype Column = Bid | WinProb | ExpProfit | Profit | Spend

  function Cell(e: Entry, c: Column): real {
    match c
    case Bid => e.bid
    case WinProb => e.winProb
    case ExpProfit => e.expProfit
    case Profit => e.profit
    case Spend => e.spend
  }

  function Values(es: seq<Entry>, c: Column): (r: seq<real>)
    ensures |r| == |es|
  {
    seq(|es|, i requires 0 <= i < |es| => Cell(es[i], c))
  }

  function PositiveRtts(es: seq<Entry>): seq<real> {
    if es == [] then []
    else PositiveRtts(es[..|es| - 1]) + if es[|es| - 1].rttUs > 0.0 then [es[|es| - 1].rttUs] else []
  }

  function PositiveInfs(es: seq<Entry>): seq<real> {
    if es == [] then []
    else PositiveInfs(es[..|es| - 1]) + if es[|es| - 1].infUs > 0.0 then [es[|es| - 1].infUs] else []
  }

  /** Whether the latest entry that was not a paced one came back; healthy before any. */
  predicate LatestCameBack(es: seq<Entry>) {
    es == [] || if es[|es| - 1].paced then LatestCameBack(es[..|es| - 1]) else es[|es| - 1].ok
  }

  /** One mention of a company: its budget being set, or an entry of an auction. */
  datatype Mention = Budgeting(id: string, amount: real) | Entered(entry: Entry)

  function NameOf(m: Mention): string {
    match m
    case Budgeting(id, _) => id
    case Entered(e) => e.id
  }

  function EntriesIn(ms: seq<Mention>): seq<Entry> {
    if ms == [] then []
    else EntriesIn(ms[..|ms| - 1]) + if ms[|ms| - 1].Entered? then [ms[|ms| - 1].entry] else []
  }

  /** Every mention of every company, in order. */
  function Mentions(h: seq<Step>): seq<Mention> {
    if h == [] then []
    else
      Mentions(h[..|h| - 1])
        + match h[|h| - 1]
          case Budgeted(id, budget) => [Budgeting(id, budget)]
          case Held(a) => Entering(a.entries)
  }

  function Entering(es: seq<Entry>): (r: seq<Mention>)
    ensures |r| == |es|
  {
    seq(|es|, i requires 0 <= i < |es| => Entered(es[i]))
  }

  /** What was last said of a company's budget, by setting it or by a win; zero before that. */
  function LatestBudget(ms: seq<Mention>, id: string): real {
    if ms == [] then 0.0
    else
      var m := ms[|ms| - 1];
      if m.Budgeting? && m.id == id then m.amount
      else if m.Entered? && m.entry.id == id && IsBid(m.entry) && m.entry.won then m.entry.budget
      else LatestBudget(ms[..|ms| - 1], id)
  }

  /** A company's ledger read off the whole list of its own entries, and its latest budget. */
  function Ledger(es: seq<Entry>, budget: real): CompanyState {
    var bids := Bids(es);
    var wins := Wins(bids);
    CompanyState(
      won := |wins|,
      lost := |bids| - |wins|,
      noBid := Misses(es),
      profit := Total(Values(wins, Profit)),
      spend := Total(Values(wins, Spend)),
      budget := budget,
      bids := |bids|,
      bidSum := Total(Values(bids, Bid)),
      lastBid := if bids == [] then 0.0 else bids[|bids| - 1].bid,
      winProbSum := Total(Values(bids, WinProb)),
      expProfitSum := Total(Values(bids, ExpProfit)),
      fallback := Fallbacks(bids),
      rtt := Pushed(PositiveRtts(bids), LATENCY_SAMPLES),
      inf := Pushed(PositiveInfs(bids), LATENCY_SAMPLES),
      healthy := LatestCameBack(es))
  }

  // ---------- one more entry ----------

  lemma ValuesGrow(es: seq<Entry>, e: Entry, c: Column)
    ensures Total(Values(es + [e], c)) == Total(Values(es, c)) + Cell(e, c)
  {
    assert Values(es + [e], c) == Values(es, c) + [Cell(e, c)];
    TotalGrows(Values(es, c), Cell(e, c));
  }

  lemma PushedGrows(xs: seq<real>, x: real, cap: nat)
    requires cap > 0
    ensures Pushed(xs + [x], cap) == Push(Pushed(xs, cap), cap, x)
  {
    assert (xs + [x])[..|xs|] == xs;
  }

  lemma BidsGrow(es: seq<Entry>, e: Entry)
    ensures Bids(es + [e]) == if IsBid(e) then Bids(es) + [e] else Bids(es)
    ensures Misses(es + [e]) == Misses(es) + if !e.ok && !e.paced then 1 else 0
    ensures LatestCameBack(es + [e]) == if e.paced then LatestCameBack(es) else e.ok
  {
    assert (es + [e])[..|es|] == es;
  }

  lemma WinsGrow(es: seq<Entry>, e: Entry)
    ensures Wins(es + [e]) == if e.won then Wins(es) + [e] else Wins(es)
    ensures Fallbacks(es + [e]) == Fallbacks(es) + if e.fallback then 1 else 0
  {
    assert (es + [e])[..|es|] == es;
  }

  lemma LatenciesGrow(es: seq<Entry>, e: Entry)
    ensures Pushed(PositiveRtts(es + [e]), LATENCY_SAMPLES)
      == PushPositive(Pushed(PositiveRtts(es), LATENCY_SAMPLES), e.rttUs)
    ensures Pushed(PositiveInfs(es + [e]), LATENCY_SAMPLES)
      == PushPositive(Pushed(PositiveInfs(es), LATENCY_SAMPLES), e.infUs)
  {
    assert (es + [e])[..|es|] == es;
    assert PositiveRtts(es + [e]) == if e.rttUs > 0.0 then PositiveRtts(es) + [e.rttUs] else PositiveRtts(es);
    assert PositiveInfs(es + [e]) == if e.infUs > 0.0 then PositiveInfs(es) + [e.infUs] else PositiveInfs(es);
    hide Pushed, Push;
    PushedGrows(PositiveRtts(es), e.rttUs, LATENCY_SAMPLES);
    PushedGrows(PositiveInfs(es), e.infUs, LATENCY_SAMPLES);
  }

  lemma BidGrowsTheLedger(es: seq<Entry>, e: Entry, budget: real)
    requires IsBid(e)
    ensures Ledger(es + [e], if e.won then e.budget else budget) == AfterEntry(Ledger(es, budget), e)
  {
    hide Bids, Misses, LatestCameBack, Wins, Fallbacks, Values, Total, PushPositive, Pushed, Push;
    hide PositiveRtts, PositiveInfs;
    var bids := Bids(es);
    BidsGrow(es, e);
    WinsGrow(bids, e);
    ValuesGrow(bids, e, Bid);
    ValuesGrow(bids, e, WinProb);
    ValuesGrow(bids, e, ExpProfit);
    ValuesGrow(Wins(bids), e, Profit);
    ValuesGrow(Wins(bids), e, Spend);
    LatenciesGrow(bids, e);
  }

  /** Folding an entry into a ledger is the ledger of the longer list; only a winning bid says anything of the
      budget. */
  lemma LedgerGrows(es: seq<Entry>, e: Entry, budget: real)
    ensures Ledger(es + [e], if IsBid(e) && e.won then e.budget else budget) == AfterEntry(Ledger(es, budget), e)
  {
    if IsBid(e) {
      BidGrowsTheLedger(es, e, budget);
    } else {
      BidsGrow(es, e);
    }
    hide *;
  }

  // ---------- the whole store ----------

  function Names(ms: seq<Mention>): (r: seq<string>)
    ensures |r| == |ms|
  {
    seq(|ms|, i requires 0 <= i < |ms| => NameOf(ms[i]))
  }

  /** The names in order of first mention. */
  function FirstMentions(ids: seq<string>): (r: seq<string>)
    ensures forall id :: id in r <==> id in ids
    ensures forall i, j :: 0 <= i < j < |r| ==> r[i] != r[j]
  {
    if ids == [] then []
    else
      var r := FirstMentions(ids[..|ids| - 1]);
      assert ids == ids[..|ids| - 1] + [ids[|ids| - 1]];
      if ids[|ids| - 1] in r then r else r + [ids[|ids| - 1]]
  }

  function BidBuckets(es: seq<Entry>): (r: seq<nat>)
    ensures |r| == |es| && forall i :: 0 <= i < |r| ==> r[i] < PRICE_BUCKETS
  {
    seq(|es|, i requires 0 <= i < |es| => PriceBucket(es[i].bid))
  }

  function ChanceBuckets(es: seq<Entry>): (r: seq<nat>)
    ensures |r| == |es| && forall i :: 0 <= i < |r| ==> r[i] < WIN_PROB_BUCKETS
  {
    seq(|es|, i requires 0 <= i < |es| => WinProbBucket(es[i].winProb))
  }

  function PriceBuckets(prices: seq<real>): (r: seq<nat>)
    ensures |r| == |prices| && forall i :: 0 <= i < |r| ==> r[i] < PRICE_BUCKETS
  {
    seq(|prices|, i requires 0 <= i < |prices| => PriceBucket(prices[i]))
  }

  function Clearings(h: seq<Auction>): (r: seq<real>)
    ensures |r| == |h|
  {
    seq(|h|, i requires 0 <= i < |h| => h[i].clearing)
  }

  ghost predicate CompaniesExplained(s: State, ms: seq<Mention>) {
    && s.order == FirstMentions(Names(ms))
    && (forall id :: id in s.companies <==> id in s.order)
    && (forall id :: id in s.companies ==> s.companies[id] == Ledger(Of(EntriesIn(ms), id), LatestBudget(ms, id)))
  }

  ghost predicate BidsExplained(s: State, es: seq<Entry>) {
    && s.bidHist == Histogram(BidBuckets(Bids(es)), PRICE_BUCKETS)
    && s.winProbHist == Histogram(ChanceBuckets(Bids(es)), WIN_PROB_BUCKETS)
  }

  ghost predicate MarketExplained(s: State, h: seq<Auction>) {
    && s.auctions == |h|
    && s.lastClearing == (if h == [] then 0.0 else h[|h| - 1].clearing)
    && s.clearingHist == Histogram(PriceBuckets(Clearings(h)), PRICE_BUCKETS)
    && s.compHist == Histogram(PriceBuckets(CompetitorBids(h)), PRICE_BUCKETS)
  }

  lemma MentionsGrow(ms: seq<Mention>, m: Mention)
    ensures var known := FirstMentions(Names(ms));
            FirstMentions(Names(ms + [m])) == if NameOf(m) in known then known else known + [NameOf(m)]
    ensures EntriesIn(ms + [m]) == if m.Entered? then EntriesIn(ms) + [m.entry] else EntriesIn(ms)
  {
    assert (ms + [m])[..|ms|] == ms;
    var names := Names(ms + [m]);
    assert names[..|names| - 1] == Names(ms);
  }

  lemma OfGrows(es: seq<Entry>, e: Entry, id: string)
    ensures Of(es + [e], id) == if e.id == id then Of(es, id) + [e] else Of(es, id)
  {
    assert (es + [e])[..|es|] == es;
  }

  lemma BudgetGrows(ms: seq<Mention>, m: Mention, id: string)
    ensures LatestBudget(ms + [m], id) ==
      if m.Budgeting? && m.id == id then m.amount
      else if m.Entered? && m.entry.id == id && IsBid(m.entry) && m.entry.won then m.entry.budget
      else LatestBudget(ms, id)
  {
    assert (ms + [m])[..|ms|] == ms;
  }

  lemma UnmentionedHasNothing(ms: seq<Mention>, id: string)
    requires id !in FirstMentions(Names(ms))
    ensures Of(EntriesIn(ms), id) == [] && LatestBudget(ms, id) == 0.0
  {
    forall i | 0 <= i < |ms| ensures NameOf(ms[i]) != id {
      assert Names(ms)[i] == NameOf(ms[i]);
    }
    NeverMentioned(ms, id);
  }

  lemma {:induction false} NeverMentioned(ms: seq<Mention>, id: string)
    requires forall i :: 0 <= i < |ms| ==> NameOf(ms[i]) != id
    ensures Of(EntriesIn(ms), id) == [] && LatestBudget(ms, id) == 0.0
  {
    if ms != [] {
      hide Of, EntriesIn, LatestBudget;
      var front, m := ms[..|ms| - 1], ms[|ms| - 1];
      NeverMentioned(front, id);
      assert ms == front + [m] && NameOf(m) != id;
      MentionsGrow(front, m);
      BudgetGrows(front, m, id);
      if m.Entered? {
        OfGrows(EntriesIn(front), m.entry, id);
      }
    }
  }

  lemma FoldEntryParts(s: State, e: Entry)
    requires Shaped(s)
    ensures var t, c := FoldEntry(s, e), if e.id in s.companies then s.companies[e.id] else NewCompany(0.0);
            && t.companies == s.companies[e.id := AfterEntry(c, e)]
            && t.order == (if e.id in s.companies then s.order else s.order + [e.id])
            && t.bidHist == (if IsBid(e) then Bump(s.bidHist, PriceBucket(e.bid)) else s.bidHist)
            && t.winProbHist == (if IsBid(e) then Bump(s.winProbHist, WinProbBucket(e.winProb)) else s.winProbHist)
            && t.auctions == s.auctions && t.lastClearing == s.lastClearing && t.events == s.events
            && t.clearingHist == s.clearingHist && t.compHist == s.compHist
  {
    hide AfterEntry, Bump, PriceBucket, WinProbBucket, NewCompany;
  }

  lemma EntryKeepsTheLedger(s: State, ms: seq<Mention>, e: Entry, id: string)
    requires Shaped(s) && CompaniesExplained(s, ms) && id in FoldEntry(s, e).companies
    ensures FoldEntry(s, e).companies[id]
         == Ledger(Of(EntriesIn(ms + [Entered(e)]), id), LatestBudget(ms + [Entered(e)], id))
  {
    hide FirstMentions, Names, Of, LatestBudget, EntriesIn, Ledger, AfterEntry, FoldEntry, Bump;
    hide PriceBucket, WinProbBucket, NewCompany;
    FoldEntryParts(s, e);
    MentionsGrow(ms, Entered(e));
    BudgetGrows(ms, Entered(e), id);
    OfGrows(EntriesIn(ms), e, id);
    if id == e.id {
      if id !in s.companies {
        UnmentionedHasNothing(ms, id);
        NothingYet();
      }
      LedgerGrows(Of(EntriesIn(ms), id), e, LatestBudget(ms, id));
    }
  }

  lemma EntryKeepsCompaniesExplained(s: State, ms: seq<Mention>, e: Entry)
    requires Shaped(s) && CompaniesExplained(s, ms)
    ensures CompaniesExplained(FoldEntry(s, e), ms + [Entered(e)])
  {
    hide FirstMentions, Names, Of, LatestBudget, EntriesIn, Ledger, AfterEntry, FoldEntry, Bump, Shaped;
    hide PriceBucket, WinProbBucket, NewCompany;
    FoldEntryParts(s, e);
    MentionsGrow(ms, Entered(e));
    forall id | id in FoldEntry(s, e).companies
      ensures FoldEntry(s, e).companies[id]
           == Ledger(Of(EntriesIn(ms + [Entered(e)]), id), LatestBudget(ms + [Entered(e)], id))
    {
      EntryKeepsTheLedger(s, ms, e, id);
    }
  }

  lemma BudgetKeepsCompaniesExplained(s: State, ms: seq<Mention>, id: string, budget: real)
    requires Shaped(s) && CompaniesExplained(s, ms)
    ensures CompaniesExplained(AfterSetBudget(s, id, budget), ms + [Budgeting(id, budget)])
  {
    hide FirstMentions, Names, Of, LatestBudget, EntriesIn, Ledger, Shaped, NewCompany;
    var m, t := Budgeting(id, budget), AfterSetBudget(s, id, budget);
    MentionsGrow(ms, m);
    forall x | x in t.companies
      ensures t.companies[x] == Ledger(Of(EntriesIn(ms + [m]), x), LatestBudget(ms + [m], x))
    {
      BudgetGrows(ms, m, x);
      if x == id {
        if id !in s.companies {
          UnmentionedHasNothing(ms, id);
          NothingYet();
        }
        OnlyTheBudgetIsSet(Of(EntriesIn(ms), id), LatestBudget(ms, id), budget);
      }
    }
  }

  lemma OnlyTheBudgetIsSet(es: seq<Entry>, was: real, budget: real)
    ensures Ledger(es, was).(budget := budget) == Ledger(es, budget)
  {
    hide Bids, Wins, Misses, Fallbacks, Values, Total, Pushed, PositiveRtts, PositiveInfs, LatestCameBack;
  }

  lemma NothingYet()
    ensures forall budget :: Ledger([], budget) == NewCompany(budget)
  {
    assert Values([], Bid) == [] && Values([], WinProb) == [] && Values([], ExpProfit) == [];
    assert Values([], Profit) == [] && Values([], Spend) == [];
  }

  lemma EntryKeepsBidsExplained(s: State, es: seq<Entry>, e: Entry)
    requires Shaped(s) && BidsExplained(s, es)
    ensures BidsExplained(FoldEntry(s, e), es + [e])
  {
    hide Bids, BidBuckets, ChanceBuckets, PriceBucket, WinProbBucket, Histogram, FoldEntry, Bump;
    FoldEntryParts(s, e);
    BidsGrow(es, e);
    if IsBid(e) {
      BidBucketsGrow(Bids(es), e);
      HistogramGrows(BidBuckets(Bids(es)), PriceBucket(e.bid), PRICE_BUCKETS);
      HistogramGrows(ChanceBuckets(Bids(es)), WinProbBucket(e.winProb), WIN_PROB_BUCKETS);
    }
  }

  lemma BidBucketsGrow(bids: seq<Entry>, e: Entry)
    ensures BidBuckets(bids + [e]) == BidBuckets(bids) + [PriceBucket(e.bid)]
    ensures ChanceBuckets(bids + [e]) == ChanceBuckets(bids) + [WinProbBucket(e.winProb)]
  {
    hide PriceBucket, WinProbBucket;
  }

  lemma {:induction false} EntriesKeepTheMarket(s: State, es: seq<Entry>)
    requires Shaped(s)
    ensures var t := FoldEntries(s, es);
            && t.auctions == s.auctions && t.lastClearing == s.lastClearing && t.events == s.events
            && t.clearingHist == s.clearingHist && t.compHist == s.compHist
  {
    if es != [] {
      EntriesKeepTheMarket(s, es[..|es| - 1]);
      FoldEntryParts(FoldEntries(s, es[..|es| - 1]), es[|es| - 1]);
      hide FoldEntry;
    }
  }

  lemma {:induction false} EnteringAdds(ms: seq<Mention>, es: seq<Entry>)
    ensures EntriesIn(ms + Entering(es)) == EntriesIn(ms) + es
  {
    hide EntriesIn, Entering, FirstMentions, Names;
    if es == [] {
      assert ms + Entering(es) == ms;
    } else {
      var front, e := es[..|es| - 1], es[|es| - 1];
      EnteringAdds(ms, front);
      EnteringSplits(es);
      OneMoreAtTheEnd(ms, Entering(front), Entered(e));
      MentionsGrow(ms + Entering(front), Entered(e));
      OneMoreAtTheEnd(EntriesIn(ms), front, e);
    }
  }

  lemma OneMoreAtTheEnd<T>(a: seq<T>, b: seq<T>, x: T)
    ensures a + (b + [x]) == (a + b) + [x]
  {
  }

  lemma EnteringSplits(es: seq<Entry>)
    requires es != []
    ensures Entering(es) == Entering(es[..|es| - 1]) + [Entered(es[|es| - 1])]
    ensures es == es[..|es| - 1] + [es[|es| - 1]]
  {
  }

  lemma {:induction false} EntriesStayExplained(s: State, ms: seq<Mention>, es: seq<Entry>)
    requires Shaped(s) && CompaniesExplained(s, ms) && BidsExplained(s, EntriesIn(ms))
    ensures CompaniesExplained(FoldEntries(s, es), ms + Entering(es))
    ensures EntriesIn(ms + Entering(es)) == EntriesIn(ms) + es
    ensures BidsExplained(FoldEntries(s, es), EntriesIn(ms + Entering(es)))
  {
    hide CompaniesExplained, BidsExplained, FoldEntry, Shaped, Entering, EntriesIn, Names, FirstMentions;
    EnteringAdds(ms, es);
    if es == [] {
      assert ms + Entering(es) == ms;
    } else {
      var front, e := es[..|es| - 1], es[|es| - 1];
      var prior := ms + Entering(front);
      EntriesStayExplained(s, ms, front);
      EnteringSplits(es);
      OneMoreAtTheEnd(ms, Entering(front), Entered(e));
      MentionsGrow(prior, Entered(e));
      EntryKeepsCompaniesExplained(FoldEntries(s, front), prior, e);
      EntryKeepsBidsExplained(FoldEntries(s, front), EntriesIn(prior), e);
    }
  }

  lemma {:induction false} CompetitorsFold(bs: seq<nat>, bids: seq<real>)
    ensures FoldCompetitors(Histogram(bs, PRICE_BUCKETS), bids) == Histogram(bs + PriceBuckets(bids), PRICE_BUCKETS)
  {
    if bids == [] {
      assert bs + PriceBuckets(bids) == bs;
    } else {
      var front, b := bids[..|bids| - 1], bids[|bids| - 1];
      CompetitorsFold(bs, front);
      HistogramGrows(bs + PriceBuckets(front), PriceBucket(b), PRICE_BUCKETS);
      assert bs + PriceBuckets(bids) == bs + PriceBuckets(front) + [PriceBucket(b)];
      hide PriceBucket, Histogram, Bump;
    }
  }

  lemma AuctionKeepsMarketExplained(s: State, h: seq<Auction>, a: Auction)
    requires Shaped(s) && MarketExplained(s, h)
    ensures MarketExplained(AfterMarket(s, a), h + [a])
  {
    ClearingsGrow(h, a);
    hide PriceBucket, Histogram, Bump, FoldCompetitors, PriceBuckets, CompetitorBids, Clearings;
    HistogramGrows(PriceBuckets(Clearings(h)), PriceBucket(a.clearing), PRICE_BUCKETS);
    CompetitorsFold(PriceBuckets(CompetitorBids(h)), a.competitorBids);
  }

  lemma ClearingsGrow(h: seq<Auction>, a: Auction)
    ensures PriceBuckets(Clearings(h + [a])) == PriceBuckets(Clearings(h)) + [PriceBucket(a.clearing)]
    ensures PriceBuckets(CompetitorBids(h + [a])) == PriceBuckets(CompetitorBids(h)) + PriceBuckets(a.competitorBids)
  {
    hide PriceBucket;
    assert (h + [a])[..|h|] == h;
  }

  lemma NothingIsExplained()
    ensures CompaniesExplained(Empty(), []) && BidsExplained(Empty(), []) && MarketExplained(Empty(), [])
  {
    EmptyHistogram(PRICE_BUCKETS);
    EmptyHistogram(WIN_PROB_BUCKETS);
    assert BidBuckets([]) == [] && ChanceBuckets([]) == [] && PriceBuckets([]) == [];
    hide Histogram, Ledger;
  }

  lemma {:induction false} EntriesOfTheAuctions(h: seq<Step>)
    ensures EntriesIn(Mentions(h)) == Entries(AuctionsIn(h))
  {
    if h != [] {
      var before, step := h[..|h| - 1], h[|h| - 1];
      EntriesOfTheAuctions(before);
      match step {
        case Budgeted(id, budget) =>
          MentionsGrow(Mentions(before), Budgeting(id, budget));
          assert AuctionsIn(h) == AuctionsIn(before);
        case Held(a) =>
          EnteringAdds(Mentions(before), a.entries);
          assert AuctionsIn(h)[..|AuctionsIn(before)|] == AuctionsIn(before);
      }
      hide EntriesIn, Entering;
    }
  }

  /** The store is its history: after any calls every counter, sum, histogram, ledger, and the order of companies
      equals what is read off the whole list of them. */
  lemma {:induction false} StoreIsItsHistory(h: seq<Step>)
    ensures CompaniesExplained(Recorded(h), Mentions(h))
    ensures BidsExplained(Recorded(h), Entries(AuctionsIn(h)))
    ensures MarketExplained(Recorded(h), AuctionsIn(h))
  {
    hide CompaniesExplained, BidsExplained, MarketExplained, AfterSetBudget, AfterRecord, Entering, Entries;
    EntriesOfTheAuctions(h);
    if h == [] {
      NothingIsExplained();
    } else {
      var before, step := h[..|h| - 1], h[|h| - 1];
      StoreIsItsHistory(before);
      EntriesOfTheAuctions(before);
      hide EntriesIn;
      match step {
        case Budgeted(id, budget) =>
          BudgetKeepsCompaniesExplained(Recorded(before), Mentions(before), id, budget);
          BudgetTouchesNothingElse(Recorded(before), id, budget, AuctionsIn(before));
          assert AuctionsIn(h) == AuctionsIn(before);
        case Held(a) =>
          RecordStaysExplained(Recorded(before), Mentions(before), AuctionsIn(before), a);
      }
    }
  }

  lemma BudgetTouchesNothingElse(s: State, id: string, budget: real, h: seq<Auction>)
    requires Shaped(s) && BidsExplained(s, Entries(h)) && MarketExplained(s, h)
    ensures var t := AfterSetBudget(s, id, budget); BidsExplained(t, Entries(h)) && MarketExplained(t, h)
  {
    hide Entries, Bids, BidBuckets, ChanceBuckets, PriceBuckets, Clearings, CompetitorBids, Histogram, Shaped;
  }

  lemma RecordStaysExplained(s: State, ms: seq<Mention>, h: seq<Auction>, a: Auction)
    requires Shaped(s) && CompaniesExplained(s, ms) && BidsExplained(s, EntriesIn(ms)) && MarketExplained(s, h)
    ensures var u, more := AfterRecord(s, a), ms + Entering(a.entries);
            CompaniesExplained(u, more) && BidsExplained(u, EntriesIn(more)) && MarketExplained(u, h + [a])
  {
    hide CompaniesExplained, BidsExplained, MarketExplained, FoldEntries, AfterMarket, Shaped, EntriesIn, Entering;
    var t, more := AfterMarket(s, a), ms + Entering(a.entries);
    AuctionKeepsMarketExplained(s, h, a);
    MarketTouchesNoCompany(s, a, ms);
    EntriesStayExplained(t, ms, a.entries);
    EntriesKeepTheMarket(t, a.entries);
    FeedTouchesNothingElse(FoldEntries(t, a.entries), t, more, h + [a], a);
  }

  lemma MarketTouchesNoCompany(s: State, a: Auction, ms: seq<Mention>)
    requires Shaped(s) && CompaniesExplained(s, ms) && BidsExplained(s, EntriesIn(ms))
    ensures CompaniesExplained(AfterMarket(s, a), ms) && BidsExplained(AfterMarket(s, a), EntriesIn(ms))
  {
    hide Ledger, Names, FirstMentions, Of, LatestBudget, EntriesIn, Histogram, BidBuckets, ChanceBuckets, Bids, Bump;
    hide Shaped, FoldCompetitors;
  }

  lemma FeedTouchesNothingElse(s: State, t: State, ms: seq<Mention>, h: seq<Auction>, a: Auction)
    requires Shaped(s)
    requires CompaniesExplained(s, ms) && BidsExplained(s, EntriesIn(ms)) && MarketExplained(t, h)
    requires s.auctions == t.auctions && s.lastClearing == t.lastClearing
    requires s.clearingHist == t.clearingHist && s.compHist == t.compHist
    ensures var u := s.(events := Push(s.events, EVENT_RING, EventOf(a)));
            CompaniesExplained(u, ms) && BidsExplained(u, EntriesIn(ms)) && MarketExplained(u, h)
  {
    hide Ledger, Names, FirstMentions, Of, LatestBudget, EntriesIn, Histogram, BidBuckets, ChanceBuckets, Bids, Push;
    hide EventOf, PriceBuckets, Clearings, CompetitorBids;
  }

  // ---------- conservation ----------

  /** Every auction lands in one clearing bucket, every competitor's bid in one competitor bucket, and every
      bid in one price bucket and one win-probability bucket. */
  lemma HistogramsCountEverything(h: seq<Step>)
    ensures var s, held := Recorded(h), AuctionsIn(h);
            && Count(s.clearingHist) == s.auctions == |held|
            && Count(s.compHist) == |CompetitorBids(held)|
            && Count(s.bidHist) == Count(s.winProbHist) == |Bids(Entries(held))|
  {
    StoreIsItsHistory(h);
    var held := AuctionsIn(h);
    hide Recorded, AuctionsIn, Entries, Bids, CompetitorBids, CompaniesExplained, Count, Histogram;
    HistogramCountsEveryItem(PriceBuckets(Clearings(held)), PRICE_BUCKETS);
    HistogramCountsEveryItem(PriceBuckets(CompetitorBids(held)), PRICE_BUCKETS);
    HistogramCountsEveryItem(BidBuckets(Bids(Entries(held))), PRICE_BUCKETS);
    HistogramCountsEveryItem(ChanceBuckets(Bids(Entries(held))), WIN_PROB_BUCKETS);
  }

  /** Total bids over the listed companies. */
  function BidsAcross(companies: map<string, CompanyState>, ids: seq<string>): nat
    requires forall i :: 0 <= i < |ids| ==> ids[i] in companies
  {
    if ids == [] then 0
    else BidsAcross(companies, ids[..|ids| - 1]) + companies[ids[|ids| - 1]].bids
  }

  function OwnBids(es: seq<Entry>, ids: seq<string>): nat {
    if ids == [] then 0 else OwnBids(es, ids[..|ids| - 1]) + |Bids(Of(es, ids[|ids| - 1]))|
  }

  lemma {:induction false} OneMoreOwnBid(es: seq<Entry>, e: Entry, ids: seq<string>)
    requires forall i, j :: 0 <= i < j < |ids| ==> ids[i] != ids[j]
    ensures OwnBids(es + [e], ids) == OwnBids(es, ids) + if IsBid(e) && e.id in ids then 1 else 0
  {
    hide Bids, Of;
    if ids != [] {
      var front, last := ids[..|ids| - 1], ids[|ids| - 1];
      OneMoreOwnBid(es, e, front);
      assert ids == front + [last];
      OfGrows(es, e, last);
      BidsGrow(Of(es, last), e);
    }
  }

  lemma {:induction false} OwnBidsCoverAll(es: seq<Entry>, ids: seq<string>)
    requires forall i, j :: 0 <= i < j < |ids| ==> ids[i] != ids[j]
    requires forall i :: 0 <= i < |es| ==> es[i].id in ids
    ensures OwnBids(es, ids) == |Bids(es)|
  {
    if es == [] {
      NobodyBids(ids);
    } else {
      var front, e := es[..|es| - 1], es[|es| - 1];
      assert es == front + [e];
      OwnBidsCoverAll(front, ids);
      OneMoreOwnBid(front, e, ids);
      BidsGrow(front, e);
    }
  }

  lemma {:induction false} NobodyBids(ids: seq<string>)
    ensures OwnBids([], ids) == 0
  {
    if ids != [] {
      NobodyBids(ids[..|ids| - 1]);
    }
  }

  lemma {:induction false} BidsAcrossAreOwnBids(s: State, ms: seq<Mention>, ids: seq<string>)
    requires CompaniesExplained(s, ms)
    requires forall i :: 0 <= i < |ids| ==> ids[i] in s.companies
    ensures BidsAcross(s.companies, ids) == OwnBids(EntriesIn(ms), ids)
  {
    if ids != [] {
      var last := ids[|ids| - 1];
      BidsAcrossAreOwnBids(s, ms, ids[..|ids| - 1]);
      assert s.companies[last] == Ledger(Of(EntriesIn(ms), last), LatestBudget(ms, last));
      LedgerCountsBids(Of(EntriesIn(ms), last), LatestBudget(ms, last));
      hide Ledger, Of, EntriesIn, LatestBudget, CompaniesExplained;
    }
  }

  lemma LedgerCountsBids(own: seq<Entry>, budget: real)
    ensures Ledger(own, budget).bids == |Bids(own)|
  {
  }

  lemma {:induction false} EveryEntryIsMentioned(ms: seq<Mention>, i: nat)
    requires i < |EntriesIn(ms)|
    ensures EntriesIn(ms)[i].id in FirstMentions(Names(ms))
  {
    var front, m := ms[..|ms| - 1], ms[|ms| - 1];
    assert ms == front + [m];
    MentionsGrow(front, m);
    if i < |EntriesIn(front)| {
      EveryEntryIsMentioned(front, i);
    }
    hide FirstMentions, Names;
  }

  /** The companies' own bid counters add up to the shared bid histogram, each company listed once. */
  lemma CompaniesShareTheBidHistogram(h: seq<Step>)
    ensures var s := Recorded(h);
            && (forall i, j :: 0 <= i < j < |s.order| ==> s.order[i] != s.order[j])
            && (forall id :: id in s.companies <==> id in s.order)
            && BidsAcross(s.companies, s.order) == Count(s.bidHist)
  {
    StoreIsItsHistory(h);
    HistogramsCountEverything(h);
    EntriesOfTheAuctions(h);
    var s, ms := Recorded(h), Mentions(h);
    hide Recorded, AuctionsIn, Mentions, Entries, EntriesIn, FirstMentions, Ledger, BidsAcross, OwnBids, Bids;
    hide Of, Count;
    var es := EntriesIn(ms);
    forall i | 0 <= i < |es| ensures es[i].id in s.order {
      EveryEntryIsMentioned(ms, i);
    }
    OwnBidsCoverAll(es, s.order);
    BidsAcrossAreOwnBids(s, ms, s.order);
  }

  ghost predicate Settled(es: seq<Entry>, value: real) {
    forall i :: 0 <= i < |es| && es[i].won ==> es[i].profit + es[i].spend == value
  }

  /** What `n` wins are worth. */
  function Worth(value: real, n: nat): real {
    value * n as real
  }

  lemma OneMoreShare(value: real, n: nat)
    ensures Worth(value, 0) == 0.0 && Worth(value, n + 1) == Worth(value, n) + value
  {
  }

  lemma {:induction false} SelectionsStaySettled(es: seq<Entry>, id: string, value: real)
    requires Settled(es, value)
    ensures Settled(Of(es, id), value) && Settled(Bids(es), value)
    ensures forall i :: 0 <= i < |Wins(es)| ==> Wins(es)[i].profit + Wins(es)[i].spend == value
  {
    if es != [] {
      SelectionsStaySettled(es[..|es| - 1], id, value);
    }
  }

  lemma {:induction false} WinsShareTheValue(wins: seq<Entry>, value: real)
    requires forall i :: 0 <= i < |wins| ==> wins[i].profit + wins[i].spend == value
    ensures Total(Values(wins, Profit)) + Total(Values(wins, Spend)) == Worth(value, |wins|)
  {
    hide Total, Values, Worth;
    OneMoreShare(value, 0);
    if wins == [] {
      assert Total(Values([], Profit)) == 0.0 && Total(Values([], Spend)) == 0.0 by { NoValues(); }
    } else {
      var front, e := wins[..|wins| - 1], wins[|wins| - 1];
      WinsShareTheValue(front, value);
      assert wins == front + [e];
      ValuesGrow(front, e, Profit);
      ValuesGrow(front, e, Spend);
      OneMoreShare(value, |front|);
    }
  }

  lemma NoValues()
    ensures forall c :: Total(Values([], c)) == 0.0
  {
  }

  /** Every company's books: bids are wins and losses, and profit and spend share out the value of its wins. */
  lemma BooksBalance(h: seq<Step>, id: string, value: real)
    requires id in Recorded(h).companies
    requires Settled(Entries(AuctionsIn(h)), value)
    ensures var c := Recorded(h).companies[id];
            c.bids == c.won + c.lost && c.profit + c.spend == Worth(value, c.won)
  {
    hide Recorded, AuctionsIn, Mentions, EntriesIn, LatestBudget, Entries, Ledger, Settled, Worth;
    StoreIsItsHistory(h);
    EntriesOfTheAuctions(h);
    var es, budget := Entries(AuctionsIn(h)), LatestBudget(Mentions(h), id);
    SelectionsStaySettled(es, id, value);
    LedgerBalances(Of(es, id), budget, value);
  }

  lemma LedgerBalances(own: seq<Entry>, budget: real, value: real)
    requires Settled(own, value)
    ensures var c := Ledger(own, budget); c.bids == c.won + c.lost && c.profit + c.spend == Worth(value, c.won)
  {
    hide Bids, Wins, Total, Values, Pushed, Misses, Fallbacks, PositiveRtts, PositiveInfs, LatestCameBack, Worth;
    SelectionsStaySettled(own, "", value);
    SelectionsStaySettled(Bids(own), "", value);
    WinsShareTheValue(Wins(Bids(own)), value);
  }

  /** A company's latency rings, oldest slot first, are its last 512 positive samples; so the slots hold exactly
      those samples, with repeats. */
  lemma LatencyRingsHoldTheNewest(h: seq<Step>, id: string)
    requires id in Recorded(h).companies
    ensures var c, own := Recorded(h).companies[id], Bids(Of(Entries(AuctionsIn(h)), id));
            && Unrolled(c.rtt) == Newest(PositiveRtts(own), 512)
            && multiset(c.rtt.slots) == multiset(Newest(PositiveRtts(own), 512))
            && Unrolled(c.inf) == Newest(PositiveInfs(own), 512)
            && multiset(c.inf.slots) == multiset(Newest(PositiveInfs(own), 512))
  {
    StoreIsItsHistory(h);
    EntriesOfTheAuctions(h);
    var own := Bids(Of(Entries(AuctionsIn(h)), id));
    hide Pushed, Newest, Unrolled, PositiveRtts, PositiveInfs, Bids, Of, Entries, Recorded, AuctionsIn;
    hide Mentions, EntriesIn;
    RingHoldsTheNewest(PositiveRtts(own), LATENCY_SAMPLES);
    RingHoldsTheNewest(PositiveInfs(own), LATENCY_SAMPLES);
  }
}
