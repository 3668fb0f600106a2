/** The telemetry store (go-engine/internal/stats/stats.go): every recorded auction is folded into counters,
    ledgers, histograms and rings. Amounts are exact reals. */
module StatsStores {
  import opened Rings
  import opened Tallies

  const LATENCY_SAMPLES: nat := 512
  const EVENT_RING: nat := 80
  const PRICE_BUCKETS: nat := 21
  const WIN_PROB_BUCKETS: nat := 20

  /** One company's part in one auction. */
  datatype Entry = Entry(id: string, ok: bool, paced: bool, won: bool, bid: real, winProb: real, expProfit: real,
                         infUs: real, rttUs: real, fallback: bool, profit: real, spend: real, budget: real)

  datatype Auction = Auction(requestId: string, clearing: real, competitorTop: real, competitorBids: seq<real>,
                             winner: string, entries: seq<Entry>)

  datatype EventBid = EventBid(id: string, ok: bool, paced: bool, won: bool, bid: real, winProb: real,
                               expProfit: real, infUs: int, rttUs: int, fallback: bool)

  datatype Event = Event(requestId: string, clearing: real, competitorTop: real, winner: string, bids: seq<EventBid>)

  datatype CompanyState = CompanyState(won: nat, lost: nat, noBid: nat, profit: real, spend: real, budget: real,
                                       bids: nat, bidSum: real, lastBid: real, winProbSum: real, expProfitSum: real,
                                       fallback: nat, rtt: Ring<real>, inf: Ring<real>, healthy: bool)

  datatype State = State(auctions: nat, lastClearing: real, companies: map<string, CompanyState>, order: seq<string>,
                         clearingHist: seq<nat>, bidHist: seq<nat>, compHist: seq<nat>, winProbHist: seq<nat>,
                         events: Ring<Event>)

  function NewCompany(budget: real): CompanyState {
    CompanyState(0, 0, 0, 0.0, 0.0, budget, 0, 0.0, 0.0, 0.0, 0.0, 0, Ring([], 0), Ring([], 0), true)
  }

  // ---------- buckets and rounding ----------

  /** A conversion to an integer drops the fraction, towards zero. */
  function Truncated(x: real): int {
    if x >= 0.0 then x.Floor else -(-x).Floor
  }

  function Clamped(i: int, n: nat): (b: nat)
    requires n > 0
    ensures b < n
  {
    if i < 0 then 0 else if i >= n then n - 1 else i
  }

  function PriceBucket(v: real): (b: nat)
    ensures b < PRICE_BUCKETS
  {
    Clamped(Truncated(v / 10.0), PRICE_BUCKETS)
  }

  function WinProbBucket(p: real): (b: nat)
    ensures b < WIN_PROB_BUCKETS
  {
    Clamped(Truncated(p * 20.0), WIN_PROB_BUCKETS)
  }

  /** Bucket 0 takes every price below 10, bucket 20 every price from 200 on, and bucket `b` between them
      the prices from `10 * b` up to the next multiple of 10. */
  lemma PriceBucketIsItsRange(v: real, b: nat)
    requires b < PRICE_BUCKETS
    ensures PriceBucket(v) == b <==>
      && (b > 0 ==> 10.0 * b as real <= v)
      && (b < PRICE_BUCKETS - 1 ==> v < 10.0 * (b + 1) as real)
  {
    var t := v / 10.0;
    assert v == 10.0 * t;
    assert t.Floor as real <= t < t.Floor as real + 1.0;
  }

  /** Win probabilities fall into steps of 0.05, those outside 0 to 1 into the nearest end. */
  lemma WinProbBucketIsItsRange(p: real, b: nat)
    requires b < WIN_PROB_BUCKETS
    ensures WinProbBucket(p) == b <==>
      && (b > 0 ==> b as real <= 20.0 * p)
      && (b < WIN_PROB_BUCKETS - 1 ==> 20.0 * p < (b + 1) as real)
  {
    var t := p * 20.0;
    assert t.Floor as real <= t < t.Floor as real + 1.0;
  }

  /** To the nearest multiple of one over `scale`, halves away from zero. */
  function RoundedTo(v: real, scale: real): real
    requires scale > 0.0
  {
    Truncated(v * scale + if v < 0.0 then -0.5 else 0.5) as real / scale
  }

  lemma RoundedToTheNearest(v: real, scale: real)
    requires scale > 0.0
    ensures var steps := RoundedTo(v, scale) * scale;
            && steps == steps.Floor as real
            && v * scale - 0.5 <= steps <= v * scale + 0.5
            && (v >= 0.0 ==> steps > v * scale - 0.5) && (v < 0.0 ==> steps < v * scale + 0.5)
  {
    var x := v * scale;
    SameSign(v, scale);
    var n := Truncated(x + if v < 0.0 then -0.5 else 0.5);
    assert RoundedTo(v, scale) * scale == n as real;
  }

  lemma SameSign(v: real, scale: real)
    requires scale > 0.0
    ensures v < 0.0 <==> v * scale < 0.0
  {
  }

  function EventBidOf(e: Entry): EventBid {
    EventBid(e.id, e.ok, e.paced, e.won, RoundedTo(e.bid, 10.0), RoundedTo(e.winProb, 1000.0),
             RoundedTo(e.expProfit, 10.0), Truncated(e.infUs), Truncated(e.rttUs), e.fallback)
  }

  function EventOf(a: Auction): Event {
    Event(a.requestId, RoundedTo(a.clearing, 10.0), RoundedTo(a.competitorTop, 10.0), a.winner,
          seq(|a.entries|, i requires 0 <= i < |a.entries| => EventBidOf(a.entries[i])))
  }

  /** A figure shown to the nearest multiple of one over `scale`. */
  predicate Nearest(shown: real, v: real, scale: real) {
    var steps := shown * scale;
    steps == steps.Floor as real && v * scale - 0.5 <= steps <= v * scale + 0.5
  }

  /** A whole number with the fraction dropped, towards zero. */
  predicate DropsTheFraction(n: int, x: real) {
    if x >= 0.0 then n as real <= x < n as real + 1.0 else n as real - 1.0 < x <= n as real
  }

  /** Each figure of the feed is its own figure of the auction, rounded; one bid a recorded entry, in order. */
  lemma FeedTellsTheAuction(a: Auction)
    ensures var ev := EventOf(a);
      && ev.requestId == a.requestId && ev.winner == a.winner
      && Nearest(ev.clearing, a.clearing, 10.0) && Nearest(ev.competitorTop, a.competitorTop, 10.0)
      && |ev.bids| == |a.entries|
      && forall i :: 0 <= i < |a.entries| ==> Shows(ev.bids[i], a.entries[i])
  {
    hide RoundedTo, Truncated;
    RoundedToTheNearest(a.clearing, 10.0);
    RoundedToTheNearest(a.competitorTop, 10.0);
    forall i | 0 <= i < |a.entries|
      ensures Shows(EventBidOf(a.entries[i]), a.entries[i])
    {
      BidIsShown(a.entries[i]);
    }
  }

  predicate Shows(b: EventBid, e: Entry) {
    && b.id == e.id && b.ok == e.ok && b.paced == e.paced && b.won == e.won && b.fallback == e.fallback
    && Nearest(b.bid, e.bid, 10.0) && Nearest(b.winProb, e.winProb, 1000.0) && Nearest(b.expProfit, e.expProfit, 10.0)
    && DropsTheFraction(b.infUs, e.infUs) && DropsTheFraction(b.rttUs, e.rttUs)
  }

  lemma BidIsShown(e: Entry)
    ensures Shows(EventBidOf(e), e)
  {
    hide RoundedTo, Truncated;
    RoundedToTheNearest(e.bid, 10.0);
    RoundedToTheNearest(e.winProb, 1000.0);
    RoundedToTheNearest(e.expProfit, 10.0);
    FractionIsDropped(e.infUs);
    FractionIsDropped(e.rttUs);
  }

  lemma FractionIsDropped(x: real)
    ensures DropsTheFraction(Truncated(x), x)
  {
  }

  // ---------- what one call does to the state ----------

  function PushPositive(r: Ring<real>, x: real): (q: Ring<real>)
    requires Usable(r, LATENCY_SAMPLES)
    ensures Usable(q, LATENCY_SAMPLES)
  {
    if x > 0.0 then Push(r, LATENCY_SAMPLES, x) else r
  }

  predicate Sound(c: CompanyState) {
    Usable(c.rtt, LATENCY_SAMPLES) && Usable(c.inf, LATENCY_SAMPLES)
  }

  function AfterEntry(c: CompanyState, e: Entry): (r: CompanyState)
    requires Sound(c)
    ensures Sound(r)
  {
    if e.paced then c
    else if !e.ok then c.(noBid := c.noBid + 1, healthy := false)
    else
      var asked := c.(healthy := true, bids := c.bids + 1, bidSum := c.bidSum + e.bid, lastBid := e.bid,
                      winProbSum := c.winProbSum + e.winProb, expProfitSum := c.expProfitSum + e.expProfit,
                      fallback := c.fallback + if e.fallback then 1 else 0,
                      rtt := PushPositive(c.rtt, e.rttUs), inf := PushPositive(c.inf, e.infUs));
      if e.won then
        asked.(won := c.won + 1, profit := c.profit + e.profit, spend := c.spend + e.spend, budget := e.budget)
      else asked.(lost := c.lost + 1)
  }

  predicate Shaped(s: State) {
    && |s.clearingHist| == PRICE_BUCKETS && |s.bidHist| == PRICE_BUCKETS && |s.compHist| == PRICE_BUCKETS
    && |s.winProbHist| == WIN_PROB_BUCKETS
    && Usable(s.events, EVENT_RING)
    && forall id :: id in s.companies ==> Sound(s.companies[id])
  }

  function Empty(): (s: State)
    ensures Shaped(s)
  {
    State(0, 0.0, map[], [], seq(PRICE_BUCKETS, _ => 0), seq(PRICE_BUCKETS, _ => 0),
          seq(PRICE_BUCKETS, _ => 0), seq(WIN_PROB_BUCKETS, _ => 0), Ring([], 0))
  }

  /** A company is created on first mention. */
  function WithCompany(s: State, id: string): (r: State)
    requires Shaped(s)
    ensures Shaped(r) && id in r.companies
  {
    if id in s.companies then s
    else s.(companies := s.companies[id := NewCompany(0.0)], order := s.order + [id])
  }

  function AfterSetBudget(s: State, id: string, budget: real): (r: State)
    requires Shaped(s)
    ensures Shaped(r)
  {
    var t := WithCompany(s, id);
    t.(companies := t.companies[id := t.companies[id].(budget := budget)])
  }

  function FoldEntry(s: State, e: Entry): (r: State)
    requires Shaped(s)
    ensures Shaped(r)
  {
    var t := WithCompany(s, e.id);
    var u := t.(companies := t.companies[e.id := AfterEntry(t.companies[e.id], e)]);
    if e.paced || !e.ok then u
    else u.(bidHist := Bump(u.bidHist, PriceBucket(e.bid)),
            winProbHist := Bump(u.winProbHist, WinProbBucket(e.winProb)))
  }

  function FoldEntries(s: State, es: seq<Entry>): (r: State)
    requires Shaped(s)
    ensures Shaped(r)
  {
    if es == [] then s else FoldEntry(FoldEntries(s, es[..|es| - 1]), es[|es| - 1])
  }

  function FoldCompetitors(h: seq<nat>, bids: seq<real>): (r: seq<nat>)
    requires |h| == PRICE_BUCKETS
    ensures |r| == PRICE_BUCKETS
  {
    if bids == [] then h
    else Bump(FoldCompetitors(h, bids[..|bids| - 1]), PriceBucket(bids[|bids| - 1]))
  }

  function AfterMarket(s: State, a: Auction): (r: State)
    requires Shaped(s)
    ensures Shaped(r)
  {
    s.(auctions := s.auctions + 1, lastClearing := a.clearing,
       clearingHist := Bump(s.clearingHist, PriceBucket(a.clearing)),
       compHist := FoldCompetitors(s.compHist, a.competitorBids))
  }

  function AfterRecord(s: State, a: Auction): (r: State)
    requires Shaped(s)
    ensures Shaped(r)
  {
    var t := FoldEntries(AfterMarket(s, a), a.entries);
    t.(events := Push(t.events, EVENT_RING, EventOf(a)))
  }

  /** One call that changes the store. */
  datatype Step = Budgeted(id: string, budget: real) | Held(auction: Auction)

  function AfterStep(s: State, step: Step): (r: State)
    requires Shaped(s)
    ensures Shaped(r)
  {
    match step
    case Budgeted(id, budget) => AfterSetBudget(s, id, budget)
    case Held(a) => AfterRecord(s, a)
  }

  /** The store after a list of calls. */
  function Recorded(h: seq<Step>): (s: State)
    ensures Shaped(s)
  {
    if h == [] then Empty() else AfterStep(Recorded(h[..|h| - 1]), h[|h| - 1])
  }

  function AuctionsIn(h: seq<Step>): (r: seq<Auction>)
    ensures |r| <= |h|
  {
    if h == [] then []
    else AuctionsIn(h[..|h| - 1]) + if h[|h| - 1].Held? then [h[|h| - 1].auction] else []
  }

  // ---------- the object ----------

  method BumpAt(h: array<nat>, b: nat)
    requires b < h.Length
    modifies h
    ensures h[..] == Bump(old(h[..]), b)
  {
    h[b] := h[b] + 1;
  }

  /** One entry's effect on its company's counters. */
  method UpdateCompany(before: CompanyState, e: Entry) returns (c: CompanyState)
    requires Sound(before)
    ensures c == AfterEntry(before, e)
  {
    c := before;
    if e.paced {
      // benched: counts nowhere
      return;
    }
    if !e.ok {
      c := c.(noBid := c.noBid + 1, healthy := false);
      return;
    }
    c := c.(healthy := true, bids := c.bids + 1, bidSum := c.bidSum + e.bid, lastBid := e.bid);
    c := c.(winProbSum := c.winProbSum + e.winProb, expProfitSum := c.expProfitSum + e.expProfit);
    if e.fallback {
      c := c.(fallback := c.fallback + 1);
    }
    if e.rttUs > 0.0 {
      c := c.(rtt := Push(c.rtt, LATENCY_SAMPLES, e.rttUs));
    }
    if e.infUs > 0.0 {
      c := c.(inf := Push(c.inf, LATENCY_SAMPLES, e.infUs));
    }
    if e.won {
      c := c.(won := c.won + 1, profit := c.profit + e.profit, spend := c.spend + e.spend, budget := e.budget);
    } else {
      c := c.(lost := c.lost + 1);
    }
  }

  class Store {
    var auctions: nat
    var lastClearing: real
    var companies: map<string, CompanyState>
    var order: seq<string>
    const clearingHist: array<nat>
    const bidHist: array<nat>
    const compHist: array<nat>
    const winProbHist: array<nat>
    var events: Ring<Event>
    ghost var history: seq<Step>

    ghost function Repr(): set<object> {
      {this, clearingHist, bidHist, compHist, winProbHist}
    }

    ghost function View(): State
      reads Repr()
    {
      State(auctions, lastClearing, companies, order, clearingHist[..], bidHist[..], compHist[..], winProbHist[..],
        events)
    }

    ghost predicate Separate() {
      && clearingHist != bidHist && clearingHist != compHist && clearingHist != winProbHist
      && bidHist != compHist && bidHist != winProbHist && compHist != winProbHist
    }

    ghost predicate Valid()
      reads Repr()
    {
      Separate() && View() == Recorded(history)
    }

    constructor ()
      ensures Valid() && fresh(Repr()) && history == []
    {
      auctions, lastClearing, companies, order, events := 0, 0.0, map[], [], Ring([], 0);
      clearingHist := new nat[PRICE_BUCKETS](_ => 0);
      bidHist := new nat[PRICE_BUCKETS](_ => 0);
      compHist := new nat[PRICE_BUCKETS](_ => 0);
      winProbHist := new nat[WIN_PROB_BUCKETS](_ => 0);
      history := [];
    }

    method Company(id: string)
      requires Shaped(View())
      modifies this`companies, this`order
      ensures View() == WithCompany(old(View()), id)
    {
      if id !in companies {
        companies := companies[id := NewCompany(0.0)];
        order := order + [id];
      }
    }

    /** Sets what the store shows as a company's budget. */
    method SetBudget(id: string, budget: real)
      requires Valid()
      modifies this
      ensures Valid() && history == old(history) + [Budgeted(id, budget)]
      ensures View() == AfterSetBudget(old(View()), id, budget)
    {
      hide Recorded, Shaped;
      Company(id);
      companies := companies[id := companies[id].(budget := budget)];
      HistoryGrows(history, Budgeted(id, budget));
      history := history + [Budgeted(id, budget)];
    }

    method CountBid(e: Entry)
      requires Separate() && bidHist.Length == PRICE_BUCKETS && winProbHist.Length == WIN_PROB_BUCKETS
      modifies bidHist, winProbHist
      ensures bidHist[..] == Bump(old(bidHist[..]), PriceBucket(e.bid))
      ensures winProbHist[..] == Bump(old(winProbHist[..]), WinProbBucket(e.winProb))
    {
      BumpAt(bidHist, PriceBucket(e.bid));
      BumpAt(winProbHist, WinProbBucket(e.winProb));
    }

    method RecordEntry(e: Entry)
      requires Separate() && Shaped(View())
      modifies this`companies, this`order, bidHist, winProbHist
      ensures View() == FoldEntry(old(View()), e)
    {
      Company(e.id);
      var c := UpdateCompany(companies[e.id], e);
      hide AfterEntry, WinProbBucket, PriceBucket, Bump;
      companies := companies[e.id := c];
      if e.ok && !e.paced {
        CountBid(e);
      }
    }

    method RecordMarket(a: Auction)
      requires Separate() && Shaped(View())
      modifies this`auctions, this`lastClearing, clearingHist, compHist
      ensures View() == AfterMarket(old(View()), a)
    {
      auctions := auctions + 1;
      lastClearing := a.clearing;
      BumpAt(clearingHist, PriceBucket(a.clearing));
      ghost var before := compHist[..];
      for i := 0 to |a.competitorBids|
        invariant compHist[..] == FoldCompetitors(before, a.competitorBids[..i])
        modifies compHist
      {
        BumpAt(compHist, PriceBucket(a.competitorBids[i]));
        assert a.competitorBids[..i + 1][..i] == a.competitorBids[..i];
      }
      assert a.competitorBids[..|a.competitorBids|] == a.competitorBids;
    }

    method RecordEntries(es: seq<Entry>)
      requires Separate() && Shaped(View())
      modifies this`companies, this`order, bidHist, winProbHist
      ensures View() == FoldEntries(old(View()), es)
    {
      hide FoldEntry, Shaped;
      ghost var before := View();
      for i := 0 to |es|
        invariant View() == FoldEntries(before, es[..i])
      {
        RecordEntry(es[i]);
        assert es[..i + 1][..i] == es[..i];
      }
      assert es[..|es|] == es;
    }

    /** Puts the auction's trimmed event into the ring, over the oldest one once it is full. */
    method PushEvent(a: Auction)
      requires Usable(events, EVENT_RING)
      modifies this`events
      ensures events == Push(old(events), EVENT_RING, EventOf(a))
    {
      hide RoundedTo, Truncated;
      var bids: seq<EventBid> := [];
      for i := 0 to |a.entries|
        invariant |bids| == i
        invariant forall j :: 0 <= j < i ==> bids[j] == EventBidOf(a.entries[j])
        invariant events == old(events)
      {
        var e := a.entries[i];
        bids := bids + [EventBid(e.id, e.ok, e.paced, e.won, RoundedTo(e.bid, 10.0), RoundedTo(e.winProb, 1000.0),
                                 RoundedTo(e.expProfit, 10.0), Truncated(e.infUs), Truncated(e.rttUs), e.fallback)];
      }
      var ev := Event(a.requestId, RoundedTo(a.clearing, 10.0), RoundedTo(a.competitorTop, 10.0), a.winner, bids);
      assert ev == EventOf(a);
      if |events.slots| < EVENT_RING {
        events := events.(slots := events.slots + [ev]);
      } else {
        events := Ring(events.slots[events.pos := ev], (events.pos + 1) % EVENT_RING);
      }
    }

    /** Records an auction: the market first, then its entries, then the feed. */
    method Record(a: Auction)
      requires Valid()
      modifies Repr()
      ensures Valid() && history == old(history) + [Held(a)]
      ensures View() == AfterRecord(old(View()), a)
    {
      hide FoldEntries, AfterMarket, EventOf, Recorded, Shaped;
      HistoryGrows(history, Held(a));
      RecordMarket(a);
      EntriesKeepTheFeed(View(), a.entries);
      RecordEntries(a.entries);
      FeedIsUsable(View());
      PushEvent(a);
      history := history + [Held(a)];
    }

    /** The live feed, newest first: the last 80 recorded auctions, whatever has wrapped round. */
    method EventsNewestFirst() returns (out: seq<Event>)
      requires Valid()
      ensures out == Reversed(Newest(EventsOf(AuctionsIn(history)), 80))
    {
      FeedHoldsTheEvents(history);
      out := NewestFirst(events, EVENT_RING, EventsOf(AuctionsIn(history)));
    }
  }

  function EventsOf(h: seq<Auction>): (r: seq<Event>)
    ensures |r| == |h|
  {
    seq(|h|, i requires 0 <= i < |h| => EventOf(h[i]))
  }

  lemma {:induction false} EntriesKeepTheFeed(s: State, es: seq<Entry>)
    requires Shaped(s)
    ensures FoldEntries(s, es).events == s.events
  {
    if es != [] {
      EntriesKeepTheFeed(s, es[..|es| - 1]);
    }
  }

  lemma HistoryGrows(h: seq<Step>, step: Step)
    ensures Recorded(h + [step]) == AfterStep(Recorded(h), step)
    ensures AuctionsIn(h + [step]) == if step.Held? then AuctionsIn(h) + [step.auction] else AuctionsIn(h)
  {
    assert (h + [step])[..|h|] == h;
    hide AfterStep;
  }

  lemma FeedIsUsable(s: State)
    requires Shaped(s)
    ensures Usable(s.events, EVENT_RING)
  {
  }

  /** Whatever else is called between them, the event ring is that of the recorded auctions. */
  lemma {:induction false} FeedHoldsTheEvents(h: seq<Step>)
    ensures Recorded(h).events == Pushed(EventsOf(AuctionsIn(h)), EVENT_RING)
  {
    hide FoldEntries, EventOf, Push, AfterMarket, Shaped;
    if h != [] {
      var before, step := h[..|h| - 1], h[|h| - 1];
      FeedHoldsTheEvents(before);
      if step.Held? {
        var a := step.auction;
        EntriesKeepTheFeed(AfterMarket(Recorded(before), a), a.entries);
        MarketKeepsTheFeed(Recorded(before), a);
        assert EventsOf(AuctionsIn(h)) == EventsOf(AuctionsIn(before)) + [EventOf(a)];
        assert EventsOf(AuctionsIn(h))[..|AuctionsIn(before)|] == EventsOf(AuctionsIn(before));
      } else {
        assert AuctionsIn(h) == AuctionsIn(before);
      }
    }
  }

  lemma MarketKeepsTheFeed(s: State, a: Auction)
    requires Shaped(s)
    ensures AfterMarket(s, a).events == s.events
  {
    hide Shaped, Bump, FoldCompetitors;
  }
}
