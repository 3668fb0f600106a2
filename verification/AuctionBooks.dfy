/** The exchange and its telemetry store side by side: what the store says a company won, paid and has left, against
    what the engine charged it (go-engine/internal/engine/engine.go, go-engine/internal/stats/stats.go). */
module AuctionBooks {
  import opened Arithmetic
  import opened Types
  import opened Auctions
  import opened AuctionRuns
  import opened StatsStores
  import opened StatsLedgers
  import Tallies

  /** The budgets the engine sets when it is built. */
  function Seeds(accounts: seq<Account>): (r: seq<Step>)
    ensures |r| == |accounts|
  {
    seq(|accounts|, i requires 0 <= i < |accounts| => Budgeted(accounts[i].id, accounts[i].daily))
  }

  /** The calls on the store: the budgets, then the auctions. */
  function Log(accounts: seq<Account>, records: seq<Auction>): (r: seq<Step>)
    ensures |r| == |accounts| + |records|
  {
    Seeds(accounts) + seq(|records|, i requires 0 <= i < |records| => Held(records[i]))
  }

  /** What a run hands to the store, auction by auction. */
  function Records(cfg: Settings, x: Exchange, h: seq<Market>): (r: seq<Auction>)
    requires IsRun(x, h)
    ensures |r| == |h|
  {
    if h == [] then []
    else
      assert Fits(x, h[|h| - 1]);
      Records(cfg, x, h[..|h| - 1]) + [RecordOf(cfg, After(cfg, x, h[..|h| - 1]), h[|h| - 1])]
  }

  function Books(cfg: Settings, x: Exchange, h: seq<Market>): (s: State)
    requires IsRun(x, h)
    ensures Shaped(s)
  {
    Recorded(Log(x.accounts, Records(cfg, x, h)))
  }

  /** The store's ledger for a company, known or not. */
  function Wallet(s: State, id: string): CompanyState {
    if id in s.companies then s.companies[id] else NewCompany(0.0)
  }

  /** How many of the auctions from `lo` up to `hi` company `i` won. */
  function WinCount(cfg: Settings, x: Exchange, h: seq<Market>, i: nat, lo: nat, hi: nat): nat
    requires IsRun(x, h) && lo <= hi <= |h|
  {
    if lo == hi then 0 else WinCount(cfg, x, h, i, lo, hi - 1) + if WonBy(cfg, x, h, i, hi - 1) then 1 else 0
  }

  predicate DistinctNames(x: Exchange) {
    forall i, j :: 0 <= i < j < |x.accounts| ==> x.accounts[i].id != x.accounts[j].id
  }

  // ---------- one auction's entries ----------

  lemma WalletAfterEntry(s: State, e: Entry, id: string)
    requires Shaped(s)
    ensures Sound(Wallet(s, id))
    ensures Wallet(FoldEntry(s, e), id) == if e.id == id then AfterEntry(Wallet(s, id), e) else Wallet(s, id)
  {
    hide AfterEntry, FoldEntry;
    FoldEntryParts(s, e);
  }

  /** At most one entry of an auction won, and that one was a bid. */
  ghost predicate OneWinner(es: seq<Entry>, winner: Option<nat>) {
    && (winner.Some? ==> winner.value < |es| && IsBid(es[winner.value]))
    && forall i :: 0 <= i < |es| ==> (es[i].won <==> winner == Some(i))
  }

  /** The effect on a company's money of the first `n` entries of an auction. */
  lemma {:induction false} WalletAfterEntries(s: State, es: seq<Entry>, winner: Option<nat>, id: string, n: nat)
    requires Shaped(s) && OneWinner(es, winner) && n <= |es|
    ensures var was, c := Wallet(s, id), Wallet(FoldEntries(s, es[..n]), id);
            if winner.Some? && winner.value < n && es[winner.value].id == id
            then c.won == was.won + 1 && c.spend == was.spend + es[winner.value].spend
              && c.budget == es[winner.value].budget
            else c.won == was.won && c.spend == was.spend && c.budget == was.budget
  {
    hide FoldEntry, Wallet, Shaped;
    if n > 0 {
      WalletAfterEntries(s, es, winner, id, n - 1);
      assert es[..n][..n - 1] == es[..n - 1];
      WalletAfterEntry(FoldEntries(s, es[..n - 1]), es[n - 1], id);
      assert es[n - 1].won <==> winner == Some(n - 1);
    }
  }

  lemma WalletAfterRecord(s: State, a: Auction, winner: Option<nat>, id: string)
    requires Shaped(s) && OneWinner(a.entries, winner)
    ensures var was, c, es := Wallet(s, id), Wallet(AfterRecord(s, a), id), a.entries;
            if winner.Some? && es[winner.value].id == id
            then c.won == was.won + 1 && c.spend == was.spend + es[winner.value].spend
              && c.budget == es[winner.value].budget
            else c.won == was.won && c.spend == was.spend && c.budget == was.budget
  {
    hide FoldEntries, Shaped;
    var t := AfterMarket(s, a);
    WalletAfterEntries(t, a.entries, winner, id, |a.entries|);
    assert a.entries[..|a.entries|] == a.entries;
    assert Wallet(t, id) == Wallet(s, id);
  }

  /** What an auction records: one entry a company, under its own name, with the budget left after charging. */
  lemma RecordIsFaithful(cfg: Settings, x: Exchange, m: Market)
    requires Fits(x, m)
    ensures var o, es, after := OutcomeOf(cfg, x, m), RecordOf(cfg, x, m).entries, AfterAuction(cfg, x, m).accounts;
            && |es| == |x.accounts| && OneWinner(es, o.winner)
            && (forall i :: 0 <= i < |es| ==> es[i].id == x.accounts[i].id && es[i].budget == after[i].budget)
            && (o.winner.Some? ==> es[o.winner.value].spend == o.bid)
            && Settled(es, cfg.value)
  {
    var seated := Seated(cfg, x, m);
    var results := Results(seated, m.calls);
    var o := OutcomeOf(cfg, x, m);
    WinnerIsTheFirstHighestPayableBid(seated, results, m.competitorBids);
    hide Decide, Paced;
    forall i | 0 <= i < |x.accounts| ensures seated[i].id == x.accounts[i].id {
      NamesStay(cfg, x.accounts[i], x.counter, m.draws[i]);
      assert seated[i] == Paced(cfg, x.accounts[i], x.counter, m.draws[i]);
    }
    if o.winner.Some? {
      assert Eligible(seated[o.winner.value], results[o.winner.value]);
    }
  }

  /** An answer as it is handed to the store, or the lack of one. */
  predicate Tells(e: Entry, c: Call) {
    match c.answer
    case None =>
      e == Entry(e.id, false, false, false, 0.0, 0.0, 0.0, 0.0, c.rttUs, false, 0.0, 0.0, e.budget)
    case Some(r) =>
      && e.ok && !e.paced && e.bid == r.bid && e.winProb == r.winProb && e.expProfit == r.expProfit
      && e.infUs == r.infUs && e.rttUs == c.rttUs && e.fallback == r.fallback
  }

  /** A benched company's entry carries nothing of what it would have answered; every other one's carries its own
      company's answer and no other, or a failure if there was none. The winner's alone is charged its bid. */
  lemma EntriesTellTheCalls(cfg: Settings, x: Exchange, m: Market, i: nat)
    requires Fits(x, m) && i < |x.accounts|
    ensures |RecordOf(cfg, x, m).entries| == |x.accounts|
    ensures var e, a, won := RecordOf(cfg, x, m).entries[i], AfterAuction(cfg, x, m).accounts[i],
              OutcomeOf(cfg, x, m).winner == Some(i);
            && e.id == x.accounts[i].id && e.budget == a.budget && e.won == won
            && (a.paced ==>
                 !won && e == Entry(e.id, false, true, false, 0.0, 0.0, 0.0, 0.0, 0.0, false, 0.0, 0.0, e.budget))
            && (!a.paced ==> Tells(e, m.calls[i]))
            && e.profit == (if won then cfg.value - e.bid else 0.0) && e.spend == if won then e.bid else 0.0
  {
    RecordIsFaithful(cfg, x, m);
    SeatedAs(cfg, x, m, i);
    WinnerIsTheFirstHighestOfThoseAsked(cfg, x, m, i);
    hide OneWinner, Settled, Seated, OutcomeOf, Tells;
    EntryTells(cfg, x, m, i);
    TellsOf(Seated(cfg, x, m)[i], m.calls[i], Charged(Seated(cfg, x, m), OutcomeOf(cfg, x, m))[i],
            OutcomeOf(cfg, x, m).winner == Some(i), cfg.value);
    hide CanWin, AfterAuction, RecordOf, EntryOf, ResultOf;
  }

  lemma EntryTells(cfg: Settings, x: Exchange, m: Market, i: nat)
    requires Fits(x, m) && i < |x.accounts|
    ensures |RecordOf(cfg, x, m).entries| == |x.accounts|
    ensures var seated, o := Seated(cfg, x, m), OutcomeOf(cfg, x, m);
            RecordOf(cfg, x, m).entries[i]
              == EntryOf(Charged(seated, o)[i], ResultOf(seated[i], m.calls[i]), o.winner == Some(i), cfg.value)
  {
    hide Seated, OutcomeOf, EntryOf, ResultOf, Charged;
  }

  lemma TellsOf(seated: Account, c: Call, charged: Account, won: bool, value: real)
    ensures var e := EntryOf(charged, ResultOf(seated, c), won, value);
            && (seated.paced && !won ==>
                 e == Entry(e.id, false, true, false, 0.0, 0.0, 0.0, 0.0, 0.0, false, 0.0, 0.0, e.budget))
            && (!seated.paced && (won ==> c.answer.Some?) ==> Tells(e, c))
            && e.won == won
            && e.profit == (if won then value - e.bid else 0.0) && e.spend == if won then e.bid else 0.0
  {
  }

  /** What else is recorded: the price the auction cleared at, the competitors' bids and the highest of them, and the
      name of the winner, of the market, or of nobody. */
  lemma RecordTellsTheMarket(cfg: Settings, x: Exchange, m: Market)
    requires Fits(x, m)
    ensures var o, a := OutcomeOf(cfg, x, m), RecordOf(cfg, x, m);
            && a.requestId == m.requestId && a.clearing == o.clearing && a.competitorBids == m.competitorBids
            && a.competitorTop >= 0.0
            && (forall j :: 0 <= j < |m.competitorBids| ==> m.competitorBids[j] <= a.competitorTop)
            && (a.competitorTop > 0.0 ==> a.competitorTop in m.competitorBids)
            && (o.winner.Some? ==> a.winner == x.accounts[o.winner.value].id)
            && (o.winner.None? && a.competitorTop > 0.0 ==> a.winner == "market")
            && (o.winner.None? && a.competitorTop == 0.0 ==> a.winner == "")
  {
    TopIsTheHighest(m.competitorBids);
    var o := OutcomeOf(cfg, x, m);
    if o.winner.Some? {
      SeatedAs(cfg, x, m, o.winner.value);
    }
    hide Seated, Results, EntriesOf, Charged, Lead, Top, Renewed;
    if o.competitorTop > 0.0 {
      var j :| 0 <= j < |m.competitorBids| && m.competitorBids[j] == o.competitorTop;
    }
  }

  lemma NamesStay(cfg: Settings, a: Account, before: nat, draw: real)
    ensures Paced(cfg, a, before, draw).id == a.id && Paced(cfg, a, before, draw).daily == a.daily
  {
    hide Benched, Position;
  }

  // ---------- whole runs: money ----------

  predicate PaidBy(x: Exchange, o: Outcome, id: string)
    requires o.winner.Some? ==> o.winner.value < |x.accounts|
  {
    o.winner.Some? && x.accounts[o.winner.value].id == id
  }

  /** What the engine charged to companies of this name. */
  function Debits(cfg: Settings, x: Exchange, h: seq<Market>, id: string): real
    requires IsRun(x, h)
  {
    if h == [] then 0.0
    else
      var o := OutcomeAt(cfg, x, h, |h| - 1);
      Debits(cfg, x, h[..|h| - 1], id) + if PaidBy(x, o, id) then o.bid else 0.0
  }

  function WinsOf(cfg: Settings, x: Exchange, h: seq<Market>, id: string): nat
    requires IsRun(x, h)
  {
    if h == [] then 0
    else WinsOf(cfg, x, h[..|h| - 1], id) + if PaidBy(x, OutcomeAt(cfg, x, h, |h| - 1), id) then 1 else 0
  }

  lemma {:induction false} CompaniesKeepTheirNames(cfg: Settings, x: Exchange, h: seq<Market>, i: nat)
    requires IsRun(x, h) && i < |x.accounts|
    ensures var a := After(cfg, x, h).accounts[i]; a.id == x.accounts[i].id && a.daily == x.accounts[i].daily
  {
    if h != [] {
      var front := h[..|h| - 1];
      CompaniesKeepTheirNames(cfg, x, front, i);
      assert Fits(x, h[|h| - 1]);
      CompanyInOneAuction(cfg, After(cfg, x, front), h[|h| - 1], i);
      hide AfterAuction, OutcomeOf, Renewed, Benched;
    }
  }

  /** The budget set last for a name. */
  function BudgetOf(accounts: seq<Account>, id: string): real {
    if accounts == [] then 0.0
    else if accounts[|accounts| - 1].id == id then accounts[|accounts| - 1].daily
    else BudgetOf(accounts[..|accounts| - 1], id)
  }

  lemma {:induction false} NothingSpentAtFirst(accounts: seq<Account>, id: string)
    ensures Wallet(Recorded(Seeds(accounts)), id) == NewCompany(BudgetOf(accounts, id))
  {
    hide Recorded, Seeds, Shaped, AfterSetBudget, Wallet;
    NoSeeds();
    if accounts == [] {
      NobodyIsKnown(id);
    } else {
      var front, a := accounts[..|accounts| - 1], accounts[|accounts| - 1];
      NothingSpentAtFirst(front, id);
      SeedsGrow(front, a);
      HistoryGrows(Seeds(front), Budgeted(a.id, a.daily));
      assert accounts == front + [a];
      WalletAfterSetBudget(Recorded(Seeds(front)), a.id, a.daily, id);
    }
  }

  lemma NobodyIsKnown(id: string)
    ensures Wallet(Empty(), id) == NewCompany(0.0)
  {
  }

  lemma WalletAfterSetBudget(s: State, name: string, budget: real, id: string)
    requires Shaped(s)
    ensures Wallet(AfterSetBudget(s, name, budget), id)
         == if name == id then Wallet(s, id).(budget := budget) else Wallet(s, id)
  {
    hide Shaped, NewCompany;
  }

  lemma {:induction false} AuctionsOfARun(accounts: seq<Account>, records: seq<Auction>)
    ensures AuctionsIn(Log(accounts, records)) == records
  {
    hide AuctionsIn, Seeds, Log;
    if records == [] {
      SeedsHoldNoAuction(accounts);
      LogStarts(accounts);
    } else {
      var front, a := records[..|records| - 1], records[|records| - 1];
      AuctionsOfARun(accounts, front);
      LogGrows(accounts, front, a);
      HistoryGrows(Log(accounts, front), Held(a));
      assert records == front + [a];
    }
  }

  lemma LogStarts(accounts: seq<Account>)
    ensures Log(accounts, []) == Seeds(accounts)
  {
    hide Seeds;
  }

  lemma LogGrows(accounts: seq<Account>, records: seq<Auction>, a: Auction)
    ensures Log(accounts, records + [a]) == Log(accounts, records) + [Held(a)]
  {
    hide Seeds;
  }

  lemma {:induction false} SeedsHoldNoAuction(accounts: seq<Account>)
    ensures AuctionsIn(Seeds(accounts)) == []
  {
    hide AuctionsIn, Seeds;
    NoSeeds();
    if accounts != [] {
      var front, a := accounts[..|accounts| - 1], accounts[|accounts| - 1];
      SeedsHoldNoAuction(front);
      SeedsGrow(front, a);
      HistoryGrows(Seeds(front), Budgeted(a.id, a.daily));
      assert accounts == front + [a];
    }
  }

  lemma NoSeeds()
    ensures Seeds([]) == [] && AuctionsIn([]) == [] && Recorded([]) == Empty()
  {
  }

  lemma SeedsGrow(accounts: seq<Account>, a: Account)
    ensures Seeds(accounts + [a]) == Seeds(accounts) + [Budgeted(a.id, a.daily)]
  {
  }

  /** What one more auction does to the books. */
  lemma BooksGrow(cfg: Settings, x: Exchange, h: seq<Market>, id: string)
    requires h != [] && IsRun(x, h)
    ensures IsRun(x, h[..|h| - 1])
    ensures var o, was, c := OutcomeAt(cfg, x, h, |h| - 1), Wallet(Books(cfg, x, h[..|h| - 1]), id),
      Wallet(Books(cfg, x, h), id);
            if PaidBy(x, o, id)
            then c.won == was.won + 1 && c.spend == was.spend + o.bid
                 && c.budget == After(cfg, x, h).accounts[o.winner.value].budget
            else c.won == was.won && c.spend == was.spend && c.budget == was.budget
  {
    hide AfterAuction, OutcomeOf, RecordOf, AfterRecord, Wallet, OneWinner;
    var front, m := h[..|h| - 1], h[|h| - 1];
    assert Fits(x, m);
    var y := After(cfg, x, front);
    RecordIsFaithful(cfg, y, m);
    var a, o := RecordOf(cfg, y, m), OutcomeOf(cfg, y, m);
    WalletAfterRecord(Books(cfg, x, front), a, o.winner, id);
    if o.winner.Some? {
      CompaniesKeepTheirNames(cfg, x, front, o.winner.value);
    }
    RecordsGrow(cfg, x, h);
  }

  lemma RecordsGrow(cfg: Settings, x: Exchange, h: seq<Market>)
    requires h != [] && IsRun(x, h)
    ensures IsRun(x, h[..|h| - 1]) && Fits(After(cfg, x, h[..|h| - 1]), h[|h| - 1])
    ensures Books(cfg, x, h)
         == AfterRecord(Books(cfg, x, h[..|h| - 1]), RecordOf(cfg, After(cfg, x, h[..|h| - 1]), h[|h| - 1]))
  {
    hide RecordOf, AfterRecord, After, Recorded, Log, Shaped;
    var front, m := h[..|h| - 1], h[|h| - 1];
    assert Fits(x, m);
    var a := RecordOf(cfg, After(cfg, x, front), m);
    LogGrows(x.accounts, Records(cfg, x, front), a);
    HistoryGrows(Log(x.accounts, Records(cfg, x, front)), Held(a));
  }

  lemma {:induction false} BooksHoldTheDebits(cfg: Settings, x: Exchange, h: seq<Market>, id: string)
    requires IsRun(x, h)
    ensures var c := Wallet(Books(cfg, x, h), id);
            c.won == WinsOf(cfg, x, h, id) && c.spend == Debits(cfg, x, h, id)
  {
    hide Wallet, OutcomeAt, After, BudgetOf, Log, Recorded;
    if h == [] {
      NothingSpentAtFirst(x.accounts, id);
      LogStarts(x.accounts);
    } else {
      BooksGrow(cfg, x, h, id);
      BooksHoldTheDebits(cfg, x, h[..|h| - 1], id);
      hide Books;
    }
  }

  lemma {:induction false} RunsAreSettled(cfg: Settings, x: Exchange, h: seq<Market>)
    requires IsRun(x, h)
    ensures Settled(Entries(Records(cfg, x, h)), cfg.value)
  {
    hide RecordOf, After;
    if h != [] {
      var front, m := h[..|h| - 1], h[|h| - 1];
      RunsAreSettled(cfg, x, front);
      assert Fits(x, m);
      RecordIsFaithful(cfg, After(cfg, x, front), m);
      assert Records(cfg, x, h)[..|h| - 1] == Records(cfg, x, front);
    }
  }

  lemma WalletBalances(accounts: seq<Account>, records: seq<Auction>, id: string, value: real)
    requires Settled(Entries(records), value)
    ensures var c := Wallet(Recorded(Log(accounts, records)), id);
            c.bids == c.won + c.lost && c.profit + c.spend == Worth(value, c.won)
  {
    hide Recorded, Entries, Settled, Worth, Log, AuctionsIn;
    OneMoreShare(value, 0);
    AuctionsOfARun(accounts, records);
    if id in Recorded(Log(accounts, records)).companies {
      BooksBalance(Log(accounts, records), id, value);
    }
  }

  // ---------- whole runs: bids and failures ----------

  /** How many of the auctions company `i` was asked in, and answered or failed to. */
  function AskedCount(cfg: Settings, x: Exchange, h: seq<Market>, i: nat, answered: bool): nat
    requires IsRun(x, h) && i < |x.accounts|
  {
    if h == [] then 0
    else
      assert Fits(x, h[|h| - 1]);
      AskedCount(cfg, x, h[..|h| - 1], i, answered)
        + if !After(cfg, x, h).accounts[i].paced && h[|h| - 1].calls[i].answer.Some? == answered then 1 else 0
  }

  /** The effect on a company's counts of the first `n` entries of an auction, of which one is its own. */
  lemma {:induction false} CountsAfterEntries(s: State, es: seq<Entry>, i: nat, n: nat)
    requires Shaped(s) && i < |es| && n <= |es|
    requires forall j :: 0 <= j < |es| && j != i ==> es[j].id != es[i].id
    ensures var was, c := Wallet(s, es[i].id), Wallet(FoldEntries(s, es[..n]), es[i].id);
            && c.bids == was.bids + (if i < n && es[i].ok && !es[i].paced then 1 else 0)
            && c.noBid == was.noBid + if i < n && !es[i].ok && !es[i].paced then 1 else 0
  {
    hide FoldEntry, Wallet, Shaped;
    if n > 0 {
      CountsAfterEntries(s, es, i, n - 1);
      assert es[..n][..n - 1] == es[..n - 1];
      WalletAfterEntry(FoldEntries(s, es[..n - 1]), es[n - 1], es[i].id);
    }
  }

  lemma CountsAfterRecord(s: State, a: Auction, i: nat)
    requires Shaped(s) && i < |a.entries|
    requires forall j :: 0 <= j < |a.entries| && j != i ==> a.entries[j].id != a.entries[i].id
    ensures var e := a.entries[i]; var was, c := Wallet(s, e.id), Wallet(AfterRecord(s, a), e.id);
            && c.bids == was.bids + (if e.ok && !e.paced then 1 else 0)
            && c.noBid == was.noBid + if !e.ok && !e.paced then 1 else 0
  {
    hide FoldEntries, Shaped;
    var t := AfterMarket(s, a);
    CountsAfterEntries(t, a.entries, i, |a.entries|);
    assert a.entries[..|a.entries|] == a.entries;
    assert Wallet(t, a.entries[i].id) == Wallet(s, a.entries[i].id);
  }

  lemma EntryCounts(cfg: Settings, x: Exchange, m: Market, i: nat)
    requires Fits(x, m) && i < |x.accounts|
    ensures |RecordOf(cfg, x, m).entries| == |x.accounts|
    ensures var e, paced := RecordOf(cfg, x, m).entries[i], AfterAuction(cfg, x, m).accounts[i].paced;
            && (e.ok && !e.paced <==> !paced && m.calls[i].answer.Some?)
            && (!e.ok && !e.paced <==> !paced && m.calls[i].answer.None?)
            && e.id == x.accounts[i].id
  {
    EntriesTellTheCalls(cfg, x, m, i);
    hide RecordOf, AfterAuction, OutcomeOf;
  }

  /** The store's bids of a company are the auctions it was asked in and answered, its failures those it was asked in
      and did not answer; an auction it sat out counts as neither. */
  lemma {:induction false} StoreCountsBidsAndFailures(cfg: Settings, x: Exchange, h: seq<Market>, i: nat)
    requires IsRun(x, h) && DistinctNames(x) && i < |x.accounts|
    ensures var c := Wallet(Books(cfg, x, h), x.accounts[i].id);
            c.bids == AskedCount(cfg, x, h, i, true) && c.noBid == AskedCount(cfg, x, h, i, false)
  {
    hide Wallet, Books, RecordOf, AfterRecord, AfterAuction, BudgetOf, Shaped;
    if h == [] {
      NothingSpentAtFirst(x.accounts, x.accounts[i].id);
      LogStarts(x.accounts);
      BooksStart(cfg, x);
    } else {
      var front, m := h[..|h| - 1], h[|h| - 1];
      StoreCountsBidsAndFailures(cfg, x, front, i);
      RecordsGrow(cfg, x, h);
      var y := After(cfg, x, front);
      forall j | 0 <= j < |x.accounts|
        ensures |RecordOf(cfg, y, m).entries| == |x.accounts|
        ensures RecordOf(cfg, y, m).entries[j].id == x.accounts[j].id
      {
        EntryCounts(cfg, y, m, j);
        CompaniesKeepTheirNames(cfg, x, front, j);
      }
      EntryCounts(cfg, y, m, i);
      CountsAfterRecord(Books(cfg, x, front), RecordOf(cfg, y, m), i);
    }
  }

  lemma BooksStart(cfg: Settings, x: Exchange)
    ensures IsRun(x, []) && Books(cfg, x, []) == Recorded(Log(x.accounts, []))
  {
    hide Recorded, Log;
  }

  /** Engine and store agree on money and counts over any run: for every name, the store's wins and spend are the
      engine's debits; its bids are wins and losses; its profit and spend share out the value of its wins; and every
      auction is in the clearing histogram. */
  lemma EngineAndStoreAgree(cfg: Settings, x: Exchange, h: seq<Market>, id: string)
    requires IsRun(x, h)
    ensures var s := Books(cfg, x, h); var c := Wallet(s, id);
            && c.won == WinsOf(cfg, x, h, id) && c.spend == Debits(cfg, x, h, id)
            && c.bids == c.won + c.lost && c.profit + c.spend == Worth(cfg.value, c.won)
            && Tallies.Count(s.clearingHist) == s.auctions == |h|
  {
    hide Records, Recorded, AuctionsIn, Entries, WinsOf, Debits, Log, Wallet, Settled, Worth, Tallies.Count;
    BooksHoldTheDebits(cfg, x, h, id);
    RunsAreSettled(cfg, x, h);
    AuctionsOfARun(x.accounts, Records(cfg, x, h));
    HistogramsCountEverything(Log(x.accounts, Records(cfg, x, h)));
    WalletBalances(x.accounts, Records(cfg, x, h), id, cfg.value);
  }

  // ---------- whole runs: one company among distinct names ----------

  lemma {:induction false} OwnDebits(cfg: Settings, x: Exchange, h: seq<Market>, i: nat)
    requires IsRun(x, h) && DistinctNames(x) && i < |x.accounts|
    ensures Debits(cfg, x, h, x.accounts[i].id) == Spent(cfg, x, h, i, 0, |h|)
    ensures WinsOf(cfg, x, h, x.accounts[i].id) == WinCount(cfg, x, h, i, 0, |h|)
  {
    hide OutcomeOf, After;
    if h != [] {
      var front, m := h[..|h| - 1], h[|h| - 1];
      assert h == front + [m];
      OwnDebits(cfg, x, front, i);
      SpentBefore(cfg, x, front, [m], i, 0, |front|);
      WinCountBefore(cfg, x, front, m, i, 0, |front|);
    }
  }

  lemma {:induction false} WinCountBefore(cfg: Settings, x: Exchange, h: seq<Market>, m: Market, i: nat, lo: nat,
      hi: nat)
    requires IsRun(x, h + [m]) && lo <= hi <= |h|
    ensures IsRun(x, h)
    ensures WinCount(cfg, x, h + [m], i, lo, hi) == WinCount(cfg, x, h, i, lo, hi)
  {
    hide OutcomeOf, After, Fits;
    RunShortens(x, h, [m]);
    if lo < hi {
      WinCountBefore(cfg, x, h, m, i, lo, hi - 1);
      assert (h + [m])[..hi - 1] == h[..hi - 1];
    }
  }

  /** Money is spent exactly by winning. */
  lemma {:induction false} SpendingIsWinning(cfg: Settings, x: Exchange, h: seq<Market>, i: nat, lo: nat, hi: nat)
    requires IsRun(x, h) && lo <= hi <= |h| && i < |x.accounts|
    ensures Spent(cfg, x, h, i, lo, hi) >= 0.0
    ensures Spent(cfg, x, h, i, lo, hi) > 0.0 <==> WinCount(cfg, x, h, i, lo, hi) > 0
  {
    hide OutcomeOf, After;
    if lo < hi {
      SpendingIsWinning(cfg, x, h, i, lo, hi - 1);
      assert Fits(x, h[hi - 1]);
      CompanyInOneAuction(cfg, After(cfg, x, h[..hi - 1]), h[hi - 1], i);
      hide Renewed, AfterAuction, Benched;
    }
  }

  /** The store's budget against the engine's: it is refreshed by wins only. */
  ghost predicate BudgetShown(cfg: Settings, x: Exchange, h: seq<Market>, i: nat)
    requires IsRun(x, h) && i < |x.accounts|
  {
    var a, shown := After(cfg, x, h).accounts[i], Wallet(Books(cfg, x, h), x.accounts[i].id).budget;
    && (if WinCount(cfg, x, h, i, 0, |h|) == 0 then shown == a.daily else shown < a.daily)
    && (WinCount(cfg, x, h, i, DayStart(cfg, |h|), |h|) > 0 ==> shown == a.budget)
  }

  lemma WinCountGrows(cfg: Settings, x: Exchange, h: seq<Market>, m: Market, i: nat, lo: nat)
    requires IsRun(x, h + [m]) && lo <= |h|
    ensures IsRun(x, h)
    ensures WinCount(cfg, x, h + [m], i, lo, |h| + 1)
         == WinCount(cfg, x, h, i, lo, |h|) + if WonBy(cfg, x, h + [m], i, |h|) then 1 else 0
  {
    hide WonBy;
    WinCountBefore(cfg, x, h, m, i, lo, |h|);
  }

  lemma AuctionKeepsBudgetShown(cfg: Settings, x: Exchange, h: seq<Market>, m: Market, i: nat)
    requires Opening(x) && DistinctNames(x) && IsRun(x, h) && IsRun(x, h + [m]) && i < |x.accounts|
    requires BudgetShown(cfg, x, h, i)
    ensures BudgetShown(cfg, x, h + [m], i)
  {
    hide AfterAuction, OutcomeOf, DayStart, After, Fits, IsRun, Books, Wallet, Opening, Position, Spent, Benched;
    var g, n := h + [m], |h|;
    assert g[..|g| - 1] == h;
    RunGrows(cfg, x, h, m);
    NextDayStart(cfg, n);
    BooksGrow(cfg, x, g, x.accounts[i].id);
    BudgetIsTheDailyLessTodaysWins(cfg, x, g, i);
    SpendingIsWinning(cfg, x, g, i, DayStart(cfg, n + 1), n + 1);
    CompanyInOneAuction(cfg, After(cfg, x, h), m, i);
    CompaniesKeepTheirNames(cfg, x, h, i);
    WinCountGrows(cfg, x, h, m, i, 0);
    WinCountGrows(cfg, x, h, m, i, DayStart(cfg, n + 1));
    hide Renewed;
  }

  lemma {:induction false} EveryRunShowsBudgets(cfg: Settings, x: Exchange, h: seq<Market>, i: nat)
    requires Opening(x) && DistinctNames(x) && IsRun(x, h) && i < |x.accounts|
    ensures BudgetShown(cfg, x, h, i)
  {
    hide After, Spent, DayStart;
    if h == [] {
      NothingSpentAtFirst(x.accounts, x.accounts[i].id);
      SetBudgetIsTheDaily(x, i, |x.accounts|);
      CompaniesKeepTheirNames(cfg, x, h, i);
      assert x.accounts[..|x.accounts|] == x.accounts;
      LogStarts(x.accounts);
      hide BudgetOf, Log, Wallet, Recorded;
    } else {
      hide BudgetShown, WinCount;
      var front, m := h[..|h| - 1], h[|h| - 1];
      assert h == front + [m];
      RunShortens(x, front, [m]);
      EveryRunShowsBudgets(cfg, x, front, i);
      AuctionKeepsBudgetShown(cfg, x, front, m, i);
    }
  }

  lemma {:induction false} SetBudgetIsTheDaily(x: Exchange, i: nat, n: nat)
    requires DistinctNames(x) && i < n <= |x.accounts|
    ensures BudgetOf(x.accounts[..n], x.accounts[i].id) == x.accounts[i].daily
  {
    var some := x.accounts[..n];
    assert some[..n - 1] == x.accounts[..n - 1];
    if i < n - 1 {
      assert some[n - 1].id != x.accounts[i].id;
      SetBudgetIsTheDaily(x, i, n - 1);
    }
  }

  /** The store shows the engine's budget exactly while the company has never won or has won since the day began;
      otherwise the engine has renewed the budget and the store still shows what an earlier day left. */
  lemma StoreBudgetIsCurrentExactlyIf(cfg: Settings, x: Exchange, h: seq<Market>, i: nat)
    requires Opening(x) && DistinctNames(x) && IsRun(x, h) && i < |x.accounts|
    ensures var a, shown := After(cfg, x, h).accounts[i], Wallet(Books(cfg, x, h), x.accounts[i].id).budget;
            && (shown == a.budget <==>
                (WinCount(cfg, x, h, i, 0, |h|) == 0 || WinCount(cfg, x, h, i, DayStart(cfg, |h|), |h|) > 0))
            && (shown != a.budget ==> shown < a.budget == a.daily)
  {
    hide After, Spent, DayStart, Books, Wallet, WinCount, Opening;
    EveryRunShowsBudgets(cfg, x, h, i);
    BudgetIsTheDailyLessTodaysWins(cfg, x, h, i);
    SpendingIsWinning(cfg, x, h, i, DayStart(cfg, |h|), |h|);
    if WinCount(cfg, x, h, i, 0, |h|) == 0 {
      WinsAddUp(cfg, x, h, i, DayStart(cfg, |h|), |h|);
    }
  }

  /** A lone bidder starting a day wins exactly if its payable bid reaches every competitor's. */
  lemma LoneBidder(cfg: Settings, x: Exchange, m: Market, bid: Answer)
    requires cfg.dayAuctions == 1 && |x.accounts| == 1 && Fits(x, m) && m.calls[0].answer == Some(bid)
    requires 0.0 < bid.bid <= x.accounts[0].daily
    ensures OutcomeOf(cfg, x, m).winner
         == if forall j :: 0 <= j < |m.competitorBids| ==> m.competitorBids[j] <= bid.bid then Some(0) else None
  {
    var seated := Seated(cfg, x, m);
    NobodyIsBenchedAtDayStart(cfg, x.accounts[0], x.counter, m.draws[0]);
    WinnerIsTheFirstHighestPayableBid(seated, Results(seated, m.calls), m.competitorBids);
    hide Decide, Paced;
    assert Eligible(seated[0], Results(seated, m.calls)[0]);
  }

  lemma NobodyIsBenchedAtDayStart(cfg: Settings, a: Account, before: nat, draw: real)
    requires cfg.dayAuctions == 1
    ensures Paced(cfg, a, before, draw) == a.(budget := a.daily, paced := false)
  {
    TimesUnits(a.daily);
    OverUnits(1.0);
    hide Times, Over;
  }

  /** It does lag: with one auction a day, a company wins the first day's and loses the second day's to the market. */
  lemma StoreBudgetCanLag() returns (cfg: Settings, x: Exchange, h: seq<Market>)
    ensures Opening(x) && DistinctNames(x) && IsRun(x, h) && |x.accounts| == 1 && |h| == 2
    ensures Wallet(Books(cfg, x, h), x.accounts[0].id).budget < After(cfg, x, h).accounts[0].budget
  {
    cfg := Settings(1, 150.0, 100.0);
    x := Exchange(0, [Account("a", 100.0, 100.0, false)]);
    var answer := Answer(60.0, 0.5, 45.0, 1.0, false);
    var first := Market("day 1", [0.0], [Call(Some(answer), 1.0)], []);
    var second := Market("day 2", [0.0], [Call(Some(answer), 1.0)], [70.0]);
    h := [first, second];
    hide OutcomeOf, Books, Wallet, AfterAuction;
    assert IsRun(x, h) && h[..0] == [] && h[..1] == [first];
    var y := After(cfg, x, [first]);
    CompaniesKeepTheirNames(cfg, x, [first], 0);
    LoneBidder(cfg, x, first, answer);
    LoneBidder(cfg, y, second, answer);
    assert second.competitorBids[0] > 60.0;
    assert WonBy(cfg, x, h, 0, 0) && !WonBy(cfg, x, h, 0, 1);
    assert DayStart(cfg, 2) == 1;
    hide After, WonBy;
    StoreBudgetIsCurrentExactlyIf(cfg, x, h, 0);
  }

  lemma {:induction false} WinsAddUp(cfg: Settings, x: Exchange, h: seq<Market>, i: nat, mid: nat, hi: nat)
    requires IsRun(x, h) && mid <= hi <= |h|
    ensures WinCount(cfg, x, h, i, 0, hi) == WinCount(cfg, x, h, i, 0, mid) + WinCount(cfg, x, h, i, mid, hi)
  {
    hide WonBy, IsRun;
    if mid < hi {
      WinsAddUp(cfg, x, h, i, mid, hi - 1);
    }
  }

  /** So the store never shows a company spending more than its daily budget for every day begun. */
  lemma RecordedSpendIsBounded(cfg: Settings, x: Exchange, h: seq<Market>, i: nat)
    requires Opening(x) && DistinctNames(x) && IsRun(x, h) && i < |x.accounts|
    ensures Wallet(Books(cfg, x, h), x.accounts[i].id).spend <= Allowance(x.accounts[i], Days(cfg, |h|))
  {
    hide Wallet, Books, Allowance, Spent, Debits, Days;
    BooksHoldTheDebits(cfg, x, h, x.accounts[i].id);
    OwnDebits(cfg, x, h, i);
    TotalSpendIsBounded(cfg, x, h, i);
  }

  // ---------- replays ----------

  datatype Replay = Replay(requestId: string, calls: seq<Call>, clearing: real)

  function ReplayRecords(cfg: Settings, accounts: seq<Account>, rs: seq<Replay>): (r: seq<Auction>)
    requires forall k :: 0 <= k < |rs| ==> |rs[k].calls| == |accounts|
    ensures |r| == |rs|
  {
    if rs == [] then []
    else
      var last := rs[|rs| - 1];
      ReplayRecords(cfg, accounts, rs[..|rs| - 1])
        + [ReplayRecord(cfg, accounts, last.requestId, last.calls, last.clearing)]
  }

  /** In a backtest every company wins exactly when its positive bid reaches the recorded price, whoever else does. */
  lemma ReplayScoresEachAlone(cfg: Settings, accounts: seq<Account>, r: Replay)
    requires |r.calls| == |accounts|
    ensures var a := ReplayRecord(cfg, accounts, r.requestId, r.calls, r.clearing);
            && a.requestId == r.requestId && a.clearing == r.clearing && a.winner == "backtest"
            && a.competitorTop == 0.0 && a.competitorBids == []
    ensures var es := ReplayRecord(cfg, accounts, r.requestId, r.calls, r.clearing).entries;
            && |es| == |accounts| && Settled(es, cfg.value)
            && forall i :: 0 <= i < |es| ==>
                 es[i].id == accounts[i].id && Tells(es[i], r.calls[i])
                 && (es[i].won <==> r.calls[i].answer.Some? && es[i].bid > 0.0 && es[i].bid >= r.clearing)
                 && es[i].spend == (if es[i].won then es[i].bid else 0.0)
                 && es[i].profit == (if es[i].won then cfg.value - es[i].bid else 0.0)
                 && es[i].budget == if r.calls[i].answer.Some? then cfg.dailyBudget else 0.0
  {
  }

  lemma {:induction false} ReplaysAreSettled(cfg: Settings, accounts: seq<Account>, rs: seq<Replay>)
    requires forall k :: 0 <= k < |rs| ==> |rs[k].calls| == |accounts|
    ensures Settled(Entries(ReplayRecords(cfg, accounts, rs)), cfg.value)
  {
    hide ReplayRecord;
    if rs != [] {
      var front, r := rs[..|rs| - 1], rs[|rs| - 1];
      ReplaysAreSettled(cfg, accounts, front);
      ReplayScoresEachAlone(cfg, accounts, r);
      var records := ReplayRecords(cfg, accounts, rs);
      assert records[..|records| - 1] == ReplayRecords(cfg, accounts, front);
    }
  }

  /** However many companies win each replayed record, the store's profit and spend of each share out the engine-wide
      value of its wins. */
  lemma ReplayedBooksBalance(cfg: Settings, accounts: seq<Account>, rs: seq<Replay>, id: string)
    requires forall k :: 0 <= k < |rs| ==> |rs[k].calls| == |accounts|
    ensures var c := Wallet(Recorded(Log(accounts, ReplayRecords(cfg, accounts, rs))), id);
            c.bids == c.won + c.lost && c.profit + c.spend == Worth(cfg.value, c.won)
  {
    hide Wallet, Recorded, Log, ReplayRecords, Settled, Entries, Worth;
    ReplaysAreSettled(cfg, accounts, rs);
    WalletBalances(accounts, ReplayRecords(cfg, accounts, rs), id, cfg.value);
  }
}
