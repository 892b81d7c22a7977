/** The engine's own worked examples, evaluated on the model: a profitable
    round trip, a gain beside a loss on another asset, FIFO over two lots,
    a partial sale and a pure loss. Dates are the millisecond timestamps of
    2024-01-01, 2024-02-01 and 2024-03-01 at midnight UTC. */
module CalculatorScenarios {
  import opened Common
  import opened Validation
  import opened Config
  import opened Ledger
  import opened Calculator
  import StableSort

  const JAN_1: int := 1704067200000
  const FEB_1: int := 1706745600000
  const MAR_1: int := 1709251200000

  /** The configuration of the examples: current law, for fiscal year 2026-27. */
  const TEST_CONFIG := TaxConfig("2026-27", 0.30, 0.04, 0.01, false, false, "VDA")

  /** A manual entry with no fee. */
  function Entry(id: string, date: int, kind: Kind, asset: string, amount: real, totalInfo: real, price: real): Transaction {
    Transaction(id, date, kind, asset, amount, Some(price), totalInfo, 0.0, "Manual", None)
  }

  /** The loop's initial state. */
  const START := State(map[], [], 0.0)

  // ---------------------------------------------------------------------
  // Driving the loop over short lists
  // ---------------------------------------------------------------------

  lemma RunTwo(a: Transaction, b: Transaction)
    ensures Run([a, b]) == Step(Step(START, a), b)
  {
    assert [a, b][..1] == [a];
    assert [a][..0] == [];
    assert Run([]) == START;
    assert Run([a]) == Step(START, a);
  }

  lemma RunThree(a: Transaction, b: Transaction, c: Transaction)
    ensures Run([a, b, c]) == Step(Step(Step(START, a), b), c)
  {
    assert [a, b, c][..2] == [a, b];
    RunTwo(a, b);
  }

  lemma RunFour(a: Transaction, b: Transaction, c: Transaction, d: Transaction)
    ensures Run([a, b, c, d]) == Step(Step(Step(Step(START, a), b), c), d)
  {
    assert [a, b, c, d][..3] == [a, b, c];
    RunThree(a, b, c);
  }

  // Concatenations of short literal lists, stated once here so that the
  // scenario proofs below need not unfold them in a large context.

  lemma AfterNothing<T>(a: T)
    ensures [] + [a] == [a]
  {
  }

  lemma Pair<T>(a: T, b: T)
    ensures [a] + [b] == [a, b]
  {
  }

  lemma ConsTwo<T>(x: T, a: T, b: T)
    ensures [x] + [a, b] == [x, a, b]
  {
  }

  lemma ConsThree<T>(x: T, a: T, b: T, c: T)
    ensures [x] + [a, b, c] == [x, a, b, c]
  {
  }

  /** A purchase appends its lot to its asset's queue and changes nothing else. */
  lemma BuyStep(s: State, tx: Transaction)
    requires tx.kind == Buy
    ensures QueueOf(Step(s, tx).balances, tx.asset) == QueueOf(s.balances, tx.asset) + [LotOf(tx)]
    ensures forall a :: a != tx.asset ==> QueueOf(Step(s, tx).balances, a) == QueueOf(s.balances, a)
    ensures Step(s, tx).details == s.details && Step(s, tx).totalGains == s.totalGains
  {
  }

  /** The first purchase of an asset makes its queue that one lot. */
  lemma FirstBuy(tx: Transaction)
    requires tx.kind == Buy
    ensures QueueOf(Step(START, tx).balances, tx.asset) == [LotOf(tx)]
    ensures forall a :: a != tx.asset ==> QueueOf(Step(START, tx).balances, a) == []
    ensures Step(START, tx).details == [] && Step(START, tx).totalGains == 0.0
  {
    BuyStep(START, tx);
    AfterNothing(LotOf(tx));
  }

  /** A sale appends its line, charged what the queue yields, and adds its
      positive profit to the gains. */
  lemma SellStep(s: State, tx: Transaction)
    requires tx.kind == Sell
    ensures var line := SaleDetail(tx, Consume(QueueOf(s.balances, tx.asset), tx.amount).costBasis);
            && Step(s, tx).details == s.details + [line]
            && Step(s, tx).totalGains == s.totalGains + line.taxableAmount
  {
  }

  /** One purchase, then a sale of the same asset: a single line, charged
      what the purchased lot yields. */
  lemma BuyThenSell(b: Transaction, s: Transaction)
    requires b.kind == Buy && s.kind == Sell && b.asset == s.asset
    ensures var line := SaleDetail(s, Consume([LotOf(b)], s.amount).costBasis);
            Run([b, s]).details == [line] && Run([b, s]).totalGains == line.taxableAmount
  {
    RunTwo(b, s);
    FirstBuy(b);
    SellStep(Step(START, b), s);
    AfterNothing(SaleDetail(s, Consume([LotOf(b)], s.amount).costBasis));
  }

  /** Two purchases, then a sale, all of one asset: a single line, charged
      what the two lots, oldest first, yield. */
  lemma BuyBuySell(b1: Transaction, b2: Transaction, s: Transaction)
    requires b1.kind == Buy && b2.kind == Buy && s.kind == Sell
    requires b1.asset == b2.asset == s.asset
    ensures Run([b1, b2, s]).details == [SaleDetail(s, Consume([LotOf(b1), LotOf(b2)], s.amount).costBasis)]
  {
    RunThree(b1, b2, s);
    FirstBuy(b1);
    var s1 := Step(START, b1);
    BuyStep(s1, b2);
    var s2 := Step(s1, b2);
    Pair(LotOf(b1), LotOf(b2));
    SellStep(s2, s);
    AfterNothing(SaleDetail(s, Consume([LotOf(b1), LotOf(b2)], s.amount).costBasis));
  }

  /** Purchases of two different assets, then a sale of each: each sale is
      charged its own asset's lot, and the gains are the sum of the two
      taxable amounts. */
  lemma TwoRoundTrips(b1: Transaction, b2: Transaction, s1: Transaction, s2: Transaction)
    requires b1.kind == Buy && b2.kind == Buy && s1.kind == Sell && s2.kind == Sell
    requires b1.asset == s1.asset && b2.asset == s2.asset && b1.asset != b2.asset
    ensures Run([b1, b2, s1, s2]).totalGains
            == SaleDetail(s1, Consume([LotOf(b1)], s1.amount).costBasis).taxableAmount
               + SaleDetail(s2, Consume([LotOf(b2)], s2.amount).costBasis).taxableAmount
  {
    RunFour(b1, b2, s1, s2);
    FirstBuy(b1);
    var st1 := Step(START, b1);
    BuyStep(st1, b2);
    var st2 := Step(st1, b2);
    assert QueueOf(st2.balances, b1.asset) == [LotOf(b1)];
    AfterNothing(LotOf(b2));
    assert QueueOf(st2.balances, b2.asset) == [LotOf(b2)];
    SellStep(st2, s1);
    var st3 := Step(st2, s1);
    assert QueueOf(st3.balances, b2.asset) == [LotOf(b2)];
    SellStep(st3, s2);
  }

  // ---------------------------------------------------------------------
  // Sorting short lists
  // ---------------------------------------------------------------------

  /** Lists already in date order are left as they are. */
  lemma SortTwo(a: Transaction, b: Transaction)
    requires a.date <= b.date
    ensures SortByDate([a, b]) == [a, b]
  {
    StableSort.SortSortedIsIdentity([a, b], ByDate);
  }

  /** Sorting a list puts its head into the sorted rest. */
  lemma SortConsTwo(x: Transaction, a: Transaction, b: Transaction)
    ensures SortByDate([x, a, b]) == StableSort.Insert(x, SortByDate([a, b]), ByDate)
  {
    assert [x, a, b][1..] == [a, b];
  }

  lemma SortConsThree(x: Transaction, a: Transaction, b: Transaction, c: Transaction)
    ensures SortByDate([x, a, b, c]) == StableSort.Insert(x, SortByDate([a, b, c]), ByDate)
  {
    assert [x, a, b, c][1..] == [a, b, c];
  }

  /** An element no later than the head goes in front. */
  lemma InsertInFront(x: Transaction, s: seq<Transaction>)
    requires |s| > 0 && x.date <= s[0].date
    ensures StableSort.Insert(x, s, ByDate) == [x] + s
  {
  }

  /** An element later than the first and no later than the second goes
      between them. */
  lemma InsertBetween(x: Transaction, a: Transaction, b: Transaction)
    requires a.date < x.date <= b.date
    ensures StableSort.Insert(x, [a, b], ByDate) == [a, x, b]
  {
    assert [a, b][1..] == [b];
    StableSort.InsertFront(x, [b], ByDate);
    Pair(x, b);
    ConsTwo(a, x, b);
  }

  lemma SortThree(a: Transaction, b: Transaction, c: Transaction)
    requires a.date <= b.date <= c.date
    ensures SortByDate([a, b, c]) == [a, b, c]
  {
    SortTwo(b, c);
    SortConsTwo(a, b, c);
    InsertInFront(a, [b, c]);
    ConsTwo(a, b, c);
  }

  /** Two purchases on one day and two sales on a later day, interleaved:
      the stable sort puts both purchases first, then both sales, each pair
      in input order. */
  lemma SortInterleaved(b1: Transaction, s1: Transaction, b2: Transaction, s2: Transaction)
    requires b1.date == b2.date < s1.date == s2.date
    ensures SortByDate([b1, s1, b2, s2]) == [b1, b2, s1, s2]
  {
    SortTwo(b2, s2);
    SortConsTwo(s1, b2, s2);
    InsertBetween(s1, b2, s2);
    SortConsThree(b1, s1, b2, s2);
    InsertInFront(b1, [b2, s1, s2]);
    ConsThree(b1, b2, s1, s2);
  }

  // ---------------------------------------------------------------------
  // Reports
  // ---------------------------------------------------------------------

  /** The report is the totals of the run over the sorted list. */
  lemma ReportOfRun(txs: seq<Transaction>, sorted: seq<Transaction>, config: TaxConfig)
    requires SortByDate(txs) == sorted
    ensures ComputeTaxLiability(txs, config) == Totals(Run(sorted).totalGains, Run(sorted).details, config)
  {
  }

  /** Under the examples' configuration 50000 of gains owes 15000 tax, 600
      cess and 15600 in all. */
  lemma TotalsOf50000(ds: seq<Detail>)
    ensures var r := Totals(50000.0, ds, TEST_CONFIG);
            r.totalTax == 15000.0 && r.totalCess == 600.0 && r.finalTaxLiability == 15600.0
  {
    assert TotalsFollow(Totals(50000.0, ds, TEST_CONFIG), TEST_CONFIG);
  }

  lemma TotalsOfNothing(ds: seq<Detail>)
    ensures var r := Totals(0.0, ds, TEST_CONFIG);
            r.totalTax == 0.0 && r.totalCess == 0.0 && r.finalTaxLiability == 0.0
  {
    assert TotalsFollow(Totals(0.0, ds, TEST_CONFIG), TEST_CONFIG);
  }

  /** Selling a whole single lot charges its cost. */
  lemma SellWholeLot(lot: Lot)
    requires lot.quantity > 0.0
    ensures Consume([lot], lot.quantity).costBasis == lot.cost
  {
    OldestLotCovers([lot], lot.quantity);
  }

  // ---------------------------------------------------------------------
  // A profitable round trip
  // ---------------------------------------------------------------------

  const BUY_BTC := Entry("1", JAN_1, Buy, "BTC", 1.0, 100000.0, 100000.0)
  const SELL_BTC := Entry("2", FEB_1, Sell, "BTC", 1.0, 150000.0, 150000.0)

  lemma ProfitableRun()
    ensures Run([BUY_BTC, SELL_BTC]).totalGains == 50000.0
  {
    BuyThenSell(BUY_BTC, SELL_BTC);
    SellWholeLot(LotOf(BUY_BTC));
  }

  /** Bought at 100000 and sold at 150000: 50000 is taxed at 30% plus 4% cess. */
  lemma ProfitableTrade()
    ensures var r := ComputeTaxLiability([BUY_BTC, SELL_BTC], TEST_CONFIG);
            && r.totalGains == 50000.0 && r.totalTax == 15000.0
            && r.totalCess == 600.0 && r.finalTaxLiability == 15600.0
  {
    SortTwo(BUY_BTC, SELL_BTC);
    ReportOfRun([BUY_BTC, SELL_BTC], [BUY_BTC, SELL_BTC], TEST_CONFIG);
    ProfitableRun();
    TotalsOf50000(Run([BUY_BTC, SELL_BTC]).details);
  }

  // ---------------------------------------------------------------------
  // A gain beside a loss: the loss is not set off
  // ---------------------------------------------------------------------

  const BUY_ETH := Entry("3", JAN_1, Buy, "ETH", 10.0, 200000.0, 20000.0)
  const SELL_ETH := Entry("4", FEB_1, Sell, "ETH", 10.0, 150000.0, 15000.0)

  lemma GainAndLossRun()
    ensures Run([BUY_BTC, BUY_ETH, SELL_BTC, SELL_ETH]).totalGains == 50000.0
  {
    assert "BTC"[0] != "ETH"[0];
    TwoRoundTrips(BUY_BTC, BUY_ETH, SELL_BTC, SELL_ETH);
    SellWholeLot(LotOf(BUY_BTC));
    SellWholeLot(LotOf(BUY_ETH));
  }

  /** 50000 gained on BTC and 50000 lost on ETH: the net is nothing, but
      50000 is taxed. */
  lemma LossIsNotSetOff()
    ensures var r := ComputeTaxLiability([BUY_BTC, SELL_BTC, BUY_ETH, SELL_ETH], TEST_CONFIG);
            && r.totalGains == 50000.0
            && r.finalTaxLiability == 50000.0 * 0.30 + 50000.0 * 0.30 * 0.04
  {
    SortInterleaved(BUY_BTC, SELL_BTC, BUY_ETH, SELL_ETH);
    ReportOfRun([BUY_BTC, SELL_BTC, BUY_ETH, SELL_ETH], [BUY_BTC, BUY_ETH, SELL_BTC, SELL_ETH], TEST_CONFIG);
    GainAndLossRun();
    TotalsOf50000(Run([BUY_BTC, BUY_ETH, SELL_BTC, SELL_ETH]).details);
  }

  // ---------------------------------------------------------------------
  // FIFO over two lots
  // ---------------------------------------------------------------------

  const BUY_CHEAP := Entry("1", JAN_1, Buy, "BTC", 1.0, 10000.0, 10000.0)
  const BUY_DEAR := Entry("2", FEB_1, Buy, "BTC", 1.0, 20000.0, 20000.0)
  const SELL_ONE := Entry("3", MAR_1, Sell, "BTC", 1.0, 30000.0, 30000.0)

  lemma FifoRun()
    ensures var ds := Run([BUY_CHEAP, BUY_DEAR, SELL_ONE]).details;
            |ds| == 1 && ds[0].kind == Sell && ds[0].costBasis == 10000.0 && ds[0].profit == 20000.0
  {
    BuyBuySell(BUY_CHEAP, BUY_DEAR, SELL_ONE);
    OldestLotCovers([LotOf(BUY_CHEAP), LotOf(BUY_DEAR)], 1.0);
  }

  /** Two lots bought at 10000 and 20000, one sold at 30000: the sale is
      charged the older lot's 10000, not 20000 nor the average 15000. */
  lemma FifoCostBasis()
    ensures var ds := ComputeTaxLiability([BUY_CHEAP, BUY_DEAR, SELL_ONE], TEST_CONFIG).details;
            && |ds| == 1 && ds[0].kind == Sell
            && ds[0].costBasis == 10000.0 && ds[0].profit == 20000.0
  {
    SortThree(BUY_CHEAP, BUY_DEAR, SELL_ONE);
    ReportOfRun([BUY_CHEAP, BUY_DEAR, SELL_ONE], [BUY_CHEAP, BUY_DEAR, SELL_ONE], TEST_CONFIG);
    FifoRun();
  }

  // ---------------------------------------------------------------------
  // A partial sale
  // ---------------------------------------------------------------------

  const BUY_TWO := Entry("1", JAN_1, Buy, "BTC", 2.0, 100000.0, 50000.0)
  const SELL_HALF := Entry("2", FEB_1, Sell, "BTC", 1.0, 60000.0, 60000.0)

  lemma PartialRun()
    ensures var ds := Run([BUY_TWO, SELL_HALF]).details;
            |ds| == 1 && ds[0].costBasis == 50000.0 && ds[0].profit == 10000.0
  {
    BuyThenSell(BUY_TWO, SELL_HALF);
    OldestLotCovers([LotOf(BUY_TWO)], 1.0);
    assert 100000.0 * (1.0 / 2.0) == 50000.0;
  }

  /** Half of a lot of 2 that cost 100000 is sold at 60000: the cost basis
      is 50000 and the profit 10000. */
  lemma PartialSale()
    ensures var ds := ComputeTaxLiability([BUY_TWO, SELL_HALF], TEST_CONFIG).details;
            |ds| == 1 && ds[0].costBasis == 50000.0 && ds[0].profit == 10000.0
  {
    SortTwo(BUY_TWO, SELL_HALF);
    ReportOfRun([BUY_TWO, SELL_HALF], [BUY_TWO, SELL_HALF], TEST_CONFIG);
    PartialRun();
  }

  // ---------------------------------------------------------------------
  // A pure loss
  // ---------------------------------------------------------------------

  const BUY_DOGE := Entry("1", JAN_1, Buy, "DOGE", 1000.0, 10000.0, 10.0)
  const SELL_DOGE := Entry("2", FEB_1, Sell, "DOGE", 1000.0, 5000.0, 5.0)

  lemma PureLossRun()
    ensures var final := Run([BUY_DOGE, SELL_DOGE]);
            && |final.details| == 1 && final.details[0].taxableAmount == 0.0
            && final.details[0].profit == -5000.0 && final.totalGains == 0.0
  {
    BuyThenSell(BUY_DOGE, SELL_DOGE);
    SellWholeLot(LotOf(BUY_DOGE));
  }

  /** Bought at 10000 and sold at 5000: no gains, no liability, and the
      line's taxable amount is 0 despite a profit of -5000. */
  lemma PureLoss()
    ensures var r := ComputeTaxLiability([BUY_DOGE, SELL_DOGE], TEST_CONFIG);
            && r.totalGains == 0.0 && r.finalTaxLiability == 0.0
            && |r.details| == 1 && r.details[0].taxableAmount == 0.0
  {
    SortTwo(BUY_DOGE, SELL_DOGE);
    ReportOfRun([BUY_DOGE, SELL_DOGE], [BUY_DOGE, SELL_DOGE], TEST_CONFIG);
    PureLossRun();
    TotalsOfNothing(Run([BUY_DOGE, SELL_DOGE]).details);
  }
}
