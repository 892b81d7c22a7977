/** Properties of the tax engine over whole transaction lists: cost
    conservation per asset, FIFO cost bases, isolation of assets, the
    no-set-off rule, line order and the dependence of the totals on the
    configuration. */
module EngineProperties {
  import opened Common
  import opened Validation
  import opened Config
  import opened Ledger
  import opened ReasoningEngine
  import opened Calculator
  import StableSort

  /** Appending one transaction to the list runs one more step. */
  lemma RunAppend(txs: seq<Transaction>, tx: Transaction)
    ensures Run(txs + [tx]) == Step(Run(txs), tx)
  {
    assert (txs + [tx])[..|txs|] == txs;
  }

  // ---------------------------------------------------------------------
  // Report lines
  // ---------------------------------------------------------------------

  /** On a sale line the audit narrative agrees with the taxable amount: the
      line is classified taxable exactly when something is taxed, and a loss
      that is ignored is taxed at nothing. */
  lemma SaleReasoningAgrees(d: Detail)
    requires SaleLine(d)
    ensures d.reasoning.logType == Taxable <==> d.taxableAmount > 0.0
    ensures d.reasoning.logType == LossIgnored ==> d.taxableAmount == 0.0 && d.profit < 0.0
    ensures d.reasoning.logType != TdsApplicable
    ensures d.taxableAmount >= 0.0
  {
  }

  /** Every sale line of every report has a narrative that agrees with its
      taxable amount. */
  lemma ReportReasoningAgrees(txs: seq<Transaction>, config: TaxConfig)
    ensures var ds := ComputeTaxLiability(txs, config).details;
            forall i :: 0 <= i < |ds| && ds[i].kind == Sell ==>
              && (ds[i].reasoning.logType == Taxable <==> ds[i].taxableAmount > 0.0)
              && (ds[i].reasoning.logType == LossIgnored ==> ds[i].taxableAmount == 0.0)
  {
    var ds := ComputeTaxLiability(txs, config).details;
    ReportLines(txs, config);
    forall i | 0 <= i < |ds| && ds[i].kind == Sell
      ensures && (ds[i].reasoning.logType == Taxable <==> ds[i].taxableAmount > 0.0)
              && (ds[i].reasoning.logType == LossIgnored ==> ds[i].taxableAmount == 0.0)
    {
      assert LineOk(ds[i]);
      SaleReasoningAgrees(ds[i]);
    }
  }

  /** The number of realizing transactions, counted either way. */
  lemma {:induction false} RealizedCount(txs: seq<Transaction>)
    ensures |Realized(txs)| == StableSort.Count(txs, Realizes)
    decreases |txs|
  {
    if |txs| > 0 {
      var p := txs[..|txs| - 1];
      RealizedCount(p);
      assert txs == p + [txs[|txs| - 1]];
      StableSort.CountConcat(p, [txs[|txs| - 1]], Realizes);
    }
  }

  /** The realizing transactions of a date-sorted list are date-sorted. */
  lemma {:induction false} RealizedSorted(txs: seq<Transaction>)
    requires StableSort.SortedBy(txs, ByDate)
    ensures StableSort.SortedBy(Realized(txs), ByDate)
    decreases |txs|
  {
    if |txs| > 0 {
      var p := txs[..|txs| - 1];
      var last := txs[|txs| - 1];
      assert StableSort.SortedBy(p, ByDate);
      RealizedSorted(p);
      var rp := Realized(p);
      if Realizes(last) {
        var r := rp + [last];
        forall x | x in rp ensures x.date <= last.date {
          var j :| 0 <= j < |p| && p[j] == x;
          assert txs[j] == x;
        }
        forall i, j | 0 <= i < j < |r| ensures r[i].date <= r[j].date {
          if j == |r| - 1 {
            assert r[i] in rp;
          } else {
            assert r[i] == rp[i] && r[j] == rp[j];
          }
        }
      }
    }
  }

  /** The report has exactly one line per sale and per income, each naming
      its transaction, in ascending date order with ties in input order (the
      order of the stable sort). */
  lemma OneLinePerRealizingTransaction(txs: seq<Transaction>, config: TaxConfig)
    ensures var r := ComputeTaxLiability(txs, config);
            && |r.details| == StableSort.Count(txs, Realizes)
            && (forall i :: 0 <= i < |r.details| ==> LineFor(r.details[i], Realized(SortByDate(txs))[i]))
            && (forall i, j :: 0 <= i < j < |r.details| ==> r.details[i].date <= r.details[j].date)
  {
    var sorted := SortByDate(txs);
    var ds := ComputeTaxLiability(txs, config).details;
    var rs := Realized(sorted);
    ReportLines(txs, config);
    RealizedCount(sorted);
    StableSort.SortPreservesCount(txs, ByDate, Realizes);
    RealizedSorted(sorted);
    forall i, j | 0 <= i < j < |ds| ensures ds[i].date <= ds[j].date {
      assert LineFor(ds[i], rs[i]) && LineFor(ds[j], rs[j]);
    }
  }

  // ---------------------------------------------------------------------
  // Gains and the no-set-off rule
  // ---------------------------------------------------------------------

  predicate IncomeNonNegative(txs: seq<Transaction>) {
    forall tx :: tx in txs && tx.kind == Income ==> tx.totalInfo >= 0.0
  }

  /** One step never lowers the gains unless it is a negative income. */
  lemma StepGainsGrow(s: State, tx: Transaction)
    requires tx.kind == Income ==> tx.totalInfo >= 0.0
    ensures Step(s, tx).totalGains >= s.totalGains
  {
    if Realizes(tx) {
      var d := LineOf(QueueOf(s.balances, tx.asset), tx);
      assert SaleLine(d) || IncomeLine(d);
    }
  }

  /** A prefix of a list with non-negative income has non-negative income. */
  lemma PrefixIncomeNonNegative(txs: seq<Transaction>, n: nat)
    requires n <= |txs| && IncomeNonNegative(txs)
    ensures IncomeNonNegative(txs[..n])
  {
    forall tx | tx in txs[..n] ensures tx in txs {
    }
  }

  /** The last step of a run with non-negative income never lowers the gains. */
  lemma LastStepGainsGrow(txs: seq<Transaction>)
    requires |txs| > 0 && IncomeNonNegative(txs)
    ensures Run(txs[..|txs| - 1]).totalGains <= Run(txs).totalGains
  {
    var p := txs[..|txs| - 1];
    var tx := txs[|txs| - 1];
    assert tx in txs;
    assert Run(txs) == Step(Run(p), tx);
    StepGainsGrow(Run(p), tx);
  }

  /** With non-negative income the gains are never negative. */
  lemma {:induction false} GainsNonNegative(txs: seq<Transaction>)
    requires IncomeNonNegative(txs)
    ensures Run(txs).totalGains >= 0.0
    decreases |txs|
  {
    if |txs| > 0 {
      PrefixIncomeNonNegative(txs, |txs| - 1);
      GainsNonNegative(txs[..|txs| - 1]);
      LastStepGainsGrow(txs);
    }
  }

  /** With non-negative income, total gains never decrease along the list:
      in particular a losing sale cannot pull them down. */
  lemma {:induction false} GainsGrow(txs: seq<Transaction>, n: nat)
    requires n <= |txs|
    requires IncomeNonNegative(txs)
    ensures 0.0 <= Run(txs[..n]).totalGains <= Run(txs).totalGains
    decreases |txs|
  {
    PrefixIncomeNonNegative(txs, n);
    GainsNonNegative(txs[..n]);
    if n < |txs| {
      var p := txs[..|txs| - 1];
      PrefixIncomeNonNegative(txs, |txs| - 1);
      assert txs[..n] == p[..n];
      GainsGrow(p, n);
      LastStepGainsGrow(txs);
    } else {
      assert txs[..n] == txs;
    }
  }

  /** One sale adds exactly its positive profit over the cost basis its
      queue yields; a sale at a loss or break-even leaves the gains where they
      were, whatever other sales gained: losses are never set off. */
  lemma SaleGain(s: State, tx: Transaction)
    requires tx.kind == Sell
    ensures var costBasis := Consume(QueueOf(s.balances, tx.asset), tx.amount).costBasis;
            && Step(s, tx).totalGains == s.totalGains + Max(tx.totalInfo - costBasis, 0.0)
            && (tx.totalInfo <= costBasis ==> Step(s, tx).totalGains == s.totalGains)
  {
    var line := LineOf(QueueOf(s.balances, tx.asset), tx);
    assert SaleLine(line);
  }

  /** A transfer changes neither the lines, nor the gains, nor any queue. */
  lemma TransferIsNoOp(txs: seq<Transaction>, tx: Transaction, a: string)
    requires tx.kind == Transfer
    ensures Run(txs + [tx]).details == Run(txs).details
    ensures Run(txs + [tx]).totalGains == Run(txs).totalGains
    ensures QueueOf(Run(txs + [tx]).balances, a) == QueueOf(Run(txs).balances, a)
  {
    RunAppend(txs, tx);
  }

  /** A purchase adds a lot at the back of its asset's queue and no line. */
  lemma BuyAppendsLot(txs: seq<Transaction>, tx: Transaction)
    requires tx.kind == Buy
    ensures QueueOf(Run(txs + [tx]).balances, tx.asset)
            == QueueOf(Run(txs).balances, tx.asset) + [Lot(tx.amount, tx.totalInfo, tx.date)]
    ensures Run(txs + [tx]).details == Run(txs).details
  {
    RunAppend(txs, tx);
  }

  /** Income adds a lot costed at its value, and a line taxing that value in
      full with no cost basis. */
  lemma IncomeAppendsLotAndLine(txs: seq<Transaction>, tx: Transaction)
    requires tx.kind == Income
    ensures QueueOf(Run(txs + [tx]).balances, tx.asset)
            == QueueOf(Run(txs).balances, tx.asset) + [Lot(tx.amount, tx.totalInfo, tx.date)]
    ensures Run(txs + [tx]).details == Run(txs).details + [IncomeDetail(tx)]
    ensures Run(txs + [tx]).totalGains == Run(txs).totalGains + tx.totalInfo
  {
    RunAppend(txs, tx);
  }

  // ---------------------------------------------------------------------
  // The ledger across the run
  // ---------------------------------------------------------------------

  /** Appending a lot adds its cost and quantity to the queue's totals. */
  lemma {:induction false} QueueAppend(q: seq<Lot>, lot: Lot)
    ensures QueueCost(q + [lot]) == QueueCost(q) + lot.cost
    ensures QueueQuantity(q + [lot]) == QueueQuantity(q) + lot.quantity
    decreases |q|
  {
    if |q| > 0 {
      assert (q + [lot])[1..] == q[1..] + [lot];
      QueueAppend(q[1..], lot);
    } else {
      assert q + [lot] == [lot];
    }
  }

  predicate AmountsNonNegative(txs: seq<Transaction>) {
    forall tx :: tx in txs ==> tx.amount >= 0.0
  }

  /** A step with a non-negative amount keeps every lot of every queue at a
      non-negative quantity. */
  lemma StepKeepsNonNegative(s: State, tx: Transaction, a: string)
    requires tx.amount >= 0.0
    requires NonNegativeQuantities(QueueOf(s.balances, a))
    ensures NonNegativeQuantities(QueueOf(Step(s, tx).balances, a))
  {
    StepQueue(s, tx, a);
    if tx.asset == a && tx.kind == Sell {
      ConsumeKeepsNonNegative(QueueOf(s.balances, a), tx.amount);
    }
  }

  /** With non-negative amounts no lot ever holds a negative quantity. */
  lemma {:induction false} LedgerNonNegative(txs: seq<Transaction>, a: string)
    requires AmountsNonNegative(txs)
    ensures NonNegativeQuantities(QueueOf(Run(txs).balances, a))
    decreases |txs|
  {
    if |txs| > 0 {
      var p := txs[..|txs| - 1];
      var tx := txs[|txs| - 1];
      assert AmountsNonNegative(p);
      assert tx in txs;
      LedgerNonNegative(p, a);
      assert Run(txs) == Step(Run(p), tx);
      StepKeepsNonNegative(Run(p), tx, a);
    }
  }

  /** Each sale's line carries the FIFO cost basis of its asset's queue just
      before the sale. */
  lemma SaleChargesFifoCost(txs: seq<Transaction>, tx: Transaction)
    requires tx.kind == Sell
    requires AmountsNonNegative(txs)
    ensures Run(txs + [tx]).details
            == Run(txs).details + [SaleDetail(tx, FifoCost(QueueOf(Run(txs).balances, tx.asset), tx.amount))]
  {
    RunAppend(txs, tx);
    LedgerNonNegative(txs, tx.asset);
    ConsumeIsFifo(QueueOf(Run(txs).balances, tx.asset), tx.amount);
  }

  /** What was paid for the lots of asset `a` among `txs`. */
  function AcquiredCost(txs: seq<Transaction>, a: string): real {
    if |txs| == 0 then 0.0
    else
      var tx := txs[|txs| - 1];
      AcquiredCost(txs[..|txs| - 1], a)
      + (if tx.asset == a && (tx.kind == Buy || tx.kind == Income) then tx.totalInfo else 0.0)
  }

  /** The cost basis charged to sales of asset `a` among the lines `ds`. */
  function DisposedCost(ds: seq<Detail>, a: string): real {
    if |ds| == 0 then 0.0
    else
      var d := ds[|ds| - 1];
      DisposedCost(ds[..|ds| - 1], a) + (if d.asset == a && d.kind == Sell then d.costBasis else 0.0)
  }

  lemma DisposedCostAppend(ds: seq<Detail>, d: Detail, a: string)
    ensures DisposedCost(ds + [d], a)
            == DisposedCost(ds, a) + (if d.asset == a && d.kind == Sell then d.costBasis else 0.0)
  {
    assert (ds + [d])[..|ds|] == ds;
  }

  /** What one step adds to an asset's cost: a purchase or income of that
      asset adds what was paid, and anything else moves cost between the
      queue and the sale lines without changing the sum. */
  lemma StepConservesCost(s: State, tx: Transaction, a: string)
    ensures QueueCost(QueueOf(Step(s, tx).balances, a)) + DisposedCost(Step(s, tx).details, a)
            == QueueCost(QueueOf(s.balances, a)) + DisposedCost(s.details, a)
               + (if tx.asset == a && (tx.kind == Buy || tx.kind == Income) then tx.totalInfo else 0.0)
  {
    var q := QueueOf(s.balances, a);
    StepQueue(s, tx, a);
    if Realizes(tx) {
      DisposedCostAppend(s.details, LineOf(QueueOf(s.balances, tx.asset), tx), a);
    }
    if tx.asset == a && (tx.kind == Buy || tx.kind == Income) {
      QueueAppend(q, LotOf(tx));
    }
  }

  /** Cost is conserved per asset: what is left in the queue plus what sales
      were charged is what was paid for the asset's purchases and income. */
  lemma {:induction false} CostConservation(txs: seq<Transaction>, a: string)
    ensures QueueCost(QueueOf(Run(txs).balances, a)) + DisposedCost(Run(txs).details, a) == AcquiredCost(txs, a)
    decreases |txs|
  {
    if |txs| > 0 {
      var p := txs[..|txs| - 1];
      var tx := txs[|txs| - 1];
      CostConservation(p, a);
      assert Run(txs) == Step(Run(p), tx);
      StepConservesCost(Run(p), tx, a);
    }
  }

  /** The transactions of asset `a`, in order. */
  function OfAsset(txs: seq<Transaction>, a: string): seq<Transaction> {
    if |txs| == 0 then []
    else
      var tx := txs[|txs| - 1];
      OfAsset(txs[..|txs| - 1], a) + (if tx.asset == a then [tx] else [])
  }

  /** One step touches only its own asset's queue. */
  lemma StepQueue(s: State, tx: Transaction, a: string)
    ensures QueueOf(Step(s, tx).balances, a)
            == if tx.asset == a then QueueAfter(QueueOf(s.balances, a), tx) else QueueOf(s.balances, a)
  {
  }

  /** An asset's queue is determined by that asset's transactions alone. */
  lemma {:induction false} QueueDependsOnlyOnOwnAsset(txs: seq<Transaction>, a: string)
    ensures QueueOf(Run(txs).balances, a) == QueueOf(Run(OfAsset(txs, a)).balances, a)
    decreases |txs|
  {
    if |txs| > 0 {
      var p := txs[..|txs| - 1];
      var tx := txs[|txs| - 1];
      var mine := OfAsset(p, a);
      QueueDependsOnlyOnOwnAsset(p, a);
      assert Run(txs) == Step(Run(p), tx);
      StepQueue(Run(p), tx, a);
      if tx.asset == a {
        assert OfAsset(txs, a) == mine + [tx];
        RunAppend(mine, tx);
        StepQueue(Run(mine), tx, a);
      } else {
        assert OfAsset(txs, a) == mine;
      }
    }
  }

  // ---------------------------------------------------------------------
  // Totals and the configuration
  // ---------------------------------------------------------------------

  lemma TotalsDependOnRateAndCess(gains: real, ds: seq<Detail>, c1: TaxConfig, c2: TaxConfig)
    requires c1.taxRate == c2.taxRate && c1.cess == c2.cess
    ensures Totals(gains, ds, c1) == Totals(gains, ds, c2)
  {
  }

  /** The engine reads only the rate and the cess of its configuration: loss
      set-off, carry-forward, TDS and the fiscal year change nothing. */
  lemma OnlyRateAndCessMatter(txs: seq<Transaction>, c1: TaxConfig, c2: TaxConfig)
    requires c1.taxRate == c2.taxRate && c1.cess == c2.cess
    ensures ComputeTaxLiability(txs, c1) == ComputeTaxLiability(txs, c2)
  {
    var s := Run(SortByDate(txs));
    TotalsDependOnRateAndCess(s.totalGains, s.details, c1, c2);
  }

  lemma SortedIncomeNonNegative(txs: seq<Transaction>)
    requires IncomeNonNegative(txs)
    ensures IncomeNonNegative(SortByDate(txs))
  {
    var sorted := SortByDate(txs);
    forall tx | tx in sorted
      ensures tx in txs
    {
      assert tx in multiset(sorted);
    }
  }

  /** With non-negative income the total gains, and so the tax, cess and
      liability for non-negative rates, are non-negative. */
  lemma ReportNonNegative(txs: seq<Transaction>, config: TaxConfig)
    requires IncomeNonNegative(txs)
    requires config.taxRate >= 0.0 && config.cess >= 0.0
    ensures var r := ComputeTaxLiability(txs, config);
            r.totalGains >= 0.0 && r.totalTax >= 0.0 && r.totalCess >= 0.0 && r.finalTaxLiability >= 0.0
  {
    var sorted := SortByDate(txs);
    SortedIncomeNonNegative(txs);
    GainsNonNegative(sorted);
    var s := Run(sorted);
    TotalsNonNegative(s.totalGains, s.details, config);
  }

  lemma TotalsNonNegative(gains: real, ds: seq<Detail>, config: TaxConfig)
    requires gains >= 0.0 && config.taxRate >= 0.0 && config.cess >= 0.0
    ensures var r := Totals(gains, ds, config);
            r.totalTax >= 0.0 && r.totalCess >= 0.0 && r.finalTaxLiability >= 0.0
  {
    var r := Totals(gains, ds, config);
    assert TotalsFollow(r, config);
    assert r.totalTax >= 0.0;
  }

  /** Raising the tax rate never lowers the final liability. */
  lemma LiabilityMonotoneInRate(txs: seq<Transaction>, c1: TaxConfig, c2: TaxConfig)
    requires IncomeNonNegative(txs)
    requires c1.taxRate <= c2.taxRate && c1.cess == c2.cess && c1.cess >= 0.0
    ensures ComputeTaxLiability(txs, c1).finalTaxLiability <= ComputeTaxLiability(txs, c2).finalTaxLiability
  {
    var sorted := SortByDate(txs);
    SortedIncomeNonNegative(txs);
    GainsNonNegative(sorted);
    var s := Run(sorted);
    TotalsMonotoneInRate(s.totalGains, s.details, c1, c2);
  }

  lemma TotalsMonotoneInRate(gains: real, ds: seq<Detail>, c1: TaxConfig, c2: TaxConfig)
    requires gains >= 0.0
    requires c1.taxRate <= c2.taxRate && c1.cess == c2.cess && c1.cess >= 0.0
    ensures Totals(gains, ds, c1).finalTaxLiability <= Totals(gains, ds, c2).finalTaxLiability
  {
    var r1 := Totals(gains, ds, c1);
    var r2 := Totals(gains, ds, c2);
    assert TotalsFollow(r1, c1) && TotalsFollow(r2, c2);
    assert gains * c1.taxRate <= gains * c2.taxRate;
    assert r1.totalTax * c1.cess <= r2.totalTax * c1.cess;
  }

  /** Under `TAX_CONFIG` the liability is 31.2% of the gains: 30% tax plus 4%
      cess on the tax. */
  lemma DefaultLiability(txs: seq<Transaction>)
    ensures var r := ComputeTaxLiability(txs, TAX_CONFIG);
            r.finalTaxLiability == r.totalGains * 0.312
  {
    var r := ComputeTaxLiability(txs, TAX_CONFIG);
    assert TotalsFollow(r, TAX_CONFIG);
  }
}
