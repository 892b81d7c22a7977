/** `computeTaxLiability`: the tax engine.

    A copy of the transactions is sorted by date, stably, and folded left to
    right over a map from asset symbol to its FIFO queue of lots. A purchase
    appends a lot; income appends a lot and is taxed in full on receipt; a sale
    consumes lots from the head of its asset's queue and is taxed on its profit
    floored at zero, so that a loss never offsets a gain (section 115BBH(2)(b)
    of India's Income-tax Act, 1961); a transfer changes nothing. Tax, cess and
    the final liability follow from the total gains and the configuration. */
module Calculator {
  import opened Common
  import opened Validation
  import opened Config
  import opened Ledger
  import opened ReasoningEngine
  import StableSort

  /** `TaxReportDetails`: one line per sale and per income. */
  datatype Detail = Detail(
    txId: string,
    asset: string,
    date: int,
    kind: Kind,
    costBasis: real,
    saleValue: real,
    profit: real,
    taxableAmount: real,
    reasoning: TaxLog)

  /** `TaxReport`. */
  datatype TaxReport = TaxReport(
    totalGains: real,
    totalTax: real,
    totalCess: real,
    finalTaxLiability: real,
    details: seq<Detail>)

  /** The loop's state: the per-asset queues (`balances`), the lines so far and
      the running total of gains. */
  datatype State = State(balances: map<string, seq<Lot>>, details: seq<Detail>, totalGains: real)

  /** The queue of an asset; an asset never seen has an empty queue. */
  function QueueOf(balances: map<string, seq<Lot>>, asset: string): seq<Lot> {
    if asset in balances then balances[asset] else []
  }

  /** Sales and income are the events that produce a report line. */
  predicate Realizes(tx: Transaction) {
    tx.kind == Sell || tx.kind == Income
  }

  /** The lot a purchase or income adds: its quantity and, as cost, its value. */
  function LotOf(tx: Transaction): Lot {
    Lot(tx.amount, tx.totalInfo, tx.date)
  }

  /** The new queue of the transaction's own asset. */
  function QueueAfter(queue: seq<Lot>, tx: Transaction): seq<Lot> {
    match tx.kind
    case Buy => queue + [LotOf(tx)]
    case Income => queue + [LotOf(tx)]
    case Sell => Consume(queue, tx.amount).remaining
    case Transfer => queue
  }

  // ---------------------------------------------------------------------
  // What a report line must satisfy.
  // ---------------------------------------------------------------------

  /** A sale's line: profit is sale value minus cost basis, and only a positive
      profit is taxable. */
  predicate SaleLine(d: Detail) {
    && d.kind == Sell
    && d.profit == d.saleValue - d.costBasis
    && d.taxableAmount == Max(d.profit, 0.0)
    && d.reasoning == GetReasoning(d.profit, "SELL")
  }

  /** An income line: no cost basis, and the whole value is profit and taxable,
      whatever its sign. */
  predicate IncomeLine(d: Detail) {
    && d.kind == Income
    && d.costBasis == 0.0
    && d.profit == d.saleValue
    && d.taxableAmount == d.saleValue
    && d.reasoning == GetReasoning(d.profit, "INCOME")
  }

  predicate LineOk(d: Detail) {
    SaleLine(d) || IncomeLine(d)
  }

  /** The line names the transaction it was made for. */
  predicate LineFor(d: Detail, tx: Transaction) {
    && d.txId == tx.id
    && d.asset == tx.asset
    && d.date == tx.date
    && d.kind == tx.kind
    && d.saleValue == tx.totalInfo
  }

  /** Sum of the taxable amounts of a list of lines. */
  function SumTaxable(ds: seq<Detail>): real {
    if |ds| == 0 then 0.0 else SumTaxable(ds[..|ds| - 1]) + ds[|ds| - 1].taxableAmount
  }

  /** The realizing transactions of `txs`, in order. */
  function Realized(txs: seq<Transaction>): (r: seq<Transaction>)
    ensures |r| <= |txs|
    ensures forall x :: x in r ==> x in txs && Realizes(x)
  {
    if |txs| == 0 then []
    else
      var last := txs[|txs| - 1];
      Realized(txs[..|txs| - 1]) + (if Realizes(last) then [last] else [])
  }

  // ---------------------------------------------------------------------
  // The loop.
  // ---------------------------------------------------------------------

  /** The line of an income: taxed in full on receipt. */
  function IncomeDetail(tx: Transaction): (d: Detail)
    requires tx.kind == Income
    ensures LineFor(d, tx) && IncomeLine(d)
  {
    Detail(tx.id, tx.asset, tx.date, tx.kind, 0.0, tx.totalInfo, tx.totalInfo, tx.totalInfo,
           GetReasoning(tx.totalInfo, "INCOME"))
  }

  /** The line of a sale with the given cost basis: a loss is not taxable. */
  function SaleDetail(tx: Transaction, costBasis: real): (d: Detail)
    requires tx.kind == Sell
    ensures LineFor(d, tx) && SaleLine(d) && d.costBasis == costBasis
  {
    var profit := tx.totalInfo - costBasis;
    // no set-off: a loss contributes nothing
    var taxable := if profit > 0.0 then profit else 0.0;
    Detail(tx.id, tx.asset, tx.date, tx.kind, costBasis, tx.totalInfo, profit, taxable,
           GetReasoning(profit, "SELL"))
  }

  /** Appending a line adds its taxable amount to the sum. */
  lemma SumTaxableAppend(ds: seq<Detail>, d: Detail)
    ensures SumTaxable(ds + [d]) == SumTaxable(ds) + d.taxableAmount
  {
    assert (ds + [d])[..|ds|] == ds;
  }

  /** The balances after a transaction: its asset's queue is changed as
      `QueueAfter` says (an asset seen for the first time starts empty), and
      every other asset's queue is left alone. */
  function Rebalance(balances: map<string, seq<Lot>>, tx: Transaction): (b: map<string, seq<Lot>>)
    ensures QueueOf(b, tx.asset) == QueueAfter(QueueOf(balances, tx.asset), tx)
    ensures forall a :: a != tx.asset ==> QueueOf(b, a) == QueueOf(balances, a)
  {
    balances[tx.asset := QueueAfter(QueueOf(balances, tx.asset), tx)]
  }

  /** The line a sale or an income adds, given its asset's queue before it. */
  function LineOf(queue: seq<Lot>, tx: Transaction): (d: Detail)
    requires Realizes(tx)
    ensures LineFor(d, tx) && LineOk(d)
    // a sale is charged the cost basis the queue yields
    ensures tx.kind == Sell ==> d.costBasis == Consume(queue, tx.amount).costBasis
  {
    if tx.kind == Income then IncomeDetail(tx) else SaleDetail(tx, Consume(queue, tx.amount).costBasis)
  }

  /** What the line adds to the total gains: an income's whole value, a
      sale's profit when it is positive. */
  function GainOf(d: Detail): (g: real)
    requires LineOk(d)
    ensures g == d.taxableAmount
  {
    if d.kind == Income then d.saleValue
    else if d.profit > 0.0 then d.profit else 0.0
  }

  /** One iteration of the loop over the sorted transactions. */
  function Step(s: State, tx: Transaction): (s': State)
    ensures s'.balances == Rebalance(s.balances, tx)
    // earlier lines are kept; one line is added exactly for a sale or income,
    // and the total grows by exactly its taxable amount
    ensures !Realizes(tx) ==> s'.details == s.details && s'.totalGains == s.totalGains
    ensures Realizes(tx) ==>
              var line := LineOf(QueueOf(s.balances, tx.asset), tx);
              s'.details == s.details + [line] && s'.totalGains == s.totalGains + line.taxableAmount
  {
    var balances := Rebalance(s.balances, tx);
    if Realizes(tx) then
      var line := LineOf(QueueOf(s.balances, tx.asset), tx);
      State(balances, s.details + [line], s.totalGains + GainOf(line))
    else
      State(balances, s.details, s.totalGains)
  }

  /** The state after the loop has processed `txs`, starting from no queues,
      no lines and no gains. */
  function Run(txs: seq<Transaction>): (s: State)
    ensures s.totalGains == SumTaxable(s.details)
    ensures |s.details| == |Realized(txs)|
    decreases |txs|
  {
    if |txs| == 0 then State(map[], [], 0.0)
    else
      var prefix := Run(txs[..|txs| - 1]);
      var tx := txs[|txs| - 1];
      var s := Step(prefix, tx);
      if Realizes(tx) then
        SumTaxableAppend(prefix.details, LineOf(QueueOf(prefix.balances, tx.asset), tx));
        s
      else
        s
  }

  /** The i-th line of the run is made for the i-th realizing transaction,
      and is a well-formed sale or income line. */
  lemma {:induction false} RunLines(txs: seq<Transaction>)
    ensures forall i :: 0 <= i < |Run(txs).details| ==>
              LineFor(Run(txs).details[i], Realized(txs)[i]) && LineOk(Run(txs).details[i])
    decreases |txs|
  {
    if |txs| > 0 {
      var p := txs[..|txs| - 1];
      var tx := txs[|txs| - 1];
      RunLines(p);
      var before := Run(p).details;
      var after := Run(txs).details;
      if Realizes(tx) {
        assert Realized(txs) == Realized(p) + [tx];
        forall i | 0 <= i < |after|
          ensures LineFor(after[i], Realized(txs)[i]) && LineOk(after[i])
        {
          if i < |before| {
            assert after[i] == before[i];
          }
        }
      } else {
        assert Realized(txs) == Realized(p);
      }
    }
  }

  /** The transactions in processing order: ascending date, input order on ties. */
  function ByDate(tx: Transaction): int {
    tx.date
  }

  function SortByDate(txs: seq<Transaction>): (r: seq<Transaction>)
    ensures StableSort.SortedBy(r, ByDate)
    ensures multiset(r) == multiset(txs)
    ensures forall d :: StableSort.WithKey(r, ByDate, d) == StableSort.WithKey(txs, ByDate, d)
  {
    StableSort.SortBy(txs, ByDate)
  }

  /** The report's totals: tax at the configured rate on the gains, cess on
      the tax, and their sum as the final liability. */
  function Totals(totalGains: real, details: seq<Detail>, config: TaxConfig): (r: TaxReport)
    ensures r.totalGains == totalGains && r.details == details
    ensures TotalsFollow(r, config)
  {
    var totalTax := totalGains * config.taxRate;
    var totalCess := totalTax * config.cess;
    TaxReport(totalGains, totalTax, totalCess, totalTax + totalCess, details)
  }

  /** The report's totals follow from its gains and the configuration. */
  predicate TotalsFollow(r: TaxReport, config: TaxConfig) {
    && r.totalTax == r.totalGains * config.taxRate
    && r.totalCess == r.totalTax * config.cess
    && r.finalTaxLiability == r.totalTax + r.totalCess
  }

  /** `computeTaxLiability(transactions, config)`. */
  function ComputeTaxLiability(transactions: seq<Transaction>, config: TaxConfig): (r: TaxReport)
    ensures r.totalGains == SumTaxable(r.details)
    ensures TotalsFollow(r, config)
  {
    var s := Run(SortByDate(transactions));
    Totals(s.totalGains, s.details, config)
  }

  /** Every line of a report is a well-formed sale or income line, made for
      the corresponding sale or income in date order. */
  lemma ReportLines(transactions: seq<Transaction>, config: TaxConfig)
    ensures var r := ComputeTaxLiability(transactions, config);
            var realized := Realized(SortByDate(transactions));
            && |r.details| == |realized|
            && forall i :: 0 <= i < |r.details| ==> LineFor(r.details[i], realized[i]) && LineOk(r.details[i])
  {
    RunLines(SortByDate(transactions));
  }
}
