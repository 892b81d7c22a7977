/** The policy simulator: the baseline report's lines are re-aggregated
    under a hypothetical law — loss set-off switched on or off and a tax rate
    chosen on a slider from 0% to 30% — and the simulated liability is
    compared with the baseline's. */
module PolicySimulator {
  import opened Common
  import opened Validation
  import opened Config
  import opened Calculator
  import opened EngineProperties
  import StableSort

  /** The simulated law. Carry-forward is a setting of the form that the
      re-aggregation never reads. */
  datatype SimConfig = SimConfig(allowLossSetOff: bool, taxRate: real, allowCarryForward: bool)

  /** The simulator starts at current law: no set-off, 30%. */
  const INITIAL_SIM_CONFIG := SimConfig(false, 0.30, false)

  /** The simulator's cess rate, fixed rather than read from `TAX_CONFIG`. */
  const SIM_CESS: real := 0.04

  /** The simulated figures and the saving against the baseline. */
  datatype SimStats = SimStats(
    totalGains: real,
    totalTax: real,
    totalCess: real,
    finalTaxLiability: real,
    savings: real)

  /** The sum of the strictly positive profits of the lines. */
  function Gains(ds: seq<Detail>): (r: real)
    ensures r >= 0.0
  {
    if |ds| == 0 then 0.0
    else
      var profit := ds[|ds| - 1].profit;
      Gains(ds[..|ds| - 1]) + (if profit > 0.0 then profit else 0.0)
  }

  /** The sum of the magnitudes of the other profits: losses and break-evens. */
  function Losses(ds: seq<Detail>): (r: real)
    ensures r >= 0.0
  {
    if |ds| == 0 then 0.0
    else
      var profit := ds[|ds| - 1].profit;
      Losses(ds[..|ds| - 1]) + (if profit > 0.0 then 0.0 else Abs(profit))
  }

  /** The plain sum of the profits of the lines. */
  function SumProfit(ds: seq<Detail>): real {
    if |ds| == 0 then 0.0 else SumProfit(ds[..|ds| - 1]) + ds[|ds| - 1].profit
  }

  /** Gains and losses split the net profit. */
  lemma {:induction false} GainsLessLosses(ds: seq<Detail>)
    ensures Gains(ds) - Losses(ds) == SumProfit(ds)
  {
    if |ds| > 0 {
      GainsLessLosses(ds[..|ds| - 1]);
    }
  }

  /** The simulated taxable amount: gains less losses, floored at zero, with
      set-off; the gains alone without it. Either way it lies between zero
      and the gains. */
  function NetTaxable(ds: seq<Detail>, allowLossSetOff: bool): (r: real)
    ensures 0.0 <= r <= Gains(ds)
    ensures allowLossSetOff ==> r == Max(0.0, SumProfit(ds))
    ensures !allowLossSetOff ==> r == Gains(ds)
  {
    var gains := Gains(ds);
    var losses := Losses(ds);
    GainsLessLosses(ds);
    if allowLossSetOff then Max(0.0, gains - losses) else gains
  }

  /** The simulated liability: the rate on the net taxable amount plus the
      fixed cess on that tax. */
  predicate LiabilityFollows(r: SimStats, config: SimConfig) {
    && r.totalTax == r.totalGains * config.taxRate
    && r.totalCess == r.totalTax * SIM_CESS
    && r.finalTaxLiability == r.totalTax + r.totalCess
  }

  /** The re-aggregation of the baseline report under `config`. */
  function Simulate(baseline: TaxReport, config: SimConfig): (r: SimStats)
    ensures 0.0 <= r.totalGains <= Gains(baseline.details)
    ensures r.totalGains == NetTaxable(baseline.details, config.allowLossSetOff)
    ensures LiabilityFollows(r, config)
    // the saving is what the simulated law takes off the baseline liability
    ensures r.savings + r.finalTaxLiability == baseline.finalTaxLiability
  {
    var netTaxable := NetTaxable(baseline.details, config.allowLossSetOff);
    var simTax := netTaxable * config.taxRate;
    var simCess := simTax * SIM_CESS;
    SimStats(netTaxable, simTax, simCess, simTax + simCess, baseline.finalTaxLiability - (simTax + simCess))
  }

  /** The rate a slider position selects: positions run from 0 to 30 in
      steps of 5 and are read as percentages. */
  function SliderRate(position: int): (rate: real)
    requires 0 <= position <= 30 && position % 5 == 0
    ensures 0.0 <= rate <= TAX_CONFIG.taxRate
    ensures rate in {0.0, 0.05, 0.10, 0.15, 0.20, 0.25, 0.30}
  {
    position as real / 100.0
  }

  // ---------------------------------------------------------------------
  // Properties of the simulation
  // ---------------------------------------------------------------------

  /** A product of non-negative factors grows with each factor. */
  lemma MulMonotone(a: real, b: real, x: real, y: real)
    requires 0.0 <= a <= b && 0.0 <= x <= y
    ensures a * x <= b * y
  {
    assert a * x <= a * y;
    assert a * y <= b * y;
  }

  /** The simulated liability is the net taxable amount times the rate times
      1.04; it never decreases as the net taxable amount or the rate grows. */
  lemma LiabilityMonotone(r1: SimStats, c1: SimConfig, r2: SimStats, c2: SimConfig)
    requires LiabilityFollows(r1, c1) && LiabilityFollows(r2, c2)
    requires 0.0 <= r1.totalGains <= r2.totalGains
    requires 0.0 <= c1.taxRate <= c2.taxRate
    ensures r1.finalTaxLiability <= r2.finalTaxLiability
  {
    MulMonotone(r1.totalGains, r2.totalGains, c1.taxRate, c2.taxRate);
  }

  /** Raising the simulated rate never lowers the simulated liability. */
  lemma SimulatedLiabilityMonotoneInRate(baseline: TaxReport, c1: SimConfig, c2: SimConfig)
    requires c1.allowLossSetOff == c2.allowLossSetOff
    requires 0.0 <= c1.taxRate <= c2.taxRate
    ensures Simulate(baseline, c1).finalTaxLiability <= Simulate(baseline, c2).finalTaxLiability
    ensures Simulate(baseline, c1).savings >= Simulate(baseline, c2).savings
  {
    LiabilityMonotone(Simulate(baseline, c1), c1, Simulate(baseline, c2), c2);
  }

  /** Allowing set-off never raises the simulated liability at a
      non-negative rate. */
  lemma SetOffNeverRaisesLiability(baseline: TaxReport, rate: real, carry: bool)
    requires rate >= 0.0
    ensures Simulate(baseline, SimConfig(true, rate, carry)).finalTaxLiability
            <= Simulate(baseline, SimConfig(false, rate, carry)).finalTaxLiability
  {
    var on := SimConfig(true, rate, carry);
    var off := SimConfig(false, rate, carry);
    LiabilityMonotone(Simulate(baseline, on), on, Simulate(baseline, off), off);
  }

  /** The carry-forward switch changes nothing. */
  lemma CarryForwardIgnored(baseline: TaxReport, c: SimConfig)
    ensures Simulate(baseline, c) == Simulate(baseline, c.(allowCarryForward := !c.allowCarryForward))
  {
  }

  // ---------------------------------------------------------------------
  // Against the engine's own report
  // ---------------------------------------------------------------------

  /** With non-negative income every line of the engine's report is taxed on
      its profit floored at zero. */
  lemma ReportTaxesPositiveProfit(txs: seq<Transaction>, config: TaxConfig)
    requires IncomeNonNegative(txs)
    ensures var ds := ComputeTaxLiability(txs, config).details;
            forall i :: 0 <= i < |ds| ==> ds[i].taxableAmount == Max(ds[i].profit, 0.0)
  {
    var sorted := SortByDate(txs);
    var ds := ComputeTaxLiability(txs, config).details;
    var realized := Realized(sorted);
    ReportLines(txs, config);
    SortedIncomeNonNegative(txs);
    forall i | 0 <= i < |ds| ensures ds[i].taxableAmount == Max(ds[i].profit, 0.0) {
      assert LineOk(ds[i]) && LineFor(ds[i], realized[i]);
      if IncomeLine(ds[i]) {
        assert realized[i] in sorted;
      }
    }
  }

  /** When every line is taxed on its profit floored at zero, the simulator's
      gains are the engine's total. */
  lemma {:induction false} GainsAreTaxable(ds: seq<Detail>)
    requires forall i :: 0 <= i < |ds| ==> ds[i].taxableAmount == Max(ds[i].profit, 0.0)
    ensures Gains(ds) == SumTaxable(ds)
  {
    if |ds| > 0 {
      GainsAreTaxable(ds[..|ds| - 1]);
    }
  }

  /** The simulator's gains are the baseline's total gains. */
  lemma BaselineGains(txs: seq<Transaction>)
    requires IncomeNonNegative(txs)
    ensures var baseline := ComputeTaxLiability(txs, TAX_CONFIG);
            Gains(baseline.details) == baseline.totalGains
  {
    ReportTaxesPositiveProfit(txs, TAX_CONFIG);
    GainsAreTaxable(ComputeTaxLiability(txs, TAX_CONFIG).details);
  }

  /** A baseline computed under the default configuration whose lines'
      gains are its total is reproduced exactly by the initial settings. */
  lemma InitialSettingsReproduce(baseline: TaxReport)
    requires TotalsFollow(baseline, TAX_CONFIG)
    requires Gains(baseline.details) == baseline.totalGains
    ensures Simulate(baseline, INITIAL_SIM_CONFIG).savings == 0.0
  {
    var r := Simulate(baseline, INITIAL_SIM_CONFIG);
    assert LiabilityFollows(r, INITIAL_SIM_CONFIG);
  }

  /** At its initial settings the simulator reproduces current law: the
      saving is zero. */
  lemma NoSavingsUnderCurrentLaw(txs: seq<Transaction>)
    requires IncomeNonNegative(txs)
    ensures Simulate(ComputeTaxLiability(txs, TAX_CONFIG), INITIAL_SIM_CONFIG).savings == 0.0
  {
    BaselineGains(txs);
    InitialSettingsReproduce(ComputeTaxLiability(txs, TAX_CONFIG));
  }

  /** Without non-negative income the comparison fails: a single negative
      income gives the engine a negative liability, which the simulator's
      floored gains cannot match, so the saving at current law is negative. */
  lemma NegativeIncomeCostsSavings(tx: Transaction)
    requires tx.kind == Income && tx.totalInfo < 0.0
    ensures ComputeTaxLiability([tx], TAX_CONFIG).finalTaxLiability < 0.0
    ensures Simulate(ComputeTaxLiability([tx], TAX_CONFIG), INITIAL_SIM_CONFIG).savings < 0.0
  {
    StableSort.SortSortedIsIdentity([tx], ByDate);
    assert [tx][..0] == [];
    var d := IncomeDetail(tx);
    assert Run([tx]).details == [d];
    assert Gains([d]) == 0.0 by {
      assert [d][..0] == [];
    }
  }

  /** Anywhere on the slider, with or without set-off, the simulated law
      never costs more than current law. */
  lemma SavingsNonNegativeOnSlider(txs: seq<Transaction>, config: SimConfig)
    requires IncomeNonNegative(txs)
    requires 0.0 <= config.taxRate <= 0.30
    ensures Simulate(ComputeTaxLiability(txs, TAX_CONFIG), config).savings >= 0.0
  {
    var baseline := ComputeTaxLiability(txs, TAX_CONFIG);
    BaselineGains(txs);
    NoSavingsUnderCurrentLaw(txs);
    LiabilityMonotone(Simulate(baseline, config), config,
                      Simulate(baseline, INITIAL_SIM_CONFIG), INITIAL_SIM_CONFIG);
  }
}
