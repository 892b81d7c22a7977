# A model of the crypto tax engine

This project models the computational core of an Indian crypto tax calculator
in Dafny and proves properties of the model.

- **The FIFO engine `computeTaxLiability`** (`calculator.dfy`, `ledger.dfy`,
  `stable_sort.dfy`).
  - It sorts a copy of the transactions by date, stably.
  - It keeps one FIFO queue of acquisition lots per asset. `BUY` and
    `INCOME` append a lot.
  - `SELL` consumes lots from the head of its asset's queue. Whole lots are
    consumed first, then one lot is split in proportion. The loop stops
    silently when the queue runs out.
  - `TRANSFER` changes nothing.
  - There is one report line per sale and per income. A sale's loss is
    floored to a taxable amount of zero, so it is never set off against a
    gain (section 115BBH(2)(b) of India's Income-tax Act, 1961).
  - Tax, cess and the final liability follow from the total gains and the
    configuration.
- **The audit narrative `getReasoning`** (`reasoning_engine.dfy`): a
  three-way branch on the sign of the profit, citing the law table
  `TAX_LAW_MAP`.
- **The transaction schema and `validateTransaction`** (`validation.dfy`).
  Every field constraint is an explicit predicate. The current instant is a
  parameter. The error text names every violated constraint as
  `path: message`.
- **The configuration `TAX_CONFIG`** (`tax_config.dfy`).
- **The policy simulator's re-aggregation** (`policy_simulator.dfy`). The
  baseline report's profits are split into gains and losses. These are
  optionally netted, taxed at a rate chosen on a 0–30% slider plus a fixed 4%
  cess, and compared with the baseline liability.
- **Cross-cutting properties** (`engine_properties.dfy`), such as cost
  conservation per asset, FIFO cost bases, asset isolation, the no-set-off
  rule and line order.
- **Concrete scenarios** (`calculator_scenarios.dfy`): the unit tests'
  scenarios, proved.

## Representation

- Amounts are exact `real`s. Dates are integer millisecond timestamps.
- The loop over the sorted transactions is a left fold: `Run(txs)` is
  `Step` applied to `Run` of all but the last transaction.
- The balances are a `map<string, seq<Lot>>`. An asset never seen has an
  empty queue.
- The sale's `while` loop is the recursive function `Ledger.Consume`. It
  returns the cost basis charged and the queue left.
- `Ledger.FifoCost` is an independent reference definition of the FIFO cost
  basis. Each lot contributes the share of its cost that the sale reaches,
  measured by the quantity held in older lots. `Ledger.ConsumeIsFifo` proves
  that the loop computes it.
- The sort is an insertion sort on sequences. Its contract states what
  stability means: the result is non-decreasing by date, a permutation of the
  input, and for every date the subsequence with that date is as in the
  input.
- The scenario constants use 2024-01-01, 2024-02-01 and 2024-03-01 at
  midnight UTC, the dates of the unit tests.

## Model

| member | source | states |
|---|---|---|
| StableSort.SortBy | lib/tax/calculator.ts:42-44 | the sorted copy is ordered by date, is a permutation of the input, and keeps input order among equal dates (stability) |
| StableSort.SortSortedIsIdentity | lib/tax/calculator.ts:42-44 | an input already in date order is processed in input order |
| Calculator.SortByDate | lib/tax/calculator.ts:42-44 | the processing order is ascending by date, holds the same transactions, and keeps input order among transactions of equal date |
| StableSort.SortIdempotent | lib/tax/calculator.ts:42-44 | sorting a sorted copy again changes nothing |
| StableSort.SortPreservesCount | lib/tax/calculator.ts:42-44 | the sorted copy has as many elements satisfying any predicate as the input |
| Validation.ParseKind | lib/validation.ts:23 | `type` is accepted exactly when it is one of BUY, SELL, TRANSFER, INCOME, and then names the kind read |
| Validation.KindRoundTrip | lib/validation.ts:23 | reading a kind's own name gives that kind back |
| Validation.Utf16Length | lib/validation.ts:9-11 | a string's length is counted as JavaScript counts it, in UTF-16 code units: at least one and at most two per character |
| Validation.Utf16LengthOfAstral | lib/validation.ts:29 | a string of characters outside the Basic Multilingual Plane has length twice its character count |
| Validation.ValidSymbol | lib/validation.ts:9-12 | an asset symbol is accepted when it is 2 to 10 code units long and matches `^[A-Z0-9]+$` |
| Validation.ValidSymbolChars | lib/validation.ts:9-12 | an accepted symbol is exactly a string of 2 to 10 characters, each an upper-case letter or a digit |
| Validation.AstralSymbolFailsOnlyPattern | lib/validation.ts:9-12 | a one-character symbol outside the Basic Multilingual Plane is long enough and is reported only for its pattern |
| Validation.ValidDate | lib/validation.ts:14-17 | a date is accepted when it parses, its local calendar year is 2009 or later, and it is not after the current instant |
| Validation.ValidSource | lib/validation.ts:29 | a source is accepted when it is 1 to 50 code units long |
| Validation.AstralSourceTooLong | lib/validation.ts:29 | a source of more than 25 characters outside the Basic Multilingual Plane exceeds 50 code units and the record is rejected |
| Validation.AmountIssues | lib/validation.ts:4-7 | a currency amount yields "Value cannot be negative" exactly when below 0, "Value exceeds realistic limits" exactly when above 1,000,000,000, and no issue exactly when within both bounds |
| Validation.FieldIssues | lib/validation.ts:20-31 | the issues reported for one field are exactly the constraints of that field the record violates, string lengths counted in UTF-16 code units; absent price, fee or hash raise none |
| Validation.IssuesUpTo | lib/validation.ts:20-31 | the issues of the schema's first n fields are exactly the constraints of those fields the record violates, each once, in field order |
| Validation.Issues | lib/validation.ts:20-31 | the issues of a record are exactly its violated constraints, each reported once and in the order of the schema's fields, and there are none exactly when every field constraint holds |
| Validation.ValidIffNoViolation | lib/validation.ts:20-31 | a record satisfies the schema exactly when it violates no constraint of the table |
| Validation.RenderAll | lib/validation.ts:51 | each issue is rendered as `path: message`, one entry per issue, in order |
| Validation.ValidateTransaction | lib/validation.ts:46-52 | success exactly when every constraint holds; the validated data copies the input fields, has the parsed date and kind, and has fee 0 when the fee is absent |
| Validation.Join | lib/validation.ts:51 | the parts are joined with ", " between consecutive parts and nothing before the first or after the last |
| Validation.JoinContains | lib/validation.ts:51 | every part joined with ", " occurs in the joined text |
| Validation.ErrorNamesEveryViolation | lib/validation.ts:46-52 | a record violating any constraint is rejected, and its error text contains that constraint's `path: message` |
| ReasoningEngine.GetReasoning | lib/tax/reasoning-engine.ts:24-46 | positive profit gives rule 115BBH_GAIN, section 115BBH(1), TAXABLE; negative gives 115BBH_LOSS, section 115BBH(2)(b), LOSS_IGNORED; zero gives NEUTRAL, N/A, NON_TAXABLE; TDS_APPLICABLE is never produced |
| ReasoningEngine.LawMapLookup | lib/tax/reasoning-engine.ts:9-22 | the law table has exactly the three rule ids, each mapped to its own provision |
| ReasoningEngine.CitedSections | lib/tax/reasoning-engine.ts:24-38 | a gain cites the section the law table lists under the gain rule, and a loss the section listed under the loss rule |
| ReasoningEngine.ReasoningDependsOnlyOnSign | lib/tax/reasoning-engine.ts:24-46 | two profits of the same sign give the same log, whatever the transaction type argument |
| Ledger.Consume | lib/tax/calculator.ts:81-105 | cost is conserved: the cost basis charged plus the cost left in the queue is the queue's cost before; the queue never grows; a non-positive amount to sell changes nothing |
| Ledger.ConsumeTouchesOnlyOldest | lib/tax/calculator.ts:84-104 | only the oldest lots are touched: the queue left is a suffix of the old one, except that its head may be the shrunk rest of a split lot with the same date |
| Ledger.ConsumeWholeHead | lib/tax/calculator.ts:88-92 | a head lot no larger than what remains to sell is charged at its whole cost, and the loop continues on the rest |
| Ledger.ConsumeSplitHead | lib/tax/calculator.ts:93-99 | a head lot larger than what remains is charged `cost * (remaining / quantity)` |
| Ledger.ConsumeMatchesFifoCostFrom | lib/tax/calculator.ts:84-105 | the loop's cost basis equals the reference FIFO cost, for a sale that starts after older lots of a given quantity |
| Ledger.ConsumeIsFifo | lib/tax/calculator.ts:84-105 | for lots of non-negative quantity, the loop's cost basis is the reference FIFO cost basis |
| Ledger.OldestLotCovers | lib/tax/calculator.ts:85-99 | a sale the oldest lot covers is charged at that lot's unit cost, whatever later lots cost; selling exactly the whole lot charges exactly its cost |
| Ledger.PartialConsumption | lib/tax/calculator.ts:93-104 | splitting the head lot charges `cost * r / quantity`; the lot keeps `quantity - r` units and `cost - partialCost`, so its unit cost is unchanged; later lots are untouched |
| Ledger.ConsumeQuantity | lib/tax/calculator.ts:84-105 | the quantity removed from a queue of non-negative lots is the smaller of the amount sold and the quantity held |
| Ledger.ConsumeShortfall | lib/tax/calculator.ts:85 | selling more than is held empties the queue and charges exactly its cost; the shortfall adds nothing |
| Ledger.ConsumeKeepsNonNegative | lib/tax/calculator.ts:93-104 | a sale never leaves a lot with a negative quantity |
| Calculator.IncomeDetail | lib/tax/calculator.ts:64-76 | an income's line names its transaction, has cost basis 0, and has profit and taxable amount equal to its value |
| Calculator.SaleDetail | lib/tax/calculator.ts:107-129 | a sale's line names its transaction, has profit = sale value - cost basis and taxable amount = max(profit, 0), and its narrative is the one for that profit |
| Calculator.Rebalance | lib/tax/calculator.ts:53-105 | a transaction changes its own asset's queue as its kind says, and leaves every other asset's queue unchanged |
| Calculator.LineOf | lib/tax/calculator.ts:56-129 | a sale or income produces a well-formed line for it; a sale is charged the cost basis its queue yields |
| Calculator.GainOf | lib/tax/calculator.ts:64-117 | what a line adds to the total gains is its taxable amount |
| Calculator.Step | lib/tax/calculator.ts:52-133 | one loop iteration keeps the earlier lines; it adds exactly one line for a sale or income and none otherwise, and the total grows by exactly that line's taxable amount |
| Calculator.Run | lib/tax/calculator.ts:47-133 | after the loop, the total gains equal the sum of the lines' taxable amounts, and there is one line per sale and income |
| Calculator.RunLines | lib/tax/calculator.ts:52-133 | the i-th line is made for the i-th sale or income, and is a well-formed sale or income line |
| Calculator.Totals | lib/tax/calculator.ts:135-145 | tax = gains x rate, cess = tax x cess rate, final liability = tax + cess; gains and lines are passed through |
| Calculator.ComputeTaxLiability | lib/tax/calculator.ts:36-146 | the report's total gains are the sum of its lines' taxable amounts, and its tax, cess and liability follow from the gains and the configuration |
| Calculator.ReportLines | lib/tax/calculator.ts:36-146 | the report's lines correspond one to one with the sales and incomes in processing order, each well-formed and naming its transaction |
| EngineProperties.RunAppend | lib/tax/calculator.ts:52-133 | appending a transaction to the input runs one more iteration of the loop |
| EngineProperties.SaleReasoningAgrees | lib/tax/calculator.ts:108-128 | on a sale line the narrative is TAXABLE exactly when the taxable amount is positive; LOSS_IGNORED implies a loss taxed at nothing |
| EngineProperties.ReportReasoningAgrees | lib/tax/calculator.ts:108-128 | on every sale line of every report, TAXABLE holds exactly when something is taxed, and LOSS_IGNORED implies nothing is |
| EngineProperties.OneLinePerRealizingTransaction | lib/tax/calculator.ts:42-133 | the report has exactly as many lines as the input has sales and incomes, each naming its transaction in processing order, and the lines' dates never decrease |
| EngineProperties.StepGainsGrow | lib/tax/calculator.ts:56-129 | one iteration never lowers the gains unless it is an income of negative value |
| EngineProperties.GainsNonNegative | lib/tax/calculator.ts:50-117 | with non-negative income the total gains are never negative |
| EngineProperties.GainsGrow | lib/tax/calculator.ts:52-133 | with non-negative income the gains never decrease along the list, so a losing sale cannot pull them down |
| EngineProperties.SaleGain | lib/tax/calculator.ts:107-117 | a sale adds exactly max(sale value - cost basis, 0) to the gains; a sale at a loss or break-even leaves them unchanged whatever other sales gained |
| EngineProperties.TransferIsNoOp | lib/tax/calculator.ts:130-133 | a transfer changes neither the lines, nor the gains, nor any queue |
| EngineProperties.BuyAppendsLot | lib/tax/calculator.ts:56-61 | a purchase appends a lot of its quantity, costed at its value, to the back of its asset's queue, and adds no line |
| EngineProperties.IncomeAppendsLotAndLine | lib/tax/calculator.ts:56-77 | an income appends a lot costed at its value, adds a line with no cost basis taxing that value in full, and adds the value to the gains |
| EngineProperties.LedgerNonNegative | lib/tax/calculator.ts:52-105 | with non-negative amounts no lot in any queue ever has a negative quantity |
| EngineProperties.SaleChargesFifoCost | lib/tax/calculator.ts:80-129 | a sale's line carries the reference FIFO cost basis of its asset's queue just before it |
| EngineProperties.StepConservesCost | lib/tax/calculator.ts:52-133 | one iteration adds to an asset's queued-plus-charged cost exactly what a purchase or income of that asset paid, and nothing otherwise |
| EngineProperties.CostConservation | lib/tax/calculator.ts:52-133 | per asset, the cost left in the queue plus the cost basis charged to its sales equals what its purchases and incomes paid |
| EngineProperties.StepQueue | lib/tax/calculator.ts:53-105 | one iteration touches only its own asset's queue |
| EngineProperties.QueueDependsOnlyOnOwnAsset | lib/tax/calculator.ts:53-105 | an asset's queue after the loop is the one its own transactions alone would produce |
| EngineProperties.OnlyRateAndCessMatter | lib/tax/calculator.ts:135-137 | two configurations with the same rate and cess give the same report; set-off, carry-forward, TDS and fiscal year are never read |
| EngineProperties.ReportNonNegative | lib/tax/calculator.ts:135-137 | with non-negative income and rates, the gains, tax, cess and liability are non-negative |
| EngineProperties.LiabilityMonotoneInRate | lib/tax/calculator.ts:135-137 | with non-negative income and two configurations of equal, non-negative cess, raising the rate never lowers the final liability |
| Config.TAX_CONFIG | lib/tax-config.ts:2-17 | the default configuration: fiscal year 2026-2027, 30% tax, 4% cess, 1% TDS, no loss set-off, no carry-forward, asset class VDA |
| EngineProperties.DefaultLiability | lib/tax-config.ts:7-8 | under the default configuration the liability is 31.2% of the gains: 30% tax plus 4% cess on the tax |
| PolicySimulator.Gains | components/tools/policy-simulator.tsx:44-54 | the simulated gains, the sum of the strictly positive profits, are non-negative |
| PolicySimulator.Losses | components/tools/policy-simulator.tsx:44-54 | the simulated losses, the sum of the magnitudes of the other profits, are non-negative |
| PolicySimulator.GainsLessLosses | components/tools/policy-simulator.tsx:44-54 | gains minus losses is the net profit of all lines |
| PolicySimulator.NetTaxable | components/tools/policy-simulator.tsx:56-58 | with set-off the taxable amount is max(0, net profit), without it the gains; either way it lies between 0 and the gains |
| PolicySimulator.Simulate | components/tools/policy-simulator.tsx:44-69 | the simulated tax is the net taxable amount x rate, the cess is 4% of that tax, and savings plus the simulated liability is the baseline liability |
| PolicySimulator.SliderRate | components/tools/policy-simulator.tsx:104-109 | a slider position from 0 to 30 in steps of 5 selects a rate from 0% to 30% in steps of 5% |
| PolicySimulator.SimulatedLiabilityMonotoneInRate | components/tools/policy-simulator.tsx:60-68 | raising the simulated rate never lowers the simulated liability nor raises the savings |
| PolicySimulator.SetOffNeverRaisesLiability | components/tools/policy-simulator.tsx:56-67 | at a non-negative rate, switching set-off on never raises the simulated liability |
| PolicySimulator.CarryForwardIgnored | components/tools/policy-simulator.tsx:44-69 | the carry-forward switch changes nothing in the simulation |
| PolicySimulator.ReportTaxesPositiveProfit | lib/tax/calculator.ts:56-129 | with non-negative income every line of a report is taxed on its profit floored at zero |
| PolicySimulator.GainsAreTaxable | components/tools/policy-simulator.tsx:48-54 | when every line is taxed on its profit floored at zero, the simulator's gains are the sum of the taxable amounts |
| PolicySimulator.BaselineGains | components/tools/policy-simulator.tsx:44-54 | with non-negative income the simulator's gains re-derive the baseline report's total gains |
| PolicySimulator.InitialSettingsReproduce | components/tools/policy-simulator.tsx:21-25 | for a baseline computed under the default configuration, the initial settings reproduce its liability exactly |
| PolicySimulator.NegativeIncomeCostsSavings | components/tools/policy-simulator.tsx:48-68 | a single negative income gives a negative baseline liability and, at the initial settings, a negative saving |
| PolicySimulator.NoSavingsUnderCurrentLaw | components/tools/policy-simulator.tsx:21-25 | with non-negative income, the initial settings (no set-off, 30%) show zero savings against the engine's report under the default configuration |
| PolicySimulator.SavingsNonNegativeOnSlider | components/tools/policy-simulator.tsx:104-109 | anywhere on the slider, with or without set-off, the savings against the baseline are non-negative |
| CalculatorScenarios.BuyThenSell | lib/tax/calculator.ts:52-129 | a purchase followed by a sale of the same asset gives one line, charged what the purchased lot yields |
| CalculatorScenarios.BuyBuySell | lib/tax/calculator.ts:52-129 | two purchases followed by a sale of one asset give one line, charged what the two lots yield, oldest first |
| CalculatorScenarios.TwoRoundTrips | lib/tax/calculator.ts:52-129 | round trips in two assets are charged each against its own asset's lot, and the gains add up |
| CalculatorScenarios.ProfitableTrade | tests/tax-calculator.test.ts:19-37 | buying at 100000 and selling at 150000 gives gains 50000, tax 15000, cess 600 and liability 15600 |
| CalculatorScenarios.LossIsNotSetOff | tests/tax-calculator.test.ts:39-58 | a 50000 gain beside a 50000 loss is taxed on the full 50000 |
| CalculatorScenarios.FifoCostBasis | tests/tax-calculator.test.ts:60-77 | with lots at 10000 then 20000, a one-unit sale at 30000 is charged 10000 and profits 20000 |
| CalculatorScenarios.PartialSale | tests/tax-calculator.test.ts:79-93 | selling one unit of a 2-unit lot that cost 100000 charges 50000, and the sale at 60000 profits 10000 |
| CalculatorScenarios.PureLoss | tests/tax-calculator.test.ts:95-106 | buying at 10000 and selling at 5000 gives no gains, no liability, and a line taxed at 0 |

## Left out

- The shortfall of a sale that exceeds its queue is not flagged. The code
  silently stops charging cost when the queue runs out, and the model does
  the same (`Ledger.ConsumeShortfall`). A stricter design would mark such a
  line as partial or unbacked. The code has no such marker, and the model
  follows the code.
- Floating-point rounding is not modelled. Amounts are exact reals, in which
  the tests' figures (15600, 50000, …) hold exactly.
- JavaScript `Date` is not modelled. The engine compares integer
  timestamps. The validator receives a date as `Option<ParsedDate>`: `None`
  for a string that does not parse, otherwise its instant and the calendar
  year `getFullYear()` reports. `new Date()` becomes the parameter `now`.
- zod's type-shape errors are not modelled: a field of the wrong JavaScript
  type, a missing required field, and the "Invalid numeric value" refinement
  for NaN and infinities. The raw record is typed, so these cannot occur.
- The uuid check is modelled by `Validation.IsUuid` as zod 3's `uuid()`
  pattern: 8, 4, 4, 4 and 12 hexadecimal digits of either case separated by
  hyphens. The messages modelled are zod 3's as well.
- Non-mutation of the input array and of the baseline report is not stated
  as a property. Dafny sequences and datatypes are values, so it holds by
  construction.
- The async orchestrator `calculateTaxReport` in lib/tax-engine.ts, which
  fetches stored transactions and calls the engine, is I/O. The simulator's
  baseline is modelled as `ComputeTaxLiability(txs, TAX_CONFIG)`.
- React rendering, state hooks and the slider's event handling are not
  modelled. Only the re-aggregation and the slider's value range are.
- IndexedDB storage (lib/db.ts), CSV import (lib/csv-parser.ts), the simple
  estimator form and all other UI are not part of this model.
- Asset names that are keys of JavaScript's `Object.prototype`, such as
  `constructor` or `toString`, are not modelled as the program treats them.
  The engine keeps its balances in a plain object (lib/tax/calculator.ts:47),
  so for such a name the check at line 53 finds an inherited value and
  creates no queue. A purchase or income then throws at the `push` on line
  57, and a sale can throw as well, so no report is produced. The model's
  balances are a map with no inherited keys, and it returns a report for
  these inputs. Such names can reach the engine, because the CSV mappings
  copy market names unchecked (lib/csv-parser.ts:66, 80).
- NaN amounts are not modelled. `parseFloat` can produce NaN, and stored
  transactions reach the engine unvalidated (lib/tax-engine.ts:17-19). The
  model's exact reals have no NaN, so it says nothing about what NaN does to
  the queues and totals.
- The line's `date` is the transaction's timestamp rather than its original
  date string.
- Non-negative income is assumed by EngineProperties.GainsNonNegative,
  EngineProperties.GainsGrow, EngineProperties.ReportNonNegative,
  EngineProperties.LiabilityMonotoneInRate,
  PolicySimulator.ReportTaxesPositiveProfit, PolicySimulator.BaselineGains,
  PolicySimulator.NoSavingsUnderCurrentLaw and
  PolicySimulator.SavingsNonNegativeOnSlider. Nothing on the program's path
  ensures it. The engine and the simulator accept any number, the stored
  transactions reach the engine unvalidated (lib/tax-engine.ts:17-19), and
  the manual entry form stores any number it parses
  (components/dashboard/manual-entry-form.tsx:29-40).
  `PolicySimulator.NegativeIncomeCostsSavings` shows what happens otherwise:
  the saving at the initial settings is negative.
- EngineProperties.LedgerNonNegative and EngineProperties.SaleChargesFifoCost
  assume non-negative amounts, which nothing on the program's path ensures
  either.
