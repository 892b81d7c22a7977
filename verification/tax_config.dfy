/** The tax policy configuration the engine is called with. */
module Config {

  /** `TaxConfig`. Rates are fractions; the engine reads only `taxRate` and
      `cess`, and its no-set-off rule does not consult `allowLossSetOff`. */
  datatype TaxConfig = TaxConfig(
    fiscalYear: string,
    taxRate: real,
    cess: real,
    tds: real,
    allowLossSetOff: bool,
    allowCarryForward: bool,
    defaultAssetClass: string)

  /** `TAX_CONFIG`: 30% flat tax, 4% health and education cess, 1% TDS,
      no loss set-off, no carry-forward. */
  const TAX_CONFIG: TaxConfig := TaxConfig("2026-2027", 0.30, 0.04, 0.01, false, false, "VDA")
}
