/** The audit narrative attached to every report line: a three-way branch on
    the sign of the profit, citing section 115BBH of India's Income-tax Act,
    1961. */
module ReasoningEngine {

  /** The classifications a log may carry. `TdsApplicable` is declared but
      never produced. */
  datatype LogType = Taxable | NonTaxable | LossIgnored | TdsApplicable

  datatype TaxLog = TaxLog(ruleId: string, sectionReference: string, explanation: string, logType: LogType)

  /** One entry of the table of legal provisions. */
  datatype LawEntry = LawEntry(section: string, text: string)

  const GAIN_RULE := "115BBH_GAIN"
  const LOSS_RULE := "115BBH_LOSS"
  const TDS_RULE := "194S_TDS"
  const NEUTRAL_RULE := "NEUTRAL"

  /** The sections the gain and loss rules cite. */
  const GAIN_SECTION := "Section 115BBH(1)"
  const LOSS_SECTION := "Section 115BBH(2)(b)"

  /** The provisions the table lists. */
  const GAIN_LAW := LawEntry(
    GAIN_SECTION,
    "Income from transfer of Virtual Digital Assets is taxed at a flat rate of 30%.")
  const LOSS_LAW := LawEntry(
    LOSS_SECTION,
    "No set-off of loss from transfer of VDA allowed against any other income (including other VDA gains).")
  const TDS_LAW := LawEntry(
    "Section 194S",
    "TDS @ 1% is applicable on consideration for transfer of VDA if aggregate value exceeds threshold.")

  /** `TAX_LAW_MAP`: rule id to the section it cites and its wording. */
  const TAX_LAW_MAP: map<string, LawEntry> := map[GAIN_RULE := GAIN_LAW, LOSS_RULE := LOSS_LAW, TDS_RULE := TDS_LAW]

  /** The three rule ids are distinct, so each looks up its own provision. */
  lemma LawMapLookup()
    ensures TAX_LAW_MAP.Keys == {GAIN_RULE, LOSS_RULE, TDS_RULE}
    ensures TAX_LAW_MAP[GAIN_RULE] == GAIN_LAW
    ensures TAX_LAW_MAP[LOSS_RULE] == LOSS_LAW
    ensures TAX_LAW_MAP[TDS_RULE] == TDS_LAW
  {
    assert GAIN_RULE[7] != LOSS_RULE[7] && GAIN_RULE[1] != TDS_RULE[1] && LOSS_RULE[1] != TDS_RULE[1];
  }

  /** `getReasoning(profit, type)`. The transaction type is accepted and not
      consulted. */
  function GetReasoning(profit: real, kind: string): (r: TaxLog)
    ensures r.logType == Taxable <==> profit > 0.0
    ensures r.logType == LossIgnored <==> profit < 0.0
    ensures r.logType == NonTaxable <==> profit == 0.0
    ensures r.logType != TdsApplicable
    ensures profit > 0.0 ==> r.ruleId == GAIN_RULE && r.sectionReference == GAIN_SECTION
    ensures profit < 0.0 ==> r.ruleId == LOSS_RULE && r.sectionReference == LOSS_SECTION
    ensures profit == 0.0 ==> r.ruleId == NEUTRAL_RULE && r.sectionReference == "N/A"
  {
    if profit > 0.0 then
      TaxLog(GAIN_RULE, GAIN_SECTION, "Taxable Gain. Flat 30% tax applies.", Taxable)
    else if profit < 0.0 then
      TaxLog(LOSS_RULE, LOSS_SECTION, "Loss Ignored. Cannot be set off against gains.", LossIgnored)
    else
      TaxLog(NEUTRAL_RULE, "N/A", "No PnL event.", NonTaxable)
  }

  /** A gain cites the section the table lists under the gain rule, a loss
      the section listed under the loss rule. */
  lemma CitedSections(profit: real, kind: string)
    ensures profit > 0.0 ==> GetReasoning(profit, kind).sectionReference == TAX_LAW_MAP[GAIN_RULE].section
    ensures profit < 0.0 ==> GetReasoning(profit, kind).sectionReference == TAX_LAW_MAP[LOSS_RULE].section
  {
    LawMapLookup();
  }

  /** Only the sign of the profit matters: neither the transaction type nor
      the magnitude changes the log. */
  lemma {:induction false} ReasoningDependsOnlyOnSign(p: real, q: real, kind1: string, kind2: string)
    requires (p > 0.0 && q > 0.0) || (p < 0.0 && q < 0.0) || (p == 0.0 && q == 0.0)
    ensures GetReasoning(p, kind1) == GetReasoning(q, kind2)
  {
  }
}
