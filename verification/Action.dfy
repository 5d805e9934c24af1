/** The proposed action of src/finance/action.py, as far as the pipeline reads it. */
module Action {
  import opened Basics

  /** The advisory evidence dictionary: whether it is empty, its intended_quantity, and
      whether the identity scan of assert_no_pii refuses it. */
  datatype Advisory = Advisory(isEmpty: bool, intendedQuantity: Option<real>, bindsIdentity: bool)

  datatype FinancialAction = FinancialAction(
    actionId: string, tenantId: string, capability: string, instrument: string, side: string,
    quantity: real, quantityIsInt: bool, priceLimit: real, currency: string, settlementAsset: string,
    destination: string, nonce: int, timestamp: int, expiry: int, riskClass: string, evidence: Advisory)

  const TRADE_EXECUTE: string := "rathnone.trade_execute"
  const CHAIN_SETTLE: string := "rathnone.chain_settle"

  function Abs(x: real): real {
    if x < 0.0 then -x else x
  }

  /** validate_structure raises nothing. */
  predicate StructureOk(a: FinancialAction) {
    && a.tenantId != "" && a.actionId != "" && a.capability != ""
    && a.nonce >= 0
    && !(a.expiry != 0 && a.timestamp != 0 && a.expiry < a.timestamp)
  }

  /** The integer that as_intent writes as "value"; None when the text is not a digit string. */
  function IntentValue(a: FinancialAction): Option<int> {
    if "wei" <= a.settlementAsset || a.currency == "wei" then
      var v := (a.quantity * a.priceLimit).Floor;
      if v >= 0 then Some(v) else None
    else if a.quantityIsInt && a.quantity >= 0.0 then Some(a.quantity.Floor)
    else None
  }
}
