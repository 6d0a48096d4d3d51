/** Per-row predicates over the two venues' funding rates, and the initial
    position size of a token (analysis_tools/funding_tools.py). */
module FundingTools {
  import opened Common

  /** The two venues quote different funding rates, so there is a spread to
      capture. */
  predicate IsMarketFundingArb(rateBinance: real, rateBybite: real) {
    rateBinance != rateBybite
  }

  /** A venue's rate is strictly negative, so the profitable side there is
      long perpetual. The source has one copy of this rule per venue; both
      copies are the same comparison. */
  predicate IsBuyLongPerp(rate: real) {
    rate < 0.0
  }

  /** Initial quantity of `token`: its USD amount from the inventory (or the
      USDT budget when the token is not held) divided by its initial price.
      A missing dictionary entry or a zero price stops the run. */
  function InitQuantity(token: Token, inventory: map<Token, real>, initialPrices: map<Token, real>): (r: Result<real>)
    ensures r.Ok? <==>
              (token in inventory || USDT in inventory) && token in initialPrices && initialPrices[token] != 0.0
    ensures r.Ok? ==>
              r.value * initialPrices[token] == (if token in inventory then inventory[token] else inventory[USDT])
    ensures r.Err? && token !in inventory && USDT !in inventory ==> r.error == MissingKey(USDT)
    ensures r.Err? && (token in inventory || USDT in inventory) ==>
              r.error == (if token !in initialPrices then MissingKey(token) else ZeroDivision)
  {
    if token !in inventory && USDT !in inventory then Err(MissingKey(USDT))
    else if token !in initialPrices then Err(MissingKey(token))
    else if initialPrices[token] == 0.0 then Err(ZeroDivision)
    else
      var budget := if token in inventory then inventory[token] else inventory[USDT];
      Ok(budget / initialPrices[token])
  }

  /** Sizing round-trips: the initial quantity, valued at the initial price,
      is the USD amount it was sized from. */
  lemma InitQuantityValuesToBudget(token: Token, inventory: map<Token, real>, initialPrices: map<Token, real>)
    requires token in inventory && token in initialPrices && initialPrices[token] > 0.0
    ensures InitQuantity(token, inventory, initialPrices).Ok?
    ensures InitQuantity(token, inventory, initialPrices).value * initialPrices[token] == inventory[token]
    ensures inventory[token] >= 0.0 ==> InitQuantity(token, inventory, initialPrices).value >= 0.0
  {
  }
}
