/** The record the strategy catalog stores for each strategy code. */
module Models {

  datatype StrategyConfig = StrategyConfig(
    code: string,
    name: string,
    strategyType: string,   // "call", "put", "short_call", "short_put" or "spread"
    moneyness: string,      // "Deep OTM", "Shallow OTM", "ATM", "Shallow ITM", "Deep ITM" or "Mixed"
    timeFrame: string,      // "Near", "Medium" or "Long"
    description: string)
}
