/** The domain records decoded from the portfolio payload (Stocks/Model). */
module Model {
  import opened Wrappers

  /** Raw bytes, Foundation's `Data`. */
  type Bytes = seq<bv8>

  /** One portfolio position. Prices are exact reals in place of `Double`;
      `quantity` is not checked to be non-negative, as in the source. */
  datatype Holding = Holding(symbol: string, quantity: int, ltp: real, avgPrice: real, close: real)

  /** The wire envelope `{ data: { userHolding: [...] } }`. */
  datatype PortfolioData = PortfolioData(userHolding: seq<Holding>)
  datatype PortfolioResponse = PortfolioResponse(data: PortfolioData)

  /** A configured JSONDecoder applied to `PortfolioResponse`: either the decoded
      envelope or the failure description a `DecodingError` would carry. */
  type Decoder = Bytes -> Result<PortfolioResponse, string>
}
