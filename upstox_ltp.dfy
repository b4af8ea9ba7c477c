/**
 * The reply to the one batched last-traded-price request and the fail-soft
 * rule `get_stock_ltp` applies to it. The HTTP call itself is not modelled:
 * only the status code and the body's `"ltp"` field reach this module.
 */
module UpstoxLtp {
  import opened Wrappers

  /** The only status `get_stock_ltp` accepts as success. */
  const StatusOk: int := 200

  /**
   * What the quote endpoint answered: its HTTP status code and, from the
   * parsed JSON body, the `"ltp"` field (instrument key to price) when the
   * body has one. Prices are opaque values of type P.
   */
  datatype Response<P> = Response(statusCode: int, ltpField: Option<map<string, P>>)

  /**
   * The price map one tick works with. Every price in it comes from a
   * successful reply's `"ltp"` field, and a successful reply that has the
   * field yields it whole; every other reply yields the empty map.
   */
  function GetStockLtp<P>(resp: Response<P>): (ltp: map<string, P>)
    ensures ltp != map[] ==> resp.statusCode == StatusOk && resp.ltpField == Some(ltp)
    ensures resp.statusCode == StatusOk && resp.ltpField.Some? ==> ltp == resp.ltpField.value
  {
    if resp.statusCode == StatusOk then resp.ltpField.GetOr(map[]) else map[]
  }

  /** A failed request degrades to "no prices", never to an error. */
  lemma FailedRequestHasNoPrices<P>(resp: Response<P>)
    requires resp.statusCode != StatusOk
    ensures GetStockLtp(resp) == map[]
  {
  }

  /** A successful reply without an `"ltp"` field also degrades to "no prices". */
  lemma MissingLtpFieldHasNoPrices<P>(resp: Response<P>)
    requires resp.statusCode == StatusOk && resp.ltpField.None?
    ensures GetStockLtp(resp) == map[]
  {
  }
}
