/**
 * The per-tick snapshot sent to the client: one category, `"nifty50"`,
 * mapping every catalog symbol to its instrument key and its last traded
 * price, or to the sentinel `"N/A"` when the upstream map has no price for
 * that instrument key.
 */
module Snapshots {
  import opened Wrappers
  import opened StockList
  import opened UpstoxLtp

  /** A symbol's price: the upstream value, or the `"N/A"` sentinel. */
  datatype Ltp<P> = Price(value: P) | NotAvailable

  /** One symbol's entry: `{"instrument_key": ..., "ltp": ...}`. */
  datatype Quote<P> = Quote(instrumentKey: string, ltp: Ltp<P>)

  /** The whole message, before it is rendered as JSON: category to symbol to quote. */
  type Snapshot<P> = map<string, map<string, Quote<P>>>

  /**
   * The snapshot for one tick, built from the catalog and the tick's price
   * map; an instrument key the map lacks gets the `"N/A"` sentinel.
   */
  function BuildSnapshot<P>(c: Catalog, ltpData: map<string, P>): (snap: Snapshot<P>)
    ensures snap.Keys == {Category}
  {
    var stocks := ToMap(c);
    map[Category := map stock | stock in stocks ::
      Quote(stocks[stock], if stocks[stock] in ltpData then Price(ltpData[stocks[stock]]) else NotAvailable)]
  }

  /** The instrument keys the quotes of one category carry. */
  function QuotedKeys<P>(quotes: map<string, Quote<P>>): set<string> {
    set s | s in quotes :: quotes[s].instrumentKey
  }

  /** The snapshot quotes exactly the instrument keys the tick's batch request asked for. */
  lemma SnapshotAnswersRequest<P>(c: Catalog, ltpData: map<string, P>)
    ensures QuotedKeys(BuildSnapshot(c, ltpData)[Category]) == (set k | k in InstrumentKeys(c))
  {
    var d, quotes := ToMap(c), BuildSnapshot(c, ltpData)[Category];
    assert forall s :: s in quotes ==> quotes[s].instrumentKey == d[s];
    assert QuotedKeys(quotes) == d.Values by {
      forall k | k in QuotedKeys(quotes) ensures k in d.Values {
        var s :| s in quotes && quotes[s].instrumentKey == k;
        assert d[s] == k;
      }
      forall k | k in d.Values ensures k in QuotedKeys(quotes) {
        var s :| s in d && d[s] == k;
        assert quotes[s].instrumentKey == k;
      }
    }
    InstrumentKeysAreValues(c);
  }

  /** No symbol is dropped and none is added: the snapshot's symbols are the catalog's, one per entry. */
  lemma SnapshotSymbols<P>(c: Catalog, ltpData: map<string, P>)
    ensures BuildSnapshot(c, ltpData)[Category].Keys == Symbols(c)
    ensures |BuildSnapshot(c, ltpData)[Category]| == |c|
  {
    ToMapSize(c);
    assert BuildSnapshot(c, ltpData)[Category].Keys == ToMap(c).Keys;
  }

  /**
   * Each catalog entry's quote carries the entry's own instrument key, and
   * the upstream price for that key when the map has one, else `"N/A"`.
   */
  lemma SnapshotEntry<P>(c: Catalog, ltpData: map<string, P>, i: nat)
    requires i < |c|
    ensures c[i].symbol in BuildSnapshot(c, ltpData)[Category]
    ensures BuildSnapshot(c, ltpData)[Category][c[i].symbol]
         == Quote(c[i].instrumentKey,
                  if c[i].instrumentKey in ltpData then Price(ltpData[c[i].instrumentKey]) else NotAvailable)
  {
  }

  /** Every price in a snapshot is the upstream map's value for that quote's instrument key. */
  lemma PricesComeFromUpstream<P>(c: Catalog, ltpData: map<string, P>, s: string)
    requires s in BuildSnapshot(c, ltpData)[Category]
    ensures BuildSnapshot(c, ltpData)[Category][s].instrumentKey in ToMap(c).Values
    ensures var q := BuildSnapshot(c, ltpData)[Category][s];
            q.ltp.Price? <==> q.instrumentKey in ltpData
    ensures var q := BuildSnapshot(c, ltpData)[Category][s];
            q.ltp.Price? ==> q.ltp.value == ltpData[q.instrumentKey]
  {
  }

  /**
   * A failed quote request still yields a full snapshot: every catalog
   * symbol is present, and every one of them is `"N/A"`.
   */
  lemma FailedRequestAllNotAvailable<P>(c: Catalog, resp: Response<P>)
    requires resp.statusCode != StatusOk
    ensures BuildSnapshot(c, GetStockLtp(resp))[Category].Keys == Symbols(c)
    ensures forall s :: s in BuildSnapshot(c, GetStockLtp(resp))[Category] ==>
              BuildSnapshot(c, GetStockLtp(resp))[Category][s].ltp == NotAvailable
  {
    FailedRequestHasNoPrices(resp);
  }

  /** The dictionary view of a one-item catalog. */
  lemma OneStockCatalog(c: Catalog)
    requires |c| == 1
    ensures ToMap(c) == map[c[0].symbol := c[0].instrumentKey]
  {
  }

  /** One listed stock and a successful reply that prices it. */
  lemma PricedScenario()
    ensures var c: Catalog := [Entry("RELIANCE", "NSE_EQ|INE002A01018")];
            var resp := Response(200, Some(map["NSE_EQ|INE002A01018" := 2950.5]));
            BuildSnapshot(c, GetStockLtp(resp))
              == map["nifty50" := map["RELIANCE" := Quote("NSE_EQ|INE002A01018", Price(2950.5))]]
  {
    var c: Catalog := [Entry("RELIANCE", "NSE_EQ|INE002A01018")];
    var resp := Response(200, Some(map["NSE_EQ|INE002A01018" := 2950.5]));
    OneStockCatalog(c);
    var quotes := BuildSnapshot(c, GetStockLtp(resp))[Category];
    assert quotes.Keys == {"RELIANCE"};
    assert quotes == map["RELIANCE" := Quote("NSE_EQ|INE002A01018", Price(2950.5))];
  }

  /** The same stock and an HTTP 500 reply: the stock is still sent, as `"N/A"`. */
  lemma FailedScenario()
    ensures var c: Catalog := [Entry("RELIANCE", "NSE_EQ|INE002A01018")];
            var resp: Response<real> := Response(500, None);
            BuildSnapshot(c, GetStockLtp(resp))
              == map["nifty50" := map["RELIANCE" := Quote("NSE_EQ|INE002A01018", NotAvailable)]]
  {
    var c: Catalog := [Entry("RELIANCE", "NSE_EQ|INE002A01018")];
    var resp: Response<real> := Response(500, None);
    OneStockCatalog(c);
    var quotes := BuildSnapshot(c, GetStockLtp(resp))[Category];
    assert quotes.Keys == {"RELIANCE"};
    assert quotes == map["RELIANCE" := Quote("NSE_EQ|INE002A01018", NotAvailable)];
  }
}
