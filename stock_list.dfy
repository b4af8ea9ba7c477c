/**
 * The stock catalog read from the store under `/stocks/nifty50`: an ordered
 * dictionary from stock symbol to upstream instrument key, and the two pure
 * rules applied to it each tick: the fail-soft read (`get_stock_list`) and the
 * flattening of its values into the batch request (`list(stocks_data.values())`).
 */
module StockList {
  import opened Wrappers

  /** The one category this endpoint serves: the store path's last segment
      and the snapshot's only top-level key. */
  const Category: string := "nifty50"

  /** One dictionary item: a stock symbol and its instrument key. */
  datatype Entry = Entry(symbol: string, instrumentKey: string)

  /** A dictionary holds each key once. */
  predicate UniqueSymbols(c: seq<Entry>) {
    forall i, j :: 0 <= i < j < |c| ==> c[i].symbol != c[j].symbol
  }

  /** The catalog as the store returns it: a dictionary, kept in insertion order. */
  type Catalog = c: seq<Entry> | UniqueSymbols(c) witness []

  /** The dictionary's key set. */
  function Symbols(c: seq<Entry>): set<string> {
    set i | 0 <= i < |c| :: c[i].symbol
  }

  /** Symbols of a prefix extended by one entry. */
  lemma SymbolsSnoc(c: seq<Entry>)
    requires c != []
    ensures Symbols(c) == Symbols(c[..|c| - 1]) + {c[|c| - 1].symbol}
  {
  }

  /** Lookup view of the items: symbol to instrument key. */
  function ToMap(c: seq<Entry>): (d: map<string, string>)
    ensures d.Keys == Symbols(c)
    ensures UniqueSymbols(c) ==>
      forall i :: 0 <= i < |c| ==> d[c[i].symbol] == c[i].instrumentKey
  {
    if c == [] then map[]
    else
      var p, last := c[..|c| - 1], c[|c| - 1];
      SymbolsSnoc(c);
      assert UniqueSymbols(c) ==> UniqueSymbols(p) by {
        if UniqueSymbols(c) {
          forall i, j | 0 <= i < j < |p| ensures p[i].symbol != p[j].symbol {
            assert p[i] == c[i] && p[j] == c[j];
          }
        }
      }
      assert forall i :: 0 <= i < |p| ==> p[i] == c[i];
      ToMap(p)[last.symbol := last.instrumentKey]
  }

  /** A dictionary has as many keys as items. */
  lemma {:induction false} ToMapSize(c: Catalog)
    ensures |ToMap(c)| == |c|
  {
    if c != [] {
      var p := c[..|c| - 1];
      assert UniqueSymbols(p) by {
        forall i, j | 0 <= i < j < |p| ensures p[i].symbol != p[j].symbol {
          assert p[i] == c[i] && p[j] == c[j];
        }
      }
      ToMapSize(p);
      SymbolsSnoc(c);
      assert forall i :: 0 <= i < |p| ==> p[i] == c[i];
      assert c[|c| - 1].symbol !in Symbols(p);
      assert ToMap(c).Keys == ToMap(p).Keys + {c[|c| - 1].symbol};
    }
  }

  /**
   * The store read, failing soft: whatever the store holds at the category
   * path, or the empty catalog when it holds nothing (`None`) or an empty
   * dictionary. The caller treats the empty catalog as "skip this tick".
   */
  function GetStockList(stored: Option<Catalog>): (c: Catalog)
    ensures c == [] <==> stored.None? || stored.value == []
    ensures c != [] ==> stored == Some(c)
  {
    match stored
    case None => []
    case Some(data) => if |data| == 0 then [] else data
  }

  /**
   * The batch request's instrument keys: the catalog's values in catalog
   * order, one per symbol.
   */
  function InstrumentKeys(c: seq<Entry>): (keys: seq<string>)
    ensures |keys| == |c|
    ensures forall i :: 0 <= i < |c| ==> keys[i] == c[i].instrumentKey
  {
    if c == [] then [] else [c[0].instrumentKey] + InstrumentKeys(c[1..])
  }

  /** The request asks for exactly the instrument keys the dictionary maps its symbols to. */
  lemma InstrumentKeysAreValues(c: Catalog)
    ensures (set k | k in InstrumentKeys(c)) == ToMap(c).Values
  {
  }
}
