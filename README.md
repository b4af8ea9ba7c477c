# webupstox price push: a Dafny model

The repository's `main.py` is a FastAPI server with one WebSocket endpoint, `/ws`.
For each connection it loops forever. On each tick it reads the `nifty50` stock
catalog (symbol to Upstox instrument key) from a Firebase store. If the catalog is
non-empty, it asks Upstox for the last traded prices of all instrument keys in one
batched request. It then sends the client one snapshot:

    {"nifty50": {SYMBOL: {"instrument_key": KEY, "ltp": PRICE or "N/A"}}}

This project models that per-tick logic:

- `wrappers.dfy`: `Option`.
- `stock_list.dfy`: the catalog and the fail-soft store read (`get_stock_list`).
  The catalog is a dictionary kept in insertion order: a sequence of entries with
  distinct symbols. This module also flattens the catalog's values into the batch
  request.
- `upstox_ltp.dfy`: the upstream reply and the fail-soft rule of `get_stock_ltp`.
  The reply is reduced to its status code and the body's `"ltp"` field. Prices are
  an opaque type parameter.
- `snapshots.dfy`: the snapshot comprehension, and what it promises about keys,
  instrument keys and the `"N/A"` sentinel.
- `endpoint.dfy`: one connection as a class. It keeps a log of the batch requests
  it issued and the snapshots it sent. `Tick` is one iteration of the loop body;
  `Run` is a finite stretch of the endless loop. The store's contents and the
  quote endpoint's answer are inputs of each tick. The quote endpoint is a
  function from the request's key list to a reply, so the model records exactly
  which request was issued.

`main.py` serves the one category `nifty50`. Each snapshot entry is
`{"instrument_key", "ltp"}`, and `"N/A"` is the sentinel for a missing price. The
endpoint runs one loop per connection and keeps no set of subscribers.

## Model

| member | source | states |
|---|---|---|
| `StockList.GetStockList` | main.py:27-36 | The catalog is empty exactly when the store holds nothing or an empty dictionary. Otherwise it is what the store holds. |
| `StockList.ToMap` | main.py:71-72 | The dictionary view's keys are exactly the catalog's symbols, and each symbol looks up its own entry's instrument key. |
| `StockList.ToMapSize` | main.py:71-72 | A catalog has as many distinct symbols as entries. |
| `StockList.InstrumentKeys` | main.py:65 | The batch request has one instrument key per catalog entry, in catalog order: the i-th key is the i-th entry's. |
| `StockList.InstrumentKeysAreValues` | main.py:65 | The request's key set is exactly the set of the catalog dictionary's values. |
| `UpstoxLtp.GetStockLtp` | main.py:48-53 | A non-empty price map comes only from a 200 reply and is that reply's `"ltp"` field. A 200 reply that has the field yields it whole. |
| `UpstoxLtp.FailedRequestHasNoPrices` | main.py:51-53 | A non-200 reply yields the empty price map. |
| `UpstoxLtp.MissingLtpFieldHasNoPrices` | main.py:50 | A 200 reply without an `"ltp"` field yields the empty price map. |
| `Snapshots.BuildSnapshot` | main.py:69-74 | The snapshot has exactly one top-level category, `"nifty50"`. |
| `Snapshots.SnapshotAnswersRequest` | main.py:65-72 | The snapshot's quotes carry exactly the instrument keys of the tick's batch request. |
| `Snapshots.SnapshotSymbols` | main.py:71-72 | The snapshot's symbol set equals the catalog's, with one quote per catalog entry. No symbol is dropped and none is added. |
| `Snapshots.SnapshotEntry` | main.py:71 | Each entry's quote carries that entry's instrument key. Its `ltp` is the upstream price for that key when the map has one, else `"N/A"`. |
| `Snapshots.PricesComeFromUpstream` | main.py:71 | Every quoted instrument key is a catalog value. A quote is priced exactly when its key is in the upstream map, and then with that map's value. |
| `Snapshots.FailedRequestAllNotAvailable` | main.py:48-74 | After a non-200 reply, the snapshot still lists every catalog symbol, each as `"N/A"`. |
| `Snapshots.PricedScenario` | main.py:69-74 | RELIANCE with a 200 reply pricing its key at 2950.5 gives `{"nifty50": {"RELIANCE": {key, 2950.5}}}`. |
| `Snapshots.FailedScenario` | main.py:69-74 | The same catalog with an HTTP 500 reply gives `{"nifty50": {"RELIANCE": {key, "N/A"}}}`. |
| `WebSocketEndpoint.TickRequests` | main.py:64-66 | A tick issues no request when the catalog is empty. Otherwise it issues exactly one, carrying the catalog's instrument keys. |
| `WebSocketEndpoint.TickMessages` | main.py:64-78 | A tick sends nothing when the catalog is empty. Otherwise it sends exactly one snapshot, built from the catalog and the reply to that tick's request. |
| `WebSocketEndpoint.TickKeepsPaired` | main.py:63-78 | A tick keeps the log paired. There is one request per sent snapshot. Each snapshot has the single category, as many symbols as its request had keys, and quotes exactly that request's instrument keys. |
| `WebSocketEndpoint.AtMostOneRequestPerTick` | main.py:62-80 | Over any run of ticks there are at most as many upstream requests as ticks, whatever the catalog sizes. There are exactly as many messages as requests, and the log stays paired. |
| `WebSocketEndpoint.Connection.constructor` | main.py:57-59 | A newly accepted connection has requested and sent nothing. |
| `WebSocketEndpoint.Connection.Tick` | main.py:63-78 | One loop iteration appends that tick's request (if any) and snapshot (if any) to the log, and keeps the log paired. |
| `WebSocketEndpoint.Connection.Run` | main.py:62-80 | Ticks run strictly one after another. The log grows by each tick's requests and messages, in tick order. |

## Left out

- Firebase initialisation and the read of `/stocks/nifty50` (main.py:11-17, 28-29): foreign SDK and environment I/O. Only the read's result is modelled, as `Option<Catalog>`. There, `None` stands for every falsy store value (nothing stored, `0`, `false`, `""`, `[]`). `if not stock_data` (main.py:31) turns each of these into `{}`, so the tick is skipped.
- The HTTP request to Upstox, its headers and the API keys (main.py:20-21, 40-46): network I/O. Only the reply's status code and the body's `"ltp"` field are modelled.
- WebSocket accept and send, the five-second sleep, logging, and `uvicorn.run` (main.py:56-62, 76-89): transport, timing and console output.
- Exceptions. In the source, any exception ends the connection's loop through the broad `except` (main.py:82-85). Such exceptions include a transport error from `requests.post`, a body that is not JSON, an `"ltp"` field that is not an object, or a non-empty store value that is not a dictionary. The model assumes well-shaped JSON and no transport error, so every tick completes.
- JSON rendering (main.py:76): the snapshot is a structured value. The key order of the rendered object, which in Python follows catalog order, is not modelled.
- Price numerics: prices are an opaque type parameter.
- Three names are undefined in the source: `DATABASE_URL` (main.py:16), `UPSTOX_LTP_URL` (main.py:46) and `asyncio` (main.py:80). As written, nothing runs at all. On first import `firebase_admin._apps` is empty, so main.py:16 evaluates `DATABASE_URL` and raises `NameError` while the module loads, and no connection is ever served. If that line were fixed, the first non-empty tick would still raise `NameError` at main.py:46 before sending anything, and even an empty tick would end at the sleep (main.py:80). The model follows the evident intent: these lines succeed.
- The endless `while True` (main.py:62): `Run` models any finite prefix of it. Nothing is said about the infinite run.
