/**
 * The `/ws` endpoint's loop, one connection at a time: each tick reads the
 * catalog, and when the catalog is non-empty issues one batched quote
 * request for all of its instrument keys and sends one snapshot. The store
 * read and the quote request are inputs of the tick; accept, JSON rendering
 * and the five-second sleep are not modelled.
 */
module WebSocketEndpoint {
  import opened Wrappers
  import opened StockList
  import opened UpstoxLtp
  import opened Snapshots

  /**
   * What the outside world supplies to one tick: what the store holds at the
   * category path, and how the quote endpoint answers a batch request.
   */
  datatype TickInput<P> = TickInput(stored: Option<Catalog>, fetch: seq<string> -> Response<P>)

  /** The batch requests one tick issues: none for an empty catalog, else exactly one. */
  function TickRequests<P>(input: TickInput<P>): (reqs: seq<seq<string>>)
    ensures |reqs| == (if GetStockList(input.stored) == [] then 0 else 1)
    ensures reqs != [] ==> reqs[0] == InstrumentKeys(input.stored.value)
  {
    var c := GetStockList(input.stored);
    if c == [] then [] else [InstrumentKeys(c)]
  }

  /** The messages one tick sends: none for an empty catalog, else exactly one snapshot. */
  function TickMessages<P>(input: TickInput<P>): (msgs: seq<Snapshot<P>>)
    ensures |msgs| == (if GetStockList(input.stored) == [] then 0 else 1)
    ensures msgs != [] ==>
      msgs[0] == BuildSnapshot(input.stored.value, GetStockLtp(input.fetch(InstrumentKeys(input.stored.value))))
  {
    var c := GetStockList(input.stored);
    if c == [] then [] else [BuildSnapshot(c, GetStockLtp(input.fetch(InstrumentKeys(c))))]
  }

  /** All batch requests of a run of ticks, in order. */
  function Requests<P>(inputs: seq<TickInput<P>>): seq<seq<string>> {
    if inputs == [] then [] else Requests(inputs[..|inputs| - 1]) + TickRequests(inputs[|inputs| - 1])
  }

  /** All messages of a run of ticks, in order. */
  function Messages<P>(inputs: seq<TickInput<P>>): seq<Snapshot<P>> {
    if inputs == [] then [] else Messages(inputs[..|inputs| - 1]) + TickMessages(inputs[|inputs| - 1])
  }

  /**
   * The log a connection keeps: every message sent was preceded by exactly
   * one batch request, the message has the single category, it lists as
   * many symbols as that request named instrument keys, and its quotes carry
   * exactly the instrument keys that request asked for.
   */
  predicate Paired<P>(requests: seq<seq<string>>, sent: seq<Snapshot<P>>) {
    && |requests| == |sent|
    && forall i :: 0 <= i < |sent| ==>
         && sent[i].Keys == {Category}
         && |sent[i][Category]| == |requests[i]|
         && QuotedKeys(sent[i][Category]) == (set k | k in requests[i])
  }

  /** One tick keeps the log paired. */
  lemma TickKeepsPaired<P>(requests: seq<seq<string>>, sent: seq<Snapshot<P>>, input: TickInput<P>)
    requires Paired(requests, sent)
    ensures Paired(requests + TickRequests(input), sent + TickMessages(input))
  {
    var c := GetStockList(input.stored);
    if c != [] {
      var ltp := GetStockLtp(input.fetch(InstrumentKeys(c)));
      SnapshotSymbols(c, ltp);
      SnapshotAnswersRequest(c, ltp);
      var rs, ms := requests + TickRequests(input), sent + TickMessages(input);
      assert rs[|sent|] == InstrumentKeys(c) && ms[|sent|] == BuildSnapshot(c, ltp);
      assert forall i :: 0 <= i < |sent| ==> rs[i] == requests[i] && ms[i] == sent[i];
    }
  }

  /**
   * A run of ticks issues at most one upstream request per tick, however
   * large the catalogs, and sends exactly one message per request.
   */
  lemma {:induction false} AtMostOneRequestPerTick<P>(inputs: seq<TickInput<P>>)
    ensures |Requests(inputs)| == |Messages(inputs)| <= |inputs|
    ensures Paired(Requests(inputs), Messages(inputs))
  {
    if inputs != [] {
      var p := inputs[..|inputs| - 1];
      AtMostOneRequestPerTick(p);
      TickKeepsPaired(Requests(p), Messages(p), inputs[|inputs| - 1]);
    }
  }

  /** Running one more tick extends both logs by that tick's share. */
  lemma RunStep<P>(inputs: seq<TickInput<P>>, n: nat)
    requires n < |inputs|
    ensures Requests(inputs[..n + 1]) == Requests(inputs[..n]) + TickRequests(inputs[n])
    ensures Messages(inputs[..n + 1]) == Messages(inputs[..n]) + TickMessages(inputs[n])
  {
    var prefix := inputs[..n + 1];
    assert prefix[..n] == inputs[..n] && prefix[n] == inputs[n];
  }

  /** Concatenation is associative. */
  lemma AppendAssoc<T>(a: seq<T>, b: seq<T>, c: seq<T>)
    ensures a + (b + c) == (a + b) + c
  {
  }

  /** The server side of one WebSocket connection, observed through what it requests and sends. */
  class Connection<P> {
    /** Batch quote requests issued upstream, in order. */
    var requests: seq<seq<string>>
    /** Snapshots sent to the client, in order. */
    var sent: seq<Snapshot<P>>

    ghost predicate Valid()
      reads this
    {
      Paired(requests, sent)
    }

    /** A freshly accepted connection has requested and sent nothing. */
    constructor ()
      ensures Valid() && requests == [] && sent == []
    {
      requests, sent := [], [];
    }

    /**
     * One iteration of the loop body: read the catalog; if it is empty do
     * nothing; otherwise request the prices of all its instrument keys in
     * one call and send the snapshot built from the reply.
     */
    method Tick(input: TickInput<P>)
      requires Valid()
      modifies this
      ensures Valid()
      ensures requests == old(requests) + TickRequests(input)
      ensures sent == old(sent) + TickMessages(input)
    {
      TickKeepsPaired(requests, sent, input);
      var stocks := GetStockList(input.stored);
      if stocks != [] {
        var keys := InstrumentKeys(stocks);
        var ltpData := GetStockLtp(input.fetch(keys));
        var finalData := BuildSnapshot(stocks, ltpData);
        requests := requests + [keys];
        sent := sent + [finalData];
      }
    }

    /** A finite stretch of the endpoint's endless loop: the ticks run one after another. */
    method Run(inputs: seq<TickInput<P>>)
      requires Valid()
      modifies this
      ensures Valid()
      ensures requests == old(requests) + Requests(inputs)
      ensures sent == old(sent) + Messages(inputs)
    {
      var n := 0;
      while n < |inputs|
        invariant 0 <= n <= |inputs|
        invariant Valid()
        invariant requests == old(requests) + Requests(inputs[..n])
        invariant sent == old(sent) + Messages(inputs[..n])
      {
        RunStep(inputs, n);
        AppendAssoc(old(requests), Requests(inputs[..n]), TickRequests(inputs[n]));
        AppendAssoc(old(sent), Messages(inputs[..n]), TickMessages(inputs[n]));
        Tick(inputs[n]);
        n := n + 1;
      }
      assert inputs[..n] == inputs;
    }
  }
}
