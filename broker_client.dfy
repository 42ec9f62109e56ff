/**
 * The broker-facing data layer (`BrokerClient`): batched snapshot
 * retrieval with a last-write-wins merge, cursor-paginated contract
 * listing, order submission and position liquidation.
 *
 * The broker itself is an oracle: a `Client` holds the functions that
 * answer snapshot queries, listing requests and orders, and the list of
 * open positions.  What the client does to the broker (the requests it
 * issues, the positions it closes) is returned as a trace, in call order.
 */
module Broker {
  import opened Wrappers
  import opened Dates
  import opened Market

  /** At most this many symbols go into one snapshot request. */
  const SnapshotBatchSize: nat := 100

  /** Page size of every contract-listing request. */
  const PageLimit: nat := 1000

  type SnapshotMap = map<Symbol, Snapshot>

  /** The argument of `get_option_snapshot`: a `str`, a `list`, or anything else. */
  datatype SymbolArg = OneSymbol(symbol: Symbol) | SymbolList(symbols: seq<Symbol>) | OtherArg

  /** An `OptionSnapshotRequest`: one symbol, or a batch of symbols. */
  datatype SnapshotQuery = ForSymbol(symbol: Symbol) | ForBatch(symbols: seq<Symbol>)

  datatype AssetStatus = Active | Inactive

  /**
   * A `GetOptionContractsRequest`.  The expiration window is given by day
   * numbers (`Dates.ToOrdinal`).
   */
  datatype ContractsRequest = ContractsRequest(
    underlyingSymbols: seq<Symbol>,
    status: AssetStatus,
    expirationFrom: int,
    expirationTo: int,
    kind: Option<OptionKind>,
    limit: nat,
    pageToken: Option<string>)

  /** One page of the contract listing; `nextPageToken` is None when the attribute is absent. */
  datatype ContractsPage = ContractsPage(optionContracts: seq<RawContract>, nextPageToken: Option<string>)

  /**
   * The broker as seen by the core: the option data client, the trading
   * client's listing and order endpoints, and its open positions.
   * `submitOrder(n, o)` is the reply to `o` when it is the n-th order
   * (counting from 0) of the current selling pass.
   */
  datatype Client = Client(
    optionData: SnapshotQuery -> SnapshotMap,
    listContracts: ContractsRequest -> ContractsPage,
    submitOrder: (nat, OrderRequest) -> OrderReply,
    positions: seq<Position>)

  /** `m.get(symbol)`. */
  function Lookup(m: SnapshotMap, symbol: Symbol): Option<Snapshot> {
    if symbol in m then Some(m[symbol]) else None
  }

  /** `market_sell(symbol)`: one contract, sold at market, good for the day. */
  function SellOrder(symbol: Symbol): OrderRequest {
    MarketSell(symbol, 1)
  }

  // ---- snapshots: batching and merging -----------------------------------

  function Min(a: int, b: int): int {
    if a <= b then a else b
  }

  /** Number of batches of at most `SnapshotBatchSize` needed for `n` symbols. */
  function BatchCount(n: nat): nat {
    (n + SnapshotBatchSize - 1) / SnapshotBatchSize
  }

  /** Query k is the slice `symbols[100k : 100k+100]`, which starts inside the list. */
  predicate BatchesAt(symbols: seq<Symbol>, queries: seq<SnapshotQuery>) {
    forall k :: 0 <= k < |queries| ==>
      && SnapshotBatchSize * k < |symbols|
      && queries[k] == ForBatch(symbols[SnapshotBatchSize * k .. Min(SnapshotBatchSize * k + SnapshotBatchSize, |symbols|)])
  }

  /** `queries` are the consecutive slices `symbols[i:i+100]` for i = 0, 100, 200, ... */
  predicate IsBatching(symbols: seq<Symbol>, queries: seq<SnapshotQuery>) {
    |queries| == BatchCount(|symbols|) && BatchesAt(symbols, queries)
  }

  /** `m` batches of 100 cover `n` symbols exactly when the last one starts inside the list. */
  lemma BatchCountIs(n: nat, m: nat)
    requires n <= SnapshotBatchSize * m && (m == 0 || SnapshotBatchSize * (m - 1) < n)
    ensures BatchCount(n) == m
  {
  }

  /** One more loop step appends the next slice. */
  lemma BatchesSnoc(symbols: seq<Symbol>, queries: seq<SnapshotQuery>)
    requires BatchesAt(symbols, queries) && SnapshotBatchSize * |queries| < |symbols|
    ensures var i := SnapshotBatchSize * |queries|;
            BatchesAt(symbols, queries + [ForBatch(symbols[i .. Min(i + SnapshotBatchSize, |symbols|)])])
  {
  }

  /** The answers to `queries`, in order. */
  function Answers(data: SnapshotQuery -> SnapshotMap, queries: seq<SnapshotQuery>): (r: seq<SnapshotMap>)
    ensures |r| == |queries|
    ensures forall k :: 0 <= k < |r| ==> r[k] == data(queries[k])
  {
    seq(|queries|, k requires 0 <= k < |queries| => data(queries[k]))
  }

  /** `all_results.update(result)` for each result in turn, starting from `{}`. */
  function MergeAll(parts: seq<SnapshotMap>): (merged: SnapshotMap)
    ensures parts == [] ==> merged == map[]
    ensures parts != [] ==> forall key :: key in parts[|parts| - 1] ==> key in merged && merged[key] == parts[|parts| - 1][key]
  {
    if parts == [] then map[] else MergeAll(parts[..|parts| - 1]) + parts[|parts| - 1]
  }

  /** The merged key set is the union of the key sets of the parts. */
  lemma {:induction false} MergeAllKeys(parts: seq<SnapshotMap>, key: Symbol)
    ensures key in MergeAll(parts) <==> exists i :: 0 <= i < |parts| && key in parts[i]
  {
    if parts != [] {
      var init := parts[..|parts| - 1];
      MergeAllKeys(init, key);
      if key in MergeAll(parts) && key !in parts[|parts| - 1] {
        var i :| 0 <= i < |init| && key in init[i];
        assert key in parts[i];
      }
      if exists i :: 0 <= i < |parts| && key in parts[i] {
        var i :| 0 <= i < |parts| && key in parts[i];
        if i < |init| {
          assert key in init[i];
        }
      }
    }
  }

  /** On a key present in several parts, the last part holding it wins. */
  lemma {:induction false} MergeAllLastWins(parts: seq<SnapshotMap>, i: nat, key: Symbol)
    requires i < |parts| && key in parts[i]
    requires forall j :: i < j < |parts| ==> key !in parts[j]
    ensures key in MergeAll(parts) && MergeAll(parts)[key] == parts[i][key]
  {
    var last := |parts| - 1;
    if i < last {
      var init := parts[..last];
      MergeAllLastWins(init, i, key);
    }
  }

  /** Appending one more part to the merge, as one loop step does. */
  lemma MergeAllSnoc(parts: seq<SnapshotMap>, m: SnapshotMap)
    ensures MergeAll(parts + [m]) == MergeAll(parts) + m
  {
    assert (parts + [m])[..|parts|] == parts;
  }

  /** Answering and merging one more query, as one loop step does. */
  lemma MergeAnswersSnoc(data: SnapshotQuery -> SnapshotMap, queries: seq<SnapshotQuery>, q: SnapshotQuery)
    ensures MergeAll(Answers(data, queries + [q])) == MergeAll(Answers(data, queries)) + data(q)
  {
    assert Answers(data, queries + [q]) == Answers(data, queries) + [data(q)];
    MergeAllSnoc(Answers(data, queries), data(q));
  }

  /** The symbols of the batch queries, in order. */
  function BatchedSymbols(queries: seq<SnapshotQuery>): seq<Symbol> {
    if queries == [] then []
    else BatchedSymbols(queries[..|queries| - 1])
         + (match queries[|queries| - 1] case ForBatch(b) => b case ForSymbol(s) => [s])
  }

  /** The batches partition the input: each holds 1 to 100 symbols, and together, in order, they are the input. */
  lemma BatchesPartition(symbols: seq<Symbol>, queries: seq<SnapshotQuery>)
    requires IsBatching(symbols, queries)
    ensures BatchedSymbols(queries) == symbols
    ensures forall k :: 0 <= k < |queries| ==> queries[k].ForBatch? && 1 <= |queries[k].symbols| <= SnapshotBatchSize
  {
    var n := |symbols|;
    var j := 0;
    while j < |queries|
      invariant 0 <= j <= |queries|
      invariant BatchedSymbols(queries[..j]) == symbols[..Min(SnapshotBatchSize * j, n)]
    {
      assert queries[..j + 1][..j] == queries[..j];
      assert symbols[..Min(SnapshotBatchSize * (j + 1), n)]
          == symbols[..Min(SnapshotBatchSize * j, n)] + queries[j].symbols;
      j := j + 1;
    }
    assert queries[..|queries|] == queries;
  }

  /** 250 symbols are fetched in three requests of 100, 100 and 50. */
  lemma BatchingOf250(symbols: seq<Symbol>, queries: seq<SnapshotQuery>)
    requires |symbols| == 250 && IsBatching(symbols, queries)
    ensures |queries| == 3
    ensures |queries[0].symbols| == 100 && |queries[1].symbols| == 100 && |queries[2].symbols| == 50
  {
  }

  /**
   * `get_option_snapshot`: a string goes to the broker as it is; a list is
   * fetched in consecutive batches of at most 100 whose results are merged,
   * later batches winning on a repeated key; anything else raises ValueError.
   */
  method GetOptionSnapshot(client: Client, arg: SymbolArg) returns (result: Result<SnapshotMap, Error>, queries: seq<SnapshotQuery>)
    ensures arg.OneSymbol? ==> queries == [ForSymbol(arg.symbol)] && result == Success(client.optionData(ForSymbol(arg.symbol)))
    ensures arg.OtherArg? ==> queries == [] && result == Failure(NotSymbols)
    ensures arg.SymbolList? ==> IsBatching(arg.symbols, queries)
    ensures arg.SymbolList? ==> result == Success(MergeAll(Answers(client.optionData, queries)))
    ensures arg.SymbolList? && arg.symbols == [] ==> queries == [] && result == Success(map[])
  {
    match arg {
      case OneSymbol(symbol) =>
        queries := [ForSymbol(symbol)];
        result := Success(client.optionData(ForSymbol(symbol)));
      case OtherArg =>
        queries := [];
        result := Failure(NotSymbols);
      case SymbolList(symbols) =>
        var n := |symbols|;
        var merged: SnapshotMap := map[];
        queries := [];
        var i := 0;
        while i < n
          invariant i == SnapshotBatchSize * |queries|
          invariant queries == [] || SnapshotBatchSize * (|queries| - 1) < n
          invariant BatchesAt(symbols, queries)
          invariant merged == MergeAll(Answers(client.optionData, queries))
        {
          var batch := symbols[i .. Min(i + SnapshotBatchSize, n)];
          var q := ForBatch(batch);
          var part := client.optionData(q);
          MergeAnswersSnoc(client.optionData, queries, q);
          BatchesSnoc(symbols, queries);
          merged := merged + part;
          queries := queries + [q];
          i := i + SnapshotBatchSize;
        }
        BatchCountIs(n, |queries|);
        result := Success(merged);
    }
  }

  // ---- contract listing: pagination ---------------------------------------

  /** `{'put': ContractType.PUT, 'call': ContractType.CALL}.get(contract_type, None)`. */
  function ContractKindFilter(contractType: Option<string>): (k: Option<OptionKind>)
    ensures k == Some(Put) <==> contractType == Some("put")
    ensures k == Some(Call) <==> contractType == Some("call")
    ensures k == None <==> contractType != Some("put") && contractType != Some("call")
  {
    match contractType
    case Some(t) => if t == "put" then Some(Put) else if t == "call" then Some(Call) else None
    case None => None
  }

  /** The first request of a listing: active contracts expiring within [today+min, today+max], 1000 per page, no cursor. */
  function ListingRequest(underlyings: seq<Symbol>, contractType: Option<string>, today: Date, expirationMin: int, expirationMax: int): (r: ContractsRequest)
    ensures r.underlyingSymbols == underlyings && r.status == Active && r.limit == PageLimit && r.pageToken == None
    ensures r.expirationFrom == ToOrdinal(today) + expirationMin && r.expirationTo == ToOrdinal(today) + expirationMax
    ensures r.kind == ContractKindFilter(contractType)
  {
    ContractsRequest(underlyings, Active, ToOrdinal(today) + expirationMin, ToOrdinal(today) + expirationMax,
                     ContractKindFilter(contractType), PageLimit, None)
  }

  /** Following the cursor from `req`, the broker answers with a falsy token within `n` pages. */
  ghost predicate EndsWithin(listing: ContractsRequest -> ContractsPage, req: ContractsRequest, n: nat)
    decreases n
  {
    n > 0 && (var page := listing(req);
              !Truthy(page.nextPageToken) || EndsWithin(listing, req.(pageToken := page.nextPageToken), n - 1))
  }

  /** The broker's listing for `req` has finitely many pages. */
  ghost predicate ListingEnds(listing: ContractsRequest -> ContractsPage, req: ContractsRequest) {
    exists n: nat :: EndsWithin(listing, req, n)
  }

  /** The contracts of the pages, concatenated in arrival order. */
  function ConcatPages(pages: seq<ContractsPage>): seq<RawContract> {
    if pages == [] then [] else ConcatPages(pages[..|pages| - 1]) + pages[|pages| - 1].optionContracts
  }

  lemma ConcatPagesSnoc(pages: seq<ContractsPage>, p: ContractsPage)
    ensures ConcatPages(pages + [p]) == ConcatPages(pages) + p.optionContracts
  {
    assert (pages + [p])[..|pages|] == pages;
  }

  /** The request that follows `pages` in the cursor loop: `base`, carrying the last page's token if there is a page. */
  function NextRequest(base: ContractsRequest, pages: seq<ContractsPage>): ContractsRequest {
    base.(pageToken := if pages == [] then None else pages[|pages| - 1].nextPageToken)
  }

  /**
   * `requests` follow the cursor from `base` (each is the `NextRequest`
   * after the pages before it) and `pages` are the broker's answers to them.
   */
  predicate Chained(listing: ContractsRequest -> ContractsPage, base: ContractsRequest,
                    requests: seq<ContractsRequest>, pages: seq<ContractsPage>)
    decreases |requests|
  {
    && |requests| == |pages|
    && (requests != [] ==>
          var n := |requests| - 1;
          && Chained(listing, base, requests[..n], pages[..n])
          && requests[n] == NextRequest(base, pages[..n])
          && pages[n] == listing(requests[n]))
  }

  /** The next request of the cursor loop extends the chain. */
  lemma ChainedSnoc(listing: ContractsRequest -> ContractsPage, base: ContractsRequest,
                    requests: seq<ContractsRequest>, pages: seq<ContractsPage>)
    requires Chained(listing, base, requests, pages)
    ensures var req := NextRequest(base, pages);
            Chained(listing, base, requests + [req], pages + [listing(req)])
  {
    var req := NextRequest(base, pages);
    assert (requests + [req])[..|requests|] == requests;
    assert (pages + [listing(req)])[..|pages|] == pages;
  }

  /**
   * What a chain means request by request: every request is `base` with a
   * token, the first has none and each later one carries the previous
   * page's token; every page answers its request.
   */
  lemma {:induction false} ChainedMeans(listing: ContractsRequest -> ContractsPage, base: ContractsRequest,
                                        requests: seq<ContractsRequest>, pages: seq<ContractsPage>)
    requires Chained(listing, base, requests, pages)
    ensures |requests| == |pages|
    ensures forall k :: 0 <= k < |pages| ==> pages[k] == listing(requests[k])
    ensures forall k :: 0 <= k < |requests| ==> requests[k].(pageToken := base.pageToken) == base
    ensures requests != [] ==> requests[0].pageToken == None
    ensures forall k :: 0 < k < |requests| ==> requests[k].pageToken == pages[k - 1].nextPageToken
    decreases |requests|
  {
    if requests != [] {
      var n := |requests| - 1;
      ChainedMeans(listing, base, requests[..n], pages[..n]);
      forall k | 0 < k < |requests|
        ensures requests[k].pageToken == pages[k - 1].nextPageToken
      {
        if k < n {
          assert requests[k] == requests[..n][k] && pages[k - 1] == pages[..n][k - 1];
        } else {
          assert pages[..n][n - 1] == pages[k - 1];
        }
      }
      forall k | 0 <= k < |requests|
        ensures pages[k] == listing(requests[k]) && requests[k].(pageToken := base.pageToken) == base
      {
        if k < n {
          assert requests[k] == requests[..n][k] && pages[k] == pages[..n][k];
        }
      }
      if n > 0 {
        assert requests[0] == requests[..n][0];
      }
    }
  }

  /**
   * Every request of a listing chain asks for the same thing: the given
   * underlyings, ACTIVE contracts, the expiration window [today+min,
   * today+max], the mapped contract type and 1000 contracts per page.
   */
  lemma ChainedRequests(listing: ContractsRequest -> ContractsPage, underlyings: seq<Symbol>, contractType: Option<string>,
                        today: Date, expirationMin: int, expirationMax: int,
                        requests: seq<ContractsRequest>, pages: seq<ContractsPage>)
    requires Chained(listing, ListingRequest(underlyings, contractType, today, expirationMin, expirationMax), requests, pages)
    ensures forall k :: 0 <= k < |requests| ==>
              && requests[k].underlyingSymbols == underlyings
              && requests[k].status == Active
              && requests[k].expirationFrom == ToOrdinal(today) + expirationMin
              && requests[k].expirationTo == ToOrdinal(today) + expirationMax
              && requests[k].kind == ContractKindFilter(contractType)
              && requests[k].limit == PageLimit
  {
    var base := ListingRequest(underlyings, contractType, today, expirationMin, expirationMax);
    ChainedMeans(listing, base, requests, pages);
    forall k | 0 <= k < |requests|
      ensures requests[k].underlyingSymbols == underlyings && requests[k].limit == PageLimit
    {
      assert requests[k].(pageToken := None) == base;
    }
  }

  /** A page that points further leaves one page fewer to the end of the listing. */
  lemma EndsWithinStep(listing: ContractsRequest -> ContractsPage, req: ContractsRequest, n: nat)
    requires EndsWithin(listing, req, n) && Truthy(listing(req).nextPageToken)
    ensures n > 0 && EndsWithin(listing, req.(pageToken := listing(req).nextPageToken), n - 1)
  {
  }

  /**
   * A whole listing: the cursor chain from `base` up to and including the
   * first page whose token is falsy.
   */
  predicate ListingComplete(listing: ContractsRequest -> ContractsPage, base: ContractsRequest,
                            requests: seq<ContractsRequest>, pages: seq<ContractsPage>)
  {
    && pages != []
    && Chained(listing, base, requests, pages)
    && AllContinue(pages[..|pages| - 1])
    && !Truthy(pages[|pages| - 1].nextPageToken)
  }

  /**
   * A first page of 1000 contracts pointing to "abc", whose page holds 300
   * contracts and no token: the listing is exactly those two pages, 1300
   * contracts with the first page's first.
   */
  lemma TwoPageListing(listing: ContractsRequest -> ContractsPage, base: ContractsRequest,
                       requests: seq<ContractsRequest>, pages: seq<ContractsPage>)
    requires base.pageToken == None
    requires |listing(base).optionContracts| == 1000 && listing(base).nextPageToken == Some("abc")
    requires var second := listing(base.(pageToken := Some("abc")));
             |second.optionContracts| == 300 && second.nextPageToken == None
    requires ListingComplete(listing, base, requests, pages)
    ensures pages == [listing(base), listing(base.(pageToken := Some("abc")))]
    ensures |ConcatPages(pages)| == 1300
    ensures ConcatPages(pages)[..1000] == listing(base).optionContracts
  {
    ChainedMeans(listing, base, requests, pages);
    var p0, p1 := listing(base), listing(base.(pageToken := Some("abc")));
    assert requests[0] == base by {
      assert requests[0].(pageToken := None) == base;
    }
    assert pages[0] == p0;
    if |pages| == 1 {
      assert false;
    }
    assert requests[1] == base.(pageToken := Some("abc")) by {
      assert requests[1].(pageToken := None) == base;
    }
    assert pages[1] == p1;
    if |pages| > 2 {
      assert false;
    }
    assert pages == [p0, p1];
    ConcatPagesSnoc([], p0);
    assert [] + [p0] == [p0] && [p0] + [p1] == pages;
    ConcatPagesSnoc([p0], p1);
  }

  /** Every page of `pages` points to a further page. */
  predicate AllContinue(pages: seq<ContractsPage>) {
    forall k :: 0 <= k < |pages| ==> Truthy(pages[k].nextPageToken)
  }

  lemma AllContinueSnoc(pages: seq<ContractsPage>, p: ContractsPage)
    requires AllContinue(pages) && Truthy(p.nextPageToken)
    ensures AllContinue(pages + [p])
  {
  }

  /**
   * `get_options_contracts`: requests pages until a response carries no
   * (or an empty) `next_page_token`; every request after the first carries
   * the previous response's token; the pages' contracts are accumulated in
   * arrival order.
   */
  method GetOptionsContracts(client: Client, underlyings: seq<Symbol>, contractType: Option<string>,
                             today: Date, expirationMin: int, expirationMax: int)
    returns (contracts: seq<RawContract>, requests: seq<ContractsRequest>, pages: seq<ContractsPage>)
    requires ListingEnds(client.listContracts, ListingRequest(underlyings, contractType, today, expirationMin, expirationMax))
    ensures ListingComplete(client.listContracts, ListingRequest(underlyings, contractType, today, expirationMin, expirationMax),
                            requests, pages)
    ensures contracts == ConcatPages(pages)
  {
    var base := ListingRequest(underlyings, contractType, today, expirationMin, expirationMax);
    var req := base;
    contracts, requests, pages := [], [], [];
    ghost var fuel: nat :| EndsWithin(client.listContracts, base, fuel);
    while true
      invariant Chained(client.listContracts, base, requests, pages)
      invariant req == NextRequest(base, pages)
      invariant EndsWithin(client.listContracts, req, fuel)
      invariant AllContinue(pages)
      invariant contracts == ConcatPages(pages)
      decreases fuel
    {
      var response := client.listContracts(req);
      ChainedSnoc(client.listContracts, base, requests, pages);
      ConcatPagesSnoc(pages, response);
      contracts := contracts + response.optionContracts;
      requests := requests + [req];
      var pageToken := response.nextPageToken;
      if !Truthy(pageToken) {
        assert (pages + [response])[..|pages|] == pages;
        pages := pages + [response];
        break;
      }
      EndsWithinStep(client.listContracts, req, fuel);
      AllContinueSnoc(pages, response);
      pages := pages + [response];
      req := req.(pageToken := pageToken);
      fuel := fuel - 1;
    }
  }

  // ---- liquidation ---------------------------------------------------------

  predicate IsOption(p: Position) {
    p.assetClass == UsOption
  }

  /** Every position of `ps` is an option position. */
  predicate AllOptions(ps: seq<Position>) {
    forall k :: 0 <= k < |ps| ==> IsOption(ps[k])
  }

  /** No position of `ps` is an option position. */
  predicate NoOptions(ps: seq<Position>) {
    forall k :: 0 <= k < |ps| ==> !IsOption(ps[k])
  }

  /** The option positions of `ps`, in their order. */
  function OptionPositions(ps: seq<Position>): seq<Position> {
    if ps == [] then []
    else OptionPositions(ps[..|ps| - 1]) + (if IsOption(ps[|ps| - 1]) then [ps[|ps| - 1]] else [])
  }

  /** The other positions of `ps`, in their order. */
  function OtherPositions(ps: seq<Position>): seq<Position> {
    if ps == [] then []
    else OtherPositions(ps[..|ps| - 1]) + (if IsOption(ps[|ps| - 1]) then [] else [ps[|ps| - 1]])
  }

  /** The first closing pass takes option positions only. */
  lemma {:induction false} OptionPositionsAreOptions(ps: seq<Position>)
    ensures AllOptions(OptionPositions(ps))
  {
    if ps != [] {
      OptionPositionsAreOptions(ps[..|ps| - 1]);
    }
  }

  /** The deferred list takes non-option positions only. */
  lemma {:induction false} OtherPositionsAreOthers(ps: seq<Position>)
    ensures NoOptions(OtherPositions(ps))
  {
    if ps != [] {
      OtherPositionsAreOthers(ps[..|ps| - 1]);
    }
  }

  /** Splitting positions into options and others loses and duplicates none. */
  lemma {:induction false} PositionsSplit(ps: seq<Position>)
    ensures multiset(OptionPositions(ps)) + multiset(OtherPositions(ps)) == multiset(ps)
  {
    if ps != [] {
      var init, last := ps[..|ps| - 1], ps[|ps| - 1];
      PositionsSplit(init);
      assert ps == init + [last];
      assert multiset(ps) == multiset(init) + multiset{last};
      if IsOption(last) {
        assert OptionPositions(ps) == OptionPositions(init) + [last];
        assert multiset(OptionPositions(ps)) == multiset(OptionPositions(init)) + multiset{last};
        assert OtherPositions(ps) == OtherPositions(init);
      } else {
        assert OptionPositions(ps) == OptionPositions(init);
        assert OtherPositions(ps) == OtherPositions(init) + [last];
        assert multiset(OtherPositions(ps)) == multiset(OtherPositions(init)) + multiset{last};
      }
    }
  }

  /** In the closing order, no option position comes after a non-option one. */
  lemma OptionsFirst(ps: seq<Position>)
    ensures var closed := OptionPositions(ps) + OtherPositions(ps);
            forall i, j :: 0 <= i < j < |closed| && IsOption(closed[j]) ==> IsOption(closed[i])
  {
    var closed := OptionPositions(ps) + OtherPositions(ps);
    var m := |OptionPositions(ps)|;
    OptionPositionsAreOptions(ps);
    OtherPositionsAreOthers(ps);
    forall k | m <= k < |closed|
      ensures !IsOption(closed[k])
    {
      assert closed[k] == OtherPositions(ps)[k - m];
    }
    forall k | 0 <= k < m
      ensures IsOption(closed[k])
    {
      assert closed[k] == OptionPositions(ps)[k];
    }
  }

  /** Re-splitting the closing order gives back the option group. */
  lemma {:induction false} OptionPositionsOfSplit(ps: seq<Position>)
    ensures OptionPositions(OptionPositions(ps) + OtherPositions(ps)) == OptionPositions(ps)
  {
    var options, others := OptionPositions(ps), OtherPositions(ps);
    OptionPositionsAreOptions(ps);
    OtherPositionsAreOthers(ps);
    OptionsOfAppend(options, others);
    FilterKeepsAll(options);
    OptionsFilterDropsAll(others);
    assert options + [] == options;
  }

  /** Re-splitting the closing order gives back the other group. */
  lemma {:induction false} OtherPositionsOfSplit(ps: seq<Position>)
    ensures OtherPositions(OptionPositions(ps) + OtherPositions(ps)) == OtherPositions(ps)
  {
    var options, others := OptionPositions(ps), OtherPositions(ps);
    OptionPositionsAreOptions(ps);
    OtherPositionsAreOthers(ps);
    OthersOfAppend(options, others);
    FilterDropsAll(options);
    OthersFilterKeepsAll(others);
    assert [] + others == others;
  }

  lemma {:induction false} FilterKeepsAll(xs: seq<Position>)
    requires AllOptions(xs)
    ensures OptionPositions(xs) == xs
  {
    if xs != [] {
      var init, last := xs[..|xs| - 1], xs[|xs| - 1];
      FilterKeepsAll(init);
      assert OptionPositions(xs) == OptionPositions(init) + [last];
      assert xs == init + [last];
    }
  }

  lemma {:induction false} FilterDropsAll(xs: seq<Position>)
    requires AllOptions(xs)
    ensures OtherPositions(xs) == []
  {
    if xs != [] {
      var init, last := xs[..|xs| - 1], xs[|xs| - 1];
      FilterDropsAll(init);
      assert OtherPositions(xs) == OtherPositions(init) + [];
    }
  }

  lemma {:induction false} OthersFilterKeepsAll(xs: seq<Position>)
    requires NoOptions(xs)
    ensures OtherPositions(xs) == xs
  {
    if xs != [] {
      var init, last := xs[..|xs| - 1], xs[|xs| - 1];
      OthersFilterKeepsAll(init);
      assert OtherPositions(xs) == OtherPositions(init) + [last];
      assert xs == init + [last];
    }
  }

  lemma {:induction false} OptionsFilterDropsAll(xs: seq<Position>)
    requires NoOptions(xs)
    ensures OptionPositions(xs) == []
  {
    if xs != [] {
      var init, last := xs[..|xs| - 1], xs[|xs| - 1];
      OptionsFilterDropsAll(init);
      assert OptionPositions(xs) == OptionPositions(init) + [];
    }
  }

  /** Selecting the option positions distributes over concatenation. */
  lemma {:induction false} OptionsOfAppend(xs: seq<Position>, ys: seq<Position>)
    ensures OptionPositions(xs + ys) == OptionPositions(xs) + OptionPositions(ys)
    decreases |ys|
  {
    if ys == [] {
      assert xs + ys == xs;
    } else {
      var init, last := ys[..|ys| - 1], ys[|ys| - 1];
      OptionsOfAppend(xs, init);
      var zs := xs + ys;
      assert zs[..|zs| - 1] == xs + init && zs[|zs| - 1] == last;
      if IsOption(last) {
        assert OptionPositions(zs) == OptionPositions(xs + init) + [last];
        assert OptionPositions(ys) == OptionPositions(init) + [last];
        assert (OptionPositions(xs) + OptionPositions(init)) + [last] == OptionPositions(xs) + (OptionPositions(init) + [last]);
      } else {
        assert OptionPositions(zs) == OptionPositions(xs + init);
        assert OptionPositions(ys) == OptionPositions(init);
      }
    }
  }

  /** Selecting the other positions distributes over concatenation. */
  lemma {:induction false} OthersOfAppend(xs: seq<Position>, ys: seq<Position>)
    ensures OtherPositions(xs + ys) == OtherPositions(xs) + OtherPositions(ys)
    decreases |ys|
  {
    if ys == [] {
      assert xs + ys == xs;
    } else {
      var init, last := ys[..|ys| - 1], ys[|ys| - 1];
      OthersOfAppend(xs, init);
      var zs := xs + ys;
      assert zs[..|zs| - 1] == xs + init && zs[|zs| - 1] == last;
      if !IsOption(last) {
        assert OtherPositions(zs) == OtherPositions(xs + init) + [last];
        assert OtherPositions(ys) == OtherPositions(init) + [last];
        assert (OtherPositions(xs) + OtherPositions(init)) + [last] == OtherPositions(xs) + (OtherPositions(init) + [last]);
      } else {
        assert OtherPositions(zs) == OtherPositions(xs + init);
        assert OtherPositions(ys) == OtherPositions(init);
      }
    }
  }

  /**
   * `liquidate_all_positions`: closes every option position as it is met,
   * then every other position, in list order.  Returns the positions whose
   * symbols were passed to `close_position`, in call order.
   */
  method LiquidateAllPositions(client: Client) returns (closed: seq<Position>)
    ensures closed == OptionPositions(client.positions) + OtherPositions(client.positions)
    ensures multiset(closed) == multiset(client.positions)
    ensures forall i, j :: 0 <= i < j < |closed| && IsOption(closed[j]) ==> IsOption(closed[i])
    ensures OptionPositions(closed) == OptionPositions(client.positions)
    ensures OtherPositions(closed) == OtherPositions(client.positions)
  {
    var positions := client.positions;
    var toLiquidate: seq<Position> := [];
    closed := [];
    for i := 0 to |positions|
      invariant closed == OptionPositions(positions[..i])
      invariant toLiquidate == OtherPositions(positions[..i])
    {
      assert positions[..i + 1][..i] == positions[..i];
      var p := positions[i];
      if p.assetClass == UsOption {
        closed := closed + [p];
      } else {
        toLiquidate := toLiquidate + [p];
      }
    }
    assert positions[..|positions|] == positions;
    for j := 0 to |toLiquidate|
      invariant closed == OptionPositions(positions) + toLiquidate[..j]
    {
      closed := closed + [toLiquidate[j]];
      assert toLiquidate[..j + 1] == toLiquidate[..j] + [toLiquidate[j]];
    }
    assert toLiquidate[..|toLiquidate|] == toLiquidate;
    PositionsSplit(positions);
    OptionPositionsOfSplit(positions);
    OtherPositionsOfSplit(positions);
    OptionsFirst(positions);
  }
}
