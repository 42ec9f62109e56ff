# Options wheel: selling engine, contract records and broker data layer

This project models the core of an options "wheel" bot and proves properties of that model.
The bot sells cash-secured puts on a list of underlyings under a buying-power budget.
It sells covered calls on shares it already holds.
It keeps a JSON ledger of every sale.

The model covers three parts of the bot.

- **The selling engine** (`core/execution.py`) is in module `Execution`.
  - The put pass walks the ranked candidates in order. It charges `100 × strike` to the budget before each order is submitted and stops at the first candidate it cannot afford.
  - A broker rejection carrying `"code":40310000` (insufficient options buying power) ends the pass softly. Any other failure ends it as a failure.
  - The call pass checks share coverage and sells the first best-scoring call: one order and at most one trade.
  - Both passes persist the trade ledger once, on every way out, and only when it is not empty.
- **The contract entity** (`models/contract.py`) is in module `Contracts`.
  - `Contract` is a class with the twelve data fields and an optional client.
  - `Update()` overwrites the market fields in place, and only those whose snapshot sub-record is present.
  - The constructors fill fields from a listed contract and, for `from_contract_snapshot`, from its snapshot.
  - `ToDict`/`FromDict` model the dictionary mapping behind the JSON files.
- **The broker data layer** (`core/broker_client.py`) is in module `Broker`.
  - Snapshot requests are split into batches of at most 100 symbols and merged last-write-wins.
  - Contract listing is paginated by cursor.
  - Liquidation closes every option position before any other position.

Supporting modules:

- `Market` holds the broker's value types and the error kinds.
- `Dates` holds the proleptic Gregorian calendar: day ordinals as Python's `toordinal` computes them, and the `YYYY-MM-DD` text with its parser.
- `Wrappers` holds `Option`, `Result` and `Outcome`.

The broker is an immutable `Broker.Client` value of oracle functions:

- the snapshot answer to each request;
- the page answer to each listing request;
- the reply to the n-th order of a pass;
- the open positions.

What the code does to the broker is returned as a trace:

- the listing requests and the pages answering them, in `sell_puts` and `sell_calls`;
- the batch snapshot requests of `get_option_snapshot` and `sell_puts`;
- the single-symbol snapshot request of a direct `update()` call;
- the positions closed by the liquidation;
- the orders submitted;
- the ledger writes (`persisted`).

The snapshot request that `__post_init__` makes while a client-bound contract is being built is not part of any trace.

The strategy collaborators `filter_underlying`, `filter_options`, `score_options` and `select_options` are uninterpreted functions in `Execution.Strategy`.

The clocks are parameters:

- `today` is the local date used for `dte`;
- `marketToday` is the New York date used for the listing window;
- `stamp(n)` is the UTC timestamp text of the n-th trade of a pass.

Every exception raised inside the `try` block of `sell_puts` or `sell_calls` is caught by the function's own `except Exception` clause. The model returns how the pass ended as an `Exit` tag: `Done`, `SoftStop` or `Failed(error)`.

Fatal broker errors and the coverage error never reach the caller: `core/execution.py:84-85` and `core/execution.py:150-151` catch and log them.

## Model

| member | source | states |
|---|---|---|
| `Execution.CommitPuts` | core/execution.py:45-78 | The put loop equals the reference `PutPass` from an empty ledger. The results stated by `PaidPrefix`, `TradesRecorded` and `StopReason` hold. |
| `Execution.PutPassPaid` | core/execution.py:45-49 | Orders go to a prefix of the candidates, in order, each with a strike. Remaining budget = initial budget − total cost of that prefix. It is never negative once an order was paid for. For a non-negative budget, the total cost is at most the initial budget. |
| `Execution.PutPassTrades` | core/execution.py:61-78 | One trade per accepted order, all but possibly the last order. Trade k sold candidate k: type "PUT", the contract's underlying and strike, expiration text, premium = bid × 100, action "SELL_TO_OPEN", and the order's status or "UNKNOWN". |
| `Execution.PutPassStops` | core/execution.py:45-59 | How the loop ended. Done: every order traded, and the next candidate (if any) is unaffordable. SoftStop: the last order was rejected with the buying-power code and has no trade. Failed: the next candidate has no strike, the last order was rejected otherwise, or its contract has no bid. |
| `Execution.PutPassFromStart` | core/execution.py:45-85 | The three properties above hold for a whole pass, starting from the full budget and an empty ledger. |
| `Execution.PutPassExtends` | core/execution.py:45-78 | The put loop (`PutPass`) only appends: the orders and trades it starts from stay a prefix, it submits at most one order per remaining candidate, and it records at most one trade per order. |
| `Execution.PutPass` | core/execution.py:45-78 | The reference put loop submits at most one order per remaining candidate and keeps the orders it started from. A non-negative budget never goes negative. |
| `Execution.RejectionExit` | core/execution.py:53-59 | A rejection is a soft stop iff it is an API error whose text contains `"code":40310000`. Anything else fails with the rejection's message. |
| `Execution.TradeOf` | core/execution.py:61-78 | A trade exists iff the contract has a bid. It carries the underlying, the option type, the strike, the expiration text, premium = bid × 100, "SELL_TO_OPEN", the timestamp, and the order's status or "UNKNOWN". |
| `Execution.ExpirationText` | core/execution.py:62-66 | A date expiration is rendered as text that parses back to that date. A text expiration is kept as given. |
| `Execution.StatusText` | core/execution.py:76 | The order's status when the reply carries one, otherwise "UNKNOWN". |
| `Execution.StopsAtFirstUnaffordable` | core/execution.py:46-49 | Strikes 4, 6, 12 with budget 1000: two orders, two trades, nothing left, and a normal end. |
| `Execution.NeverSkipsAhead` | core/execution.py:46-48 | Strikes 12 then 4 with budget 1000: no order at all. The cheaper second put is never tried. |
| `Execution.SoftStopKeepsEarlierTrades` | core/execution.py:45-88 | Five affordable puts, with the third rejected for buying power: a soft stop after three orders, two trades, and one ledger write holding both. |
| `Execution.FatalErrorKeepsEarlierTrades` | core/execution.py:51-88 | The same pass where the third order fails with an API error lacking the buying-power code (re-raised) or with any other exception: the pass fails with that message, and the two earlier trades are still written once. |
| `Execution.BuyingPowerErrorIsSoft` | core/execution.py:53-57 | The broker's insufficient-buying-power error text is classified as a soft stop. |
| `Execution.Persisted` | core/execution.py:86-88 | The ledger is written at most once, exactly when it holds a trade, and the write holds the whole ledger. |
| `Execution.SoldWithoutBidIsUnrecorded` | core/execution.py:51-78 | One affordable put without a bid that the broker accepts: the order is submitted, the pass fails on the premium, no trade is recorded and nothing is written. |
| `Execution.CheckedPassRecordsEveryAcceptance` | core/execution.py:45-78 | In the corrected loop, which reads the bid before submitting, every order but possibly the last has its trade. A last order without one was rejected by the broker. |
| `Execution.CheckedPassSkipsBidlessSale` | core/execution.py:51-78 | On the same input, the corrected loop submits no order. |
| `Execution.WithSnapshot` | core/execution.py:31-36 | A listed contract is kept iff the snapshot batch returned data for its symbol. |
| `Execution.WithSnapshotKeepsOrder` | core/execution.py:32-36 | The kept contracts are a subsequence of the listing, so listing order is preserved. |
| `Execution.WithSnapshotCounts` | core/execution.py:32-36 | Each listed contract with a snapshot is kept exactly as many times as it is listed, and every other one is dropped. |
| `Execution.Selection` | core/execution.py:40-43 | Nothing is selected when no put survives `filter_options`. Otherwise the selection is `select_options` of the filtered puts and their scores. |
| `Execution.Candidates` | core/execution.py:32-36 | Candidate k is `from_contract_snapshot` of the k-th kept contract with its snapshot, and that construction succeeds. |
| `Execution.SellPuts` | core/execution.py:11-88 | With no symbols, no buying power or no filtered underlying: no listing request, no snapshot request, no selection, no order, no trade, no write. Otherwise the listing is the complete cursor chain of put requests on the filtered underlyings (`ListingComplete`), the listed contracts are its pages concatenated, their symbols are fetched in batches of 100 and the snapshots are the merged answers. The candidates come from that listing and those snapshots, the selection is `select_options(put_options, score_options(put_options))`, and the loop is `PutPass` over it. The ledger is written once iff non-empty. |
| `Execution.ArgMax` | core/execution.py:115 | A valid index holding the largest score, with every earlier score strictly smaller (the first maximum). |
| `Execution.BindContracts` | core/execution.py:106-109 | One client-bound `Contract` per listed call, in listing order. Each one's record is `from_contract`'s fields after `__post_init__`'s update (see `Contracts.BoundContractFields`). |
| `Execution.SellCalls` | core/execution.py:91-154 | Fewer than 100 shares iff the pass fails with the coverage error, and then there is no listing request, no order and no trade. Otherwise the listing is the complete cursor chain of call requests on the symbol, and the listed contracts are its pages concatenated. At most one order and at most one trade. An order exists iff there are filtered options, their scores are non-empty and the first-maximum index is an option's. The order sells the best-scoring option. Empty scores fail with the empty-scores error, and a first-maximum index past the options fails with the index error, both without an order. A buying-power rejection gives a soft stop without a trade. A trade is the CALL record of the accepted order. The ledger is written once iff non-empty. |
| `Contracts.SnapshotRecord` | models/contract.py:46-64 | Fails with the missing-snapshot error iff the snapshot is absent. Otherwise `delta` is set iff greeks are present, `bid_price` and `ask_price` together iff a quote is present, and `last_price` iff a trade is present, each taking the sub-record's value. The other fields are those of `from_contract`. |
| `Contracts.DteCountsDays` | models/contract.py:40 | `dte` is 0 for a contract expiring today and 1 for one expiring tomorrow. |
| `Contracts.ContractFields` | models/contract.py:34-43 | `from_contract` copies the underlying, symbol and strike, lower-cases the kind, stores the expiration date, computes `dte` from the two day ordinals, sets `oi` iff open interest is present and then to its value, and leaves every market field empty. |
| `Contracts.BoundContractFields` | models/contract.py:25-43 | A contract built from a listing with a client bound holds what `from_contract_snapshot` builds from the snapshot the client finds for its symbol, or the plain listed fields when there is none. |
| `Contracts.LowerAscii` | models/contract.py:37 | `contract_type` has the kind's length and no upper-case letter, characters that were not upper-case are kept, and each upper-case letter becomes its own lower-case letter. |
| `Contracts.Refreshed` | models/contract.py:76-84 | The update overwrites `delta`, `bid_price`/`ask_price` and `last_price` only from the sub-records present in the response. Every other field is unchanged. |
| `Contracts.SnapshotRecordIsRefreshedFields` | models/contract.py:46-64 | `from_contract_snapshot` = the `from_contract` fields refreshed by the snapshot. |
| `Contracts.RefreshedIdempotent` | models/contract.py:76-84 | Refreshing twice with the same response is the same as refreshing once. |
| `Contracts.RefreshedWithoutData` | models/contract.py:77-84 | A response without data for the symbol, or with no sub-record, changes nothing. |
| `Contracts.PostInit` | models/contract.py:25-27 | Without a client the fields are kept as given. With one, only `delta`, `bid_price`, `ask_price` and `last_price` can change. |
| `Contracts.Contract.FromContract` | models/contract.py:30-43 | The `from_contract` fields, then `update()` when a client is bound. |
| `Contracts.Contract.Update` | models/contract.py:70-84 | Without a client: the no-client error and no change. With one: exactly one single-symbol snapshot request for the contract's symbol (returned as the trace), and the fields become `Refreshed` of the old fields by that response's entry for the symbol. |
| `Contracts.ToDict` | models/contract.py:86-100 | Succeeds iff `expiration_date` is a date. The keys are exactly the twelve data fields, never `client`, with the date in ISO form. |
| `Contracts.FromDictRejectsUnknownKeys` | models/contract.py:67-68 | A key that is not a data field makes `from_dict` fail with an unexpected-keyword error. The error's keys include it and hold no data field. |
| `Contracts.FromDict` | models/contract.py:67-68 | Keys outside the data fields fail with an unexpected-keyword error carrying those keys. A success needs the four required text fields, and the expiration is stored as the text given. |
| `Contracts.ToDictTextArgs` | models/contract.py:86-100 | `to_dict`'s output has no key outside the data fields, and each text argument read back from it is the field that was written. |
| `Contracts.ToDictNumberArgs` | models/contract.py:86-100 | Each numeric argument read back from `to_dict`'s output is the field that was written. |
| `Contracts.DecodeToDict` | models/contract.py:67-100 | Decoding `to_dict`'s output gives back every field, with the expiration as the reader maps its ISO text. |
| `Contracts.FromDictOfToDict` | models/contract.py:67-100 | `from_dict(to_dict(c))` reproduces every field of `c`, except that `expiration_date` comes back as its ISO string. |
| `Contracts.ReloadedContractCannotBeSaved` | models/contract.py:67-100 | `to_dict` on a contract reloaded by `from_dict` fails, because its expiration is text, not a date. |
| `Contracts.FromDictParsed` | models/contract.py:67-68 | The corrected reader. Unknown keys fail as in `FromDict`. A success has only data-field keys and an `expiration_date` text that parses as an ISO date, and the stored expiration is that date. A success can be written back by `to_dict`. |
| `Contracts.FromDictParsedOfToDict` | models/contract.py:67-100 | With the ISO text parsed back to a date, `from_dict(to_dict(c)) == c`. |
| `Dates.ToOrdinal` | models/contract.py:40 | The day number of a date in year y lies between 365·(y−1)+1 and 366·y, and 1 January of year 1 is day 1, as in Python's `toordinal`. |
| `Dates.DaysBeforeYearBounds` | models/contract.py:40 | The days before year y number between 365·y and 366·y. |
| `Dates.Iso` | models/contract.py:91 | The ISO text of a date has ten characters, with dashes at positions 4 and 7. |
| `Dates.OrdinalOfNextDay` | models/contract.py:40 | The day ordinal behind `dte` grows by exactly one from a date to the next calendar day, across month and year ends. |
| `Dates.ParseIsoOfIso` | models/contract.py:91 | The ISO text of a date parses back to the same date. |
| `Dates.IsoInjective` | models/contract.py:91 | Distinct dates have distinct ISO texts. |
| `Broker.GetOptionSnapshot` | core/broker_client.py:44-58 | A string issues exactly one request and returns its answer unchanged. A list is split into consecutive batches of at most 100, with the answers merged in order (an empty list gives no request and an empty map). Anything else fails with the not-symbols error. |
| `Broker.BatchesPartition` | core/broker_client.py:51-53 | The batches are consecutive slices of 1 to 100 symbols that concatenate to the input list. |
| `Broker.BatchingOf250` | core/broker_client.py:51-53 | 250 symbols give three batches of 100, 100 and 50. |
| `Broker.MergeAll` | core/broker_client.py:50-55 | No answer merges to the empty map. Otherwise every symbol of the last answer is in the merged map with that answer's value. |
| `Broker.MergeAllKeys` | core/broker_client.py:50-55 | A symbol is in the merged map iff some batch answer holds it. |
| `Broker.MergeAllLastWins` | core/broker_client.py:55 | On a symbol present in several answers, the last answer's value wins. |
| `Broker.MergeAllSnoc` | core/broker_client.py:55 | Merging one more answer is `dict.update` with that answer. |
| `Broker.MergeAnswersSnoc` | core/broker_client.py:51-55 | One more batch request merges its answer over the results so far. |
| `Broker.ContractKindFilter` | core/broker_client.py:70 | 'put' maps to PUT, 'call' to CALL, and anything else to no type filter. |
| `Broker.ListingRequest` | core/broker_client.py:65-79 | The first listing request: the underlyings, status ACTIVE, the window [today+min, today+max] in day numbers, the mapped type, limit 1000 and no page token. |
| `Broker.ChainedMeans` | core/broker_client.py:81-91 | In a chain of listing requests, each page is the broker's answer to its request. Every request is the base request with only the token changed. The first request has no token, and each later one carries the previous page's token. |
| `Broker.ChainedRequests` | core/broker_client.py:66-79 | Every request of the chain has the given underlyings, status ACTIVE, expiration window [today+min, today+max], the mapped contract type and limit 1000. |
| `Broker.GetOptionsContracts` | core/broker_client.py:64-91 | The requests and pages form a chain from the base request (see `ChainedMeans` and `ChainedRequests`). Every request uses the window [today+min, today+max], status ACTIVE, limit 1000 and the mapped type. The first request has no token and each later one carries the previous page's token. Every page but the last has a non-empty token, and the last has no token or an empty one. The result is the pages' contracts concatenated in arrival order. |
| `Broker.ConcatPagesSnoc` | core/broker_client.py:87 | Appending a page extends the accumulated contracts by that page's contracts. |
| `Broker.TwoPageListing` | core/broker_client.py:81-91 | A first page of 1000 contracts whose token "abc" leads to a page of 300 without a token: every complete listing from that first request is exactly those two pages, giving 1300 contracts, the first page's first. |
| `Broker.OptionPositionsAreOptions` | core/broker_client.py:96-98 | The first closing pass takes only option positions. |
| `Broker.OtherPositionsAreOthers` | core/broker_client.py:96-100 | The deferred list holds only non-option positions. |
| `Broker.PositionsSplit` | core/broker_client.py:96-102 | Together the two groups are a permutation of the positions. |
| `Broker.OptionsFirst` | core/broker_client.py:96-102 | In the closing order, no option position comes after a non-option position. |
| `Broker.OptionPositionsOfSplit` | core/broker_client.py:96-102 | The option positions of the closing order are the option positions in their original order. |
| `Broker.OtherPositionsOfSplit` | core/broker_client.py:96-102 | The other positions of the closing order are the deferred positions in their original order. |
| `Broker.OptionsOfAppend` | core/broker_client.py:96-98 | Selecting the option positions of a concatenation selects them from each part, in order. |
| `Broker.OthersOfAppend` | core/broker_client.py:96-100 | Selecting the other positions of a concatenation selects them from each part, in order. |
| `Broker.LiquidateAllPositions` | core/broker_client.py:93-102 | Closes every position exactly once (the closed multiset is the positions' multiset), every option position before any other position, with the relative order kept within each group. |

## Left out

- `log_trades` (`core/logger.py`) writes the ledger to a file. The write is returned as the `persisted` trace instead.
- The `logger` messages and every `strat_logger` call are side logging. `strat_logger` is taken as absent. In particular, the `to_dict()` calls made only for `strat_logger` are not modelled.
- `datetime.utcnow()`, `date.today()` and the New York date are clock reads. They are the parameters `stamp`, `today` and `marketToday`.
- The strategy functions are uninterpreted: their code is not part of this model. `filter_underlying` also receives the client in the source; the oracle does not.
- `EXPIRATION_MIN` and `EXPIRATION_MAX` come from `config/params.py`, which is not part of this model. They are parameters.
- The Alpaca SDK clients, the `*Signed` mixin classes, `get_positions`, `get_stock_latest_trade` and the body of `market_sell` are foreign pass-through calls. `market_sell` appears as the one-contract `SellOrder` request given to the order oracle.
- Order replies are indexed by the order's position within its pass. The model does not relate replies across passes or to broker state.
- The broker's own errors from snapshot and listing requests are not modelled. Those oracles always answer.
- `LiquidateAllPositions` does not model a failing `close_position` (`core/broker_client.py:98`, `core/broker_client.py:102`) or a failing `get_positions`. In the source either one stops the liquidation partway and propagates to the caller.
- An error raised by `log_trades` in the `finally` clause (`core/execution.py:86-88`, `core/execution.py:152-154`) is outside the `except` and reaches the caller of `sell_puts` or `sell_calls`. The model treats the write as always succeeding.
- Prices, strikes and budgets are `real`, so binary floating-point rounding is not modelled. A snapshot object is always truthy, as the SDK's objects are.
- `GetOptionsContracts`: the loop's termination is assumed through the `ListingEnds` precondition (the token chain ends after finitely many pages). The source loops forever on a broker that always returns a token.
- `LowerAscii` lower-cases ASCII letters only. Python's Unicode case mapping of the contract-type text is not modelled.
- `Execution.ExpirationText` renders `strftime('%Y-%m-%d')` as the zero-padded ISO form. Platforms whose `strftime` does not pad years below 1000 differ there.
- `Contracts.FromDict`: the unexpected-keyword error carries every unknown key. Python's TypeError names only the first one in the dictionary's order, which a map does not have.
- `save_to_json` and `load_from_json` do file I/O and are left out. The dictionary mapping underneath them is modelled.
- `FromDict`: the decoded values are limited to text, integer, float and null, and `dte` is read back only as an integer. A value of any other type is refused with `UnsupportedValue` although the dataclass would store it. A `client` key is refused as unexpected, while the dataclass would accept it.
- `Contracts.Contract.Update` uses the single-symbol snapshot answer looked up by the contract's symbol. An SDK answer that is not a dictionary is not modelled (it makes `data` None, which is the same as a missing entry).

## Findings

| source | as written | input that shows it | evidently intended | confidence | as-written member | corrected member |
|---|---|---|---|---|---|---|
| core/execution.py:51-78 | The order is submitted before `p.bid_price * 100` is computed. On a contract without a bid, the sale goes through and then the TypeError ends the pass, so the sale is in no ledger. The call pass does the same at `core/execution.py:118-140`. | one put with strike 1 and no bid, budget 1000, and a broker that accepts the order | read the bid before submitting, so every accepted order has its trade | not executed | `Execution.SoldWithoutBidIsUnrecorded` | `Execution.CheckedPassRecordsEveryAcceptance` |
| models/contract.py:67-68 | `from_dict` passes the stored `expiration_date` string straight to the dataclass, so a reloaded contract holds text where a date is expected. `to_dict` then raises AttributeError on `.isoformat()`. | any contract with a date expiration, sent through `to_dict`, then `from_dict`, then `to_dict` | `from_dict` parses the ISO text back into a date, so `from_dict(to_dict(c)) == c` | not executed | `Contracts.ReloadedContractCannotBeSaved` | `Contracts.FromDictParsedOfToDict` |
