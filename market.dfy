/**
 * The values the broker hands back and takes in: raw option contracts,
 * market-data snapshots with their three independently optional
 * sub-records, positions, market orders and the broker's replies, plus
 * the errors the core raises.  Prices are `real`: the properties of the
 * core are about order and sums, not binary floating point.
 */
module Market {
  import opened Wrappers
  import opened Dates

  type Symbol = string

  /** `greeks` sub-record of an option snapshot. */
  datatype Greeks = Greeks(delta: real)

  /** `latest_quote` sub-record. */
  datatype Quote = Quote(bidPrice: real, askPrice: real)

  /** `latest_trade` sub-record. */
  datatype LastTrade = LastTrade(price: real)

  /** One option snapshot; each sub-record may be absent independently of the others. */
  datatype Snapshot = Snapshot(greeks: Option<Greeks>, latestQuote: Option<Quote>, latestTrade: Option<LastTrade>)

  /** A listed option contract as the broker describes it (`OptionContract`). */
  datatype RawContract = RawContract(
    underlyingSymbol: Symbol,
    symbol: Symbol,
    kind: string,              // the contract-type enum's value, e.g. "put"
    expirationDate: Date,
    strikePrice: real,
    openInterest: Option<int>)

  /** The contract-type filter of a listing request. */
  datatype OptionKind = Put | Call

  datatype AssetClass = UsEquity | UsOption | Crypto

  datatype Position = Position(symbol: Symbol, assetClass: AssetClass)

  /** A day market sell order (`MarketOrderRequest(side='sell', type='market', time_in_force='day')`). */
  datatype OrderRequest = MarketSell(symbol: Symbol, qty: nat)

  /** The broker's acknowledgement of a submitted order; `status` is None when the object has no such attribute. */
  datatype OrderAck = OrderAck(status: Option<string>)

  /** What submitting an order yields: an acknowledgement, an `APIError` with its message, or any other exception. */
  datatype OrderReply = Accepted(ack: OrderAck) | ApiError(message: string) | OtherError(message: string)

  /** The exceptions the core raises or lets through. */
  datatype Error =
    | MissingSnapshot(symbol: Symbol)        // from_contract_snapshot without snapshot data
    | NoClient                               // update() on an unbound contract
    | NotSymbols                             // get_option_snapshot on neither a str nor a list
    | InsufficientCoverage(symbol: Symbol)   // sell_calls with fewer than 100 shares
    | BrokerFailure(message: string)         // an order rejection other than the buying-power one
    | NoneArithmetic(symbol: Symbol)         // `100 * None` or `None * 100` on a contract lacking strike or bid
    | EmptyScores                            // np.argmax of an empty score list
    | ScoreIndexOutOfRange(index: nat)       // the argmax index past the end of the option list
    | NotADate                               // `isoformat()` on an expiration that is not a date
    | UnexpectedKeywords(keys: set<string>)  // `cls(**data)` with keys that are not fields (all of them)
    | MissingArgument(key: string)           // `cls(**data)` without a required field
    | UnsupportedValue(key: string)          // a dict value of a type the model does not carry in that field
    | BadIsoDate(text: string)               // `date.fromisoformat` on malformed text

  /** Python truthiness of an optional string such as `next_page_token`. */
  predicate Truthy(token: Option<string>) {
    token.Some? && token.value != ""
  }

  /** `pat in s` for strings. */
  predicate Contains(s: string, pat: string)
    decreases |s|
  {
    pat <= s || (s != [] && Contains(s[1..], pat))
  }

  lemma {:induction false} ContainsAt(s: string, pat: string, i: nat)
    requires i + |pat| <= |s| && s[i..i + |pat|] == pat
    ensures Contains(s, pat)
    decreases i
  {
    if i > 0 {
      assert s[1..][i - 1..i - 1 + |pat|] == s[i..i + |pat|];
      ContainsAt(s[1..], pat, i - 1);
    } else {
      assert pat <= s;
    }
  }
}
