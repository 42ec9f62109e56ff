/**
 * The `Contract` entity: one option instrument with its independently
 * optional market fields, the two constructors that build it from a
 * listed contract (with or without a snapshot), the in-place `update()`
 * that re-pulls market data through a bound client, and the
 * `to_dict`/`from_dict` mapping used for offline snapshots.
 */
module Contracts {
  import opened Wrappers
  import opened Dates
  import opened Market
  import opened Broker

  /**
   * What `expiration_date` holds: a date, as the constructors store it, or
   * the ISO text that `from_dict` puts back in its place.
   */
  datatype Expiry = OnDay(date: Date) | AsText(text: string)

  /** The twelve data fields of a contract (everything but `client`). */
  datatype ContractRecord = ContractRecord(
    underlying: Symbol,
    symbol: Symbol,
    contractType: string,
    expirationDate: Expiry,
    dte: Option<int>,
    strike: Option<real>,
    delta: Option<real>,
    bidPrice: Option<real>,
    askPrice: Option<real>,
    lastPrice: Option<real>,
    oi: Option<real>,
    underlyingPrice: Option<real>)

  predicate IsUpperAscii(c: char) {
    'A' <= c <= 'Z'
  }

  /** `s.title().lower()` on ASCII text: every upper-case letter lowered, everything else kept. */
  function LowerAscii(s: string): (r: string)
    ensures |r| == |s|
    ensures forall i :: 0 <= i < |r| ==> !IsUpperAscii(r[i])
    ensures forall i :: 0 <= i < |s| && !IsUpperAscii(s[i]) ==> r[i] == s[i]
    ensures forall i :: 0 <= i < |s| && IsUpperAscii(s[i]) ==>
              'a' <= r[i] <= 'z' && r[i] as int - 'a' as int == s[i] as int - 'A' as int
  {
    seq(|s|, i requires 0 <= i < |s| => if IsUpperAscii(s[i]) then (s[i] as int + 32) as char else s[i])
  }

  /** The fields `from_contract` fills from a listed contract; market fields stay None. */
  function ContractFields(raw: RawContract, today: Date): (r: ContractRecord)
    ensures r.underlying == raw.underlyingSymbol && r.symbol == raw.symbol && r.strike == Some(raw.strikePrice)
    ensures r.contractType == LowerAscii(raw.kind) && r.expirationDate == OnDay(raw.expirationDate)
    ensures r.dte == Some(ToOrdinal(raw.expirationDate) - ToOrdinal(today))
    ensures r.oi.Some? <==> raw.openInterest.Some?
    ensures r.oi.Some? ==> r.oi.value == raw.openInterest.value as real
    ensures r.delta.None? && r.bidPrice.None? && r.askPrice.None? && r.lastPrice.None? && r.underlyingPrice.None?
  {
    ContractRecord(
      underlying := raw.underlyingSymbol,
      symbol := raw.symbol,
      contractType := LowerAscii(raw.kind),
      expirationDate := OnDay(raw.expirationDate),
      dte := Some(ToOrdinal(raw.expirationDate) - ToOrdinal(today)),
      strike := Some(raw.strikePrice),
      delta := None,
      bidPrice := None,
      askPrice := None,
      lastPrice := None,
      oi := if raw.openInterest.Some? then Some(raw.openInterest.value as real) else None,
      underlyingPrice := None)
  }

  /** `dte` counts calendar days: 0 for a contract expiring today, 1 for one expiring tomorrow. */
  lemma DteCountsDays(raw: RawContract, today: Date)
    ensures raw.expirationDate == today ==> ContractFields(raw, today).dte == Some(0)
    ensures NextDay(today) == Some(raw.expirationDate) ==> ContractFields(raw, today).dte == Some(1)
  {
    if NextDay(today) == Some(raw.expirationDate) {
      OrdinalOfNextDay(today);
    }
  }

  /**
   * `from_contract_snapshot`: ValueError without a snapshot; otherwise the
   * listed fields plus each market field whose sub-record is present.
   */
  function SnapshotRecord(raw: RawContract, snapshot: Option<Snapshot>, today: Date): (r: Result<ContractRecord, Error>)
    ensures snapshot.None? <==> r.Failure?
    ensures snapshot.None? ==> r.error == MissingSnapshot(raw.symbol)
    ensures r.Success? ==>
              && (r.value.delta.Some? <==> snapshot.value.greeks.Some?)
              && (r.value.bidPrice.Some? <==> snapshot.value.latestQuote.Some?)
              && (r.value.askPrice.Some? <==> snapshot.value.latestQuote.Some?)
              && (r.value.lastPrice.Some? <==> snapshot.value.latestTrade.Some?)
              && r.value.underlyingPrice.None?
    ensures r.Success? && snapshot.value.greeks.Some? ==> r.value.delta.value == snapshot.value.greeks.value.delta
    ensures r.Success? && snapshot.value.latestQuote.Some? ==>
              r.value.bidPrice.value == snapshot.value.latestQuote.value.bidPrice
              && r.value.askPrice.value == snapshot.value.latestQuote.value.askPrice
    ensures r.Success? && snapshot.value.latestTrade.Some? ==> r.value.lastPrice.value == snapshot.value.latestTrade.value.price
    ensures r.Success? ==> r.value.(delta := None, bidPrice := None, askPrice := None, lastPrice := None) == ContractFields(raw, today)
  {
    match snapshot
    case None => Failure(MissingSnapshot(raw.symbol))
    case Some(s) =>
      Success(ContractFields(raw, today).(
        delta := if s.greeks.Some? then Some(s.greeks.value.delta) else None,
        bidPrice := if s.latestQuote.Some? then Some(s.latestQuote.value.bidPrice) else None,
        askPrice := if s.latestQuote.Some? then Some(s.latestQuote.value.askPrice) else None,
        lastPrice := if s.latestTrade.Some? then Some(s.latestTrade.value.price) else None))
  }

  /**
   * What `update()` does to the fields given the snapshot found for the
   * contract's symbol: each market field is overwritten only when its
   * sub-record is present; nothing else changes.
   */
  function Refreshed(r: ContractRecord, data: Option<Snapshot>): (r': ContractRecord)
    ensures r'.(delta := r.delta, bidPrice := r.bidPrice, askPrice := r.askPrice, lastPrice := r.lastPrice) == r
    ensures r'.delta == if data.Some? && data.value.greeks.Some? then Some(data.value.greeks.value.delta) else r.delta
    ensures r'.bidPrice == if data.Some? && data.value.latestQuote.Some? then Some(data.value.latestQuote.value.bidPrice) else r.bidPrice
    ensures r'.askPrice == if data.Some? && data.value.latestQuote.Some? then Some(data.value.latestQuote.value.askPrice) else r.askPrice
    ensures r'.lastPrice == if data.Some? && data.value.latestTrade.Some? then Some(data.value.latestTrade.value.price) else r.lastPrice
  {
    match data
    case None => r
    case Some(s) =>
      var r1 := if s.greeks.Some? then r.(delta := Some(s.greeks.value.delta)) else r;
      var r2 := if s.latestQuote.Some? then r1.(bidPrice := Some(s.latestQuote.value.bidPrice), askPrice := Some(s.latestQuote.value.askPrice)) else r1;
      if s.latestTrade.Some? then r2.(lastPrice := Some(s.latestTrade.value.price)) else r2
  }

  /** Building from a snapshot is building from the listing and then applying that snapshot. */
  lemma SnapshotRecordIsRefreshedFields(raw: RawContract, s: Snapshot, today: Date)
    ensures SnapshotRecord(raw, Some(s), today) == Success(Refreshed(ContractFields(raw, today), Some(s)))
  {
  }

  /** Applying the same snapshot twice changes nothing more than applying it once. */
  lemma RefreshedIdempotent(r: ContractRecord, data: Option<Snapshot>)
    ensures Refreshed(Refreshed(r, data), data) == Refreshed(r, data)
  {
  }

  /** A missing snapshot, or one without sub-records, leaves every field as it was. */
  lemma RefreshedWithoutData(r: ContractRecord)
    ensures Refreshed(r, None) == r
    ensures Refreshed(r, Some(Snapshot(None, None, None))) == r
  {
  }

  /** The snapshot `update()` finds for `symbol`: the single-symbol request's answer, looked up by that symbol. */
  function SymbolSnapshot(client: Client, symbol: Symbol): Option<Snapshot> {
    Lookup(client.optionData(ForSymbol(symbol)), symbol)
  }

  /**
   * A contract built from a listing with a client bound carries exactly
   * what `from_contract_snapshot` would build from the snapshot the client
   * finds for its symbol, and the bare listed fields when there is none.
   */
  lemma BoundContractFields(raw: RawContract, today: Date, client: Client)
    ensures var data := SymbolSnapshot(client, raw.symbol);
            data.Some? ==> PostInit(ContractFields(raw, today), Some(client)) == SnapshotRecord(raw, data, today).value
    ensures SymbolSnapshot(client, raw.symbol).None? ==>
              PostInit(ContractFields(raw, today), Some(client)) == ContractFields(raw, today)
  {
    var data := SymbolSnapshot(client, raw.symbol);
    if data.Some? {
      SnapshotRecordIsRefreshedFields(raw, data.value, today);
    }
  }

  /** The fields after `__post_init__`: refreshed through the client when there is one. */
  function PostInit(r: ContractRecord, client: Option<Client>): (r': ContractRecord)
    ensures client.None? ==> r' == r
    ensures r'.(delta := r.delta, bidPrice := r.bidPrice, askPrice := r.askPrice, lastPrice := r.lastPrice) == r
  {
    if client.Some? then Refreshed(r, SymbolSnapshot(client.value, r.symbol)) else r
  }

  /** One option contract; `update()` changes its market fields in place. */
  class Contract {
    var underlying: Symbol
    var symbol: Symbol
    var contractType: string
    var expirationDate: Expiry
    var dte: Option<int>
    var strike: Option<real>
    var delta: Option<real>
    var bidPrice: Option<real>
    var askPrice: Option<real>
    var lastPrice: Option<real>
    var oi: Option<real>
    var underlyingPrice: Option<real>
    var client: Option<Client>

    /** The data fields, as a value. */
    function Record(): ContractRecord
      reads this
    {
      ContractRecord(underlying, symbol, contractType, expirationDate, dte, strike,
                     delta, bidPrice, askPrice, lastPrice, oi, underlyingPrice)
    }

    /** `Contract.from_contract(contract, client)`. */
    constructor FromContract(raw: RawContract, today: Date, client: Option<Client>)
      ensures this.client == client
      ensures Record() == PostInit(ContractFields(raw, today), client)
    {
      var r := ContractFields(raw, today);
      underlying, symbol, contractType, expirationDate := r.underlying, r.symbol, r.contractType, r.expirationDate;
      dte, strike, delta, bidPrice := r.dte, r.strike, r.delta, r.bidPrice;
      askPrice, lastPrice, oi, underlyingPrice := r.askPrice, r.lastPrice, r.oi, r.underlyingPrice;
      this.client := client;
      new;
      if client.Some? {
        var outcome, queries := Update();
      }
    }

    /**
     * `update()`: ValueError without a client; otherwise fetch the snapshot
     * for this symbol and overwrite only the market fields whose sub-record
     * it holds.
     */
    method Update() returns (outcome: Outcome<Error>, queries: seq<SnapshotQuery>)
      modifies this
      ensures client == old(client)
      ensures old(client).None? ==> outcome == Fail(NoClient) && queries == [] && Record() == old(Record())
      ensures old(client).Some? ==> queries == [ForSymbol(old(symbol))]
      ensures old(client).Some? ==>
                outcome == Pass && Record() == Refreshed(old(Record()), SymbolSnapshot(old(client).value, old(symbol)))
    {
      match client {
        case None =>
          outcome, queries := Fail(NoClient), [];
        case Some(c) =>
          var snapshot;
          snapshot, queries := GetOptionSnapshot(c, OneSymbol(symbol));
          var data := if snapshot.Success? then Lookup(snapshot.value, symbol) else None;
          if data.Some? && data.value.greeks.Some? {
            delta := Some(data.value.greeks.value.delta);
          }
          if data.Some? && data.value.latestQuote.Some? {
            bidPrice := Some(data.value.latestQuote.value.bidPrice);
            askPrice := Some(data.value.latestQuote.value.askPrice);
          }
          if data.Some? && data.value.latestTrade.Some? {
            lastPrice := Some(data.value.latestTrade.value.price);
          }
          outcome := Pass;
      }
    }
  }

  // ---- to_dict / from_dict ------------------------------------------------

  /** A value of the dictionary `to_dict` builds (what JSON can hold for these fields). */
  datatype Value = Null | Str(s: string) | Int(i: int) | Float(x: real)

  /** The keys `to_dict` writes. */
  const DataKeys: set<string> := {
    "underlying", "symbol", "contract_type", "expiration_date", "dte", "strike",
    "delta", "bid_price", "ask_price", "last_price", "oi", "underlying_price"}

  function FloatValue(x: Option<real>): Value {
    if x.Some? then Float(x.value) else Null
  }

  function IntValue(x: Option<int>): Value {
    if x.Some? then Int(x.value) else Null
  }

  /**
   * `to_dict()`: the twelve data fields with `expiration_date` in ISO form;
   * AttributeError when `expiration_date` is not a date.
   */
  function ToDict(r: ContractRecord): (d: Result<map<string, Value>, Error>)
    ensures d.Success? <==> r.expirationDate.OnDay?
    ensures d.Failure? ==> d.error == NotADate
    ensures d.Success? ==> d.value.Keys == DataKeys && "client" !in d.value
    ensures d.Success? ==> d.value["expiration_date"] == Str(Iso(r.expirationDate.date))
  {
    match r.expirationDate
    case AsText(_) => Failure(NotADate)
    case OnDay(day) => Success(map key | key in DataKeys :: Entry(r, day, key))
  }

  /** The value `to_dict` writes under `key`, with the expiration given as `day`. */
  function Entry(r: ContractRecord, day: Date, key: string): Value {
    if key == "underlying" then Str(r.underlying)
    else if key == "symbol" then Str(r.symbol)
    else if key == "contract_type" then Str(r.contractType)
    else if key == "expiration_date" then Str(Iso(day))
    else if key == "dte" then IntValue(r.dte)
    else if key == "strike" then FloatValue(r.strike)
    else if key == "delta" then FloatValue(r.delta)
    else if key == "bid_price" then FloatValue(r.bidPrice)
    else if key == "ask_price" then FloatValue(r.askPrice)
    else if key == "last_price" then FloatValue(r.lastPrice)
    else if key == "oi" then FloatValue(r.oi)
    else FloatValue(r.underlyingPrice)
  }

  /** A required text argument of the dataclass. */
  function TextArg(d: map<string, Value>, key: string): Result<string, Error> {
    if key !in d then Failure(MissingArgument(key))
    else match d[key]
      case Str(s) => Success(s)
      case _ => Failure(UnsupportedValue(key))
  }

  /** An optional float argument: absent or null gives None. */
  function FloatArg(d: map<string, Value>, key: string): Result<Option<real>, Error> {
    if key !in d then Success(None)
    else match d[key]
      case Null => Success(None)
      case Float(x) => Success(Some(x))
      case _ => Failure(UnsupportedValue(key))
  }

  /** An optional integer argument: absent or null gives None. */
  function IntArg(d: map<string, Value>, key: string): Result<Option<int>, Error> {
    if key !in d then Success(None)
    else match d[key]
      case Null => Success(None)
      case Int(i) => Success(Some(i))
      case _ => Failure(UnsupportedValue(key))
  }

  /** `Contract(**d)` with `expiration_date` read by `readExpiry`. */
  function DecodeDict(d: map<string, Value>, readExpiry: string -> Result<Expiry, Error>): Result<ContractRecord, Error> {
    if d.Keys - DataKeys != {} then Failure(UnexpectedKeywords(d.Keys - DataKeys))
    else
      var underlying :- TextArg(d, "underlying");
      var symbol :- TextArg(d, "symbol");
      var contractType :- TextArg(d, "contract_type");
      var expirationText :- TextArg(d, "expiration_date");
      var expiry :- readExpiry(expirationText);
      var dte :- IntArg(d, "dte");
      var strike :- FloatArg(d, "strike");
      var delta :- FloatArg(d, "delta");
      var bid :- FloatArg(d, "bid_price");
      var ask :- FloatArg(d, "ask_price");
      var last :- FloatArg(d, "last_price");
      var oi :- FloatArg(d, "oi");
      var underlyingPrice :- FloatArg(d, "underlying_price");
      Success(ContractRecord(underlying, symbol, contractType, expiry, dte, strike, delta, bid, ask, last, oi, underlyingPrice))
  }

  /** `from_dict(data)` as written: `expiration_date` keeps the text it was given. */
  function FromDict(d: map<string, Value>): (r: Result<ContractRecord, Error>)
    ensures d.Keys - DataKeys != {} ==> r == Failure(UnexpectedKeywords(d.Keys - DataKeys))
    ensures r.Success? ==>
              && d.Keys <= DataKeys
              && "underlying" in d && "symbol" in d && "contract_type" in d && "expiration_date" in d
              && d["expiration_date"].Str?
              && r.value.expirationDate == AsText(d["expiration_date"].s)
  {
    DecodeDict(d, s => Success(AsText(s)))
  }

  function ReadIsoDate(s: string): Result<Expiry, Error> {
    match ParseIso(s)
    case Some(day) => Success(OnDay(day))
    case None => Failure(BadIsoDate(s))
  }

  /** `from_dict` with `expiration_date` parsed back into a date (`date.fromisoformat`). */
  function FromDictParsed(d: map<string, Value>): (r: Result<ContractRecord, Error>)
    ensures d.Keys - DataKeys != {} ==> r == Failure(UnexpectedKeywords(d.Keys - DataKeys))
    ensures r.Success? ==>
              && d.Keys <= DataKeys && "expiration_date" in d && d["expiration_date"].Str?
              && ParseIso(d["expiration_date"].s).Some?
              && r.value.expirationDate == OnDay(ParseIso(d["expiration_date"].s).value)
    ensures r.Success? ==> ToDict(r.value).Success?
  {
    DecodeDict(d, ReadIsoDate)
  }

  /**
   * `cls(**data)` refuses any key that is not a data field.  The error
   * carries the set of all such keys; Python's TypeError names the first
   * one it meets, and a map has no such order.
   */
  lemma FromDictRejectsUnknownKeys(d: map<string, Value>, key: string)
    requires key in d && key !in DataKeys
    ensures FromDict(d).Failure? && FromDict(d).error.UnexpectedKeywords?
    ensures key in FromDict(d).error.keys && FromDict(d).error.keys !! DataKeys
  {
  }

  /** The text arguments `from_dict` reads back from `to_dict`'s output are the fields that were written. */
  lemma ToDictTextArgs(r: ContractRecord)
    requires r.expirationDate.OnDay?
    ensures var d := ToDict(r).value;
      && d.Keys - DataKeys == {}
      && TextArg(d, "underlying") == Success(r.underlying)
      && TextArg(d, "symbol") == Success(r.symbol)
      && TextArg(d, "contract_type") == Success(r.contractType)
      && TextArg(d, "expiration_date") == Success(Iso(r.expirationDate.date))
  {
    var d := ToDict(r).value;
    assert d["underlying"] == Str(r.underlying);
    assert d["symbol"] == Str(r.symbol);
    assert d["contract_type"] == Str(r.contractType);
  }

  /** The numeric arguments `from_dict` reads back from `to_dict`'s output are the fields that were written. */
  lemma ToDictNumberArgs(r: ContractRecord)
    requires r.expirationDate.OnDay?
    ensures var d := ToDict(r).value;
      && IntArg(d, "dte") == Success(r.dte)
      && FloatArg(d, "strike") == Success(r.strike)
      && FloatArg(d, "delta") == Success(r.delta)
      && FloatArg(d, "bid_price") == Success(r.bidPrice)
      && FloatArg(d, "ask_price") == Success(r.askPrice)
      && FloatArg(d, "last_price") == Success(r.lastPrice)
      && FloatArg(d, "oi") == Success(r.oi)
      && FloatArg(d, "underlying_price") == Success(r.underlyingPrice)
  {
    var d := ToDict(r).value;
    assert d["dte"] == IntValue(r.dte);
    assert d["strike"] == FloatValue(r.strike);
    assert d["delta"] == FloatValue(r.delta);
    assert d["bid_price"] == FloatValue(r.bidPrice);
    assert d["ask_price"] == FloatValue(r.askPrice);
    assert d["last_price"] == FloatValue(r.lastPrice);
    assert d["oi"] == FloatValue(r.oi);
    assert d["underlying_price"] == FloatValue(r.underlyingPrice);
  }

  /** Decoding `to_dict`'s output gives the record back with the expiration as read by `readExpiry`. */
  lemma DecodeToDict(r: ContractRecord, readExpiry: string -> Result<Expiry, Error>, e: Expiry)
    requires r.expirationDate.OnDay?
    requires readExpiry(Iso(r.expirationDate.date)) == Success(e)
    ensures DecodeDict(ToDict(r).value, readExpiry) == Success(r.(expirationDate := e))
  {
    ToDictTextArgs(r);
    ToDictNumberArgs(r);
  }

  /**
   * As written, `from_dict(to_dict(c))` gives back every field of `c`
   * except `expiration_date`, which comes back as its ISO text (and the
   * client, which is never serialised, is None).
   */
  lemma FromDictOfToDict(r: ContractRecord)
    requires r.expirationDate.OnDay?
    ensures ToDict(r).Success?
    ensures FromDict(ToDict(r).value) == Success(r.(expirationDate := AsText(Iso(r.expirationDate.date))))
  {
    DecodeToDict(r, s => Success(AsText(s)), AsText(Iso(r.expirationDate.date)));
  }

  /** Hence a reloaded contract cannot be saved again: its `to_dict` raises AttributeError. */
  lemma ReloadedContractCannotBeSaved(r: ContractRecord)
    requires r.expirationDate.OnDay?
    ensures FromDict(ToDict(r).value).Success?
    ensures ToDict(FromDict(ToDict(r).value).value) == Failure(NotADate)
  {
    FromDictOfToDict(r);
  }

  /** With the date parsed back, the round trip is lossless. */
  lemma FromDictParsedOfToDict(r: ContractRecord)
    requires r.expirationDate.OnDay?
    ensures FromDictParsed(ToDict(r).value) == Success(r)
  {
    ParseIsoOfIso(r.expirationDate.date);
    DecodeToDict(r, ReadIsoDate, r.expirationDate);
  }
}
