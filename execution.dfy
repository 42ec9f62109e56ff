/**
 * The selling engine (`core/execution.py`): the cash-secured put pass,
 * which walks the ranked candidates under a budget that is charged before
 * each order is submitted and stops at the first candidate it cannot
 * afford, and the covered-call pass, which sells the single best-scoring
 * call when enough shares are held.  Both collect a trade ledger and
 * persist it once, on every way out, when it is not empty.
 *
 * Every exception inside a pass is caught by the pass itself, so a caller
 * never sees one: how the pass ended is returned as an `Exit` tag.
 * The strategy heuristics are oracles (`Strategy`), the broker is a
 * `Broker.Client`, and the clock is `stamp(n)`, the UTC timestamp text
 * read when the n-th trade of the pass is recorded.
 */
module Execution {
  import opened Wrappers
  import opened Dates
  import opened Market
  import opened Broker
  import opened Contracts

  /** Shares per option contract: a put's cost is 100 x strike and a premium is 100 x bid. */
  const ContractMultiplier: real := 100.0

  /** Shares needed to cover one short call. */
  const SharesPerContract: real := 100.0

  /** The broker's error code for insufficient options buying power, as it appears in the error text. */
  const BuyingPowerCode: string := "\"code\":40310000"

  /** One executed sale, as the ledger file stores it. */
  datatype TradeRecord = TradeRecord(
    timestamp: string,
    ticker: Symbol,
    optionType: string,
    strike: Option<real>,
    expiration: string,
    premium: real,
    action: string,
    status: string)

  /** How a selling pass ended: normally, on a buying-power rejection, or on any other exception (caught and logged). */
  datatype Exit = Done | SoftStop | Failed(error: Error)

  /** The strategy collaborators `filter_underlying`, `filter_options`, `score_options` and `select_options`. */
  datatype Strategy = Strategy(
    filterUnderlying: (seq<Symbol>, real) -> seq<Symbol>,
    filterOptions: (seq<ContractRecord>, Option<real>) -> seq<ContractRecord>,
    scoreOptions: seq<ContractRecord> -> seq<real>,
    selectOptions: (seq<ContractRecord>, seq<real>) -> seq<ContractRecord>)

  /** The `expiration` text of a trade: `strftime('%Y-%m-%d')` of a date, else `str(exp_val) if exp_val else ''`. */
  function ExpirationText(e: Expiry): (text: string)
    ensures e.OnDay? ==> ParseIso(text) == Some(e.date)
    ensures e.AsText? ==> text == e.text
  {
    match e
    case OnDay(d) => ParseIsoOfIso(d); Iso(d)
    case AsText(s) => s
  }

  /** `getattr(order, 'status', 'UNKNOWN')`. */
  function StatusText(ack: OrderAck): (status: string)
    ensures ack.status.Some? ==> status == ack.status.value
    ensures ack.status.None? ==> status == "UNKNOWN"
  {
    if ack.status.Some? then ack.status.value else "UNKNOWN"
  }

  /** The trade recorded for a sold contract; None when `bid_price * 100` fails on a missing bid. */
  function TradeOf(p: ContractRecord, optionType: string, ack: OrderAck, timestamp: string): (t: Option<TradeRecord>)
    ensures t.Some? <==> p.bidPrice.Some?
    ensures t.Some? ==> && t.value.ticker == p.underlying && t.value.optionType == optionType && t.value.strike == p.strike
                        && t.value.premium == p.bidPrice.value * ContractMultiplier && t.value.action == "SELL_TO_OPEN"
                        && t.value.timestamp == timestamp && t.value.expiration == ExpirationText(p.expirationDate)
    ensures t.Some? && ack.status.Some? ==> t.value.status == ack.status.value
    ensures t.Some? && ack.status.None? ==> t.value.status == "UNKNOWN"
  {
    if p.bidPrice.None? then None
    else Some(TradeRecord(timestamp, p.underlying, optionType, p.strike, ExpirationText(p.expirationDate),
                          p.bidPrice.value * ContractMultiplier, "SELL_TO_OPEN", StatusText(ack)))
  }

  /** A rejected order: a soft stop when the error text carries the buying-power code, fatal otherwise. */
  function RejectionExit(reply: OrderReply): (e: Exit)
    requires !reply.Accepted?
    ensures e == SoftStop <==> reply.ApiError? && Contains(reply.message, BuyingPowerCode)
    ensures e != SoftStop ==> e == Failed(BrokerFailure(reply.message))
  {
    if reply.ApiError? && Contains(reply.message, BuyingPowerCode) then SoftStop else Failed(BrokerFailure(reply.message))
  }

  /** The `finally` clause: `log_trades(trades)` runs once if the ledger is non-empty, never otherwise. */
  function Persisted(trades: seq<TradeRecord>): (writes: seq<seq<TradeRecord>>)
    ensures |writes| <= 1
    ensures |writes| == 1 <==> trades != []
    ensures forall w :: w in writes ==> w == trades
  {
    if trades == [] then [] else [trades]
  }

  // ---- the put commit loop --------------------------------------------------

  /** Budget charged for selling one put on `p` (a contract without strike is never charged). */
  function Cost(p: ContractRecord): real {
    if p.strike.Some? then ContractMultiplier * p.strike.value else 0.0
  }

  function TotalCost(ps: seq<ContractRecord>): real {
    if ps == [] then 0.0 else TotalCost(ps[..|ps| - 1]) + Cost(ps[|ps| - 1])
  }

  /** The broker's reply to the k-th order of the pass when it sells the k-th candidate. */
  function ReplyAt(submitOrder: (nat, OrderRequest) -> OrderReply, selected: seq<ContractRecord>, k: nat): OrderReply
    requires k < |selected|
  {
    submitOrder(k, SellOrder(selected[k].symbol))
  }

  /** What the put loop leaves behind: its exit, the orders it submitted, the trades it recorded, the budget left. */
  datatype PassResult = PassResult(exit: Exit, orders: seq<Symbol>, trades: seq<TradeRecord>, remaining: real)

  /**
   * The put loop as a function of the candidates still to try, the budget
   * left, and the orders and trades so far: the reference definition the
   * loop of `CommitPuts` is proved against.
   */
  function PutPass(rest: seq<ContractRecord>, budget: real, submitOrder: (nat, OrderRequest) -> OrderReply,
                   stamp: nat -> string, orders: seq<Symbol>, trades: seq<TradeRecord>): (r: PassResult)
    ensures orders <= r.orders && |r.orders| <= |orders| + |rest|
    ensures budget >= 0.0 ==> r.remaining >= 0.0
    decreases |rest|
  {
    if rest == [] then PassResult(Done, orders, trades, budget)
    else
      var p := rest[0];
      if p.strike.None? then PassResult(Failed(NoneArithmetic(p.symbol)), orders, trades, budget)
      else if budget < Cost(p) then PassResult(Done, orders, trades, budget)
      else
        var left := budget - Cost(p);
        var reply := submitOrder(|orders|, SellOrder(p.symbol));
        var submitted := orders + [p.symbol];
        if !reply.Accepted? then PassResult(RejectionExit(reply), submitted, trades, left)
        else match TradeOf(p, "PUT", reply.ack, stamp(|trades|))
          case None => PassResult(Failed(NoneArithmetic(p.symbol)), submitted, trades, left)
          case Some(t) => PutPass(rest[1..], left, submitOrder, stamp, submitted, trades + [t])
  }

  /**
   * The pass only ever appends: the orders and trades it started from are
   * kept as a prefix, it submits at most one order per remaining candidate,
   * and it records at most one trade per order it submits.
   */
  lemma {:induction false} PutPassExtends(rest: seq<ContractRecord>, budget: real, submitOrder: (nat, OrderRequest) -> OrderReply,
                                          stamp: nat -> string, orders: seq<Symbol>, trades: seq<TradeRecord>)
    ensures var r := PutPass(rest, budget, submitOrder, stamp, orders, trades);
            && orders <= r.orders && |r.orders| <= |orders| + |rest|
            && trades <= r.trades && |r.trades| - |trades| <= |r.orders| - |orders|
    decreases |rest|
  {
    if rest != [] {
      var p := rest[0];
      if p.strike.Some? && Cost(p) <= budget {
        var reply := submitOrder(|orders|, SellOrder(p.symbol));
        if reply.Accepted? && p.bidPrice.Some? {
          var t := TradeOf(p, "PUT", reply.ack, stamp(|trades|)).value;
          PutPassExtends(rest[1..], budget - Cost(p), submitOrder, stamp, orders + [p.symbol], trades + [t]);
        }
      }
    }
  }

  /** The k-th trade of the pass sold the k-th candidate, accepted by the broker, at its bid. */
  predicate SoldAt(selected: seq<ContractRecord>, submitOrder: (nat, OrderRequest) -> OrderReply, stamp: nat -> string,
                   k: nat, t: TradeRecord)
    requires k < |selected|
  {
    var p := selected[k];
    && ReplyAt(submitOrder, selected, k).Accepted?
    && p.bidPrice.Some?
    && t == TradeRecord(stamp(k), p.underlying, "PUT", p.strike, ExpirationText(p.expirationDate),
                        p.bidPrice.value * ContractMultiplier, "SELL_TO_OPEN", StatusText(ReplyAt(submitOrder, selected, k).ack))
  }

  /**
   * The orders went to a prefix of the candidates, in candidate order, each
   * one charged to the budget before it was submitted, and the budget never
   * went below zero once an order was paid for.
   */
  predicate PaidPrefix(selected: seq<ContractRecord>, buyingPower: real, r: PassResult) {
    && |r.orders| <= |selected|
    && (forall k :: 0 <= k < |r.orders| ==> r.orders[k] == selected[k].symbol && selected[k].strike.Some?)
    && r.remaining == buyingPower - TotalCost(selected[..|r.orders|])
    && (buyingPower >= 0.0 || |r.orders| > 0 ==> r.remaining >= 0.0)
    && (buyingPower >= 0.0 ==> TotalCost(selected[..|r.orders|]) <= buyingPower)
  }

  /** Every accepted order recorded exactly one trade; only the last order may lack one. */
  predicate TradesRecorded(selected: seq<ContractRecord>, submitOrder: (nat, OrderRequest) -> OrderReply,
                           stamp: nat -> string, r: PassResult)
    requires |r.orders| <= |selected|
  {
    && |r.orders| - 1 <= |r.trades| <= |r.orders|
    && forall k :: 0 <= k < |r.trades| ==> SoldAt(selected, submitOrder, stamp, k, r.trades[k])
  }

  /**
   * Why the loop stopped: all candidates done or the next one unaffordable
   * (Done); the last order rejected for buying power (SoftStop); the next
   * candidate has no strike, the last order was rejected otherwise, or it was
   * accepted but its contract has no bid (Failed).
   */
  predicate StopReason(selected: seq<ContractRecord>, submitOrder: (nat, OrderRequest) -> OrderReply, r: PassResult)
    requires |r.trades| <= |r.orders| <= |selected|
  {
    var n := |r.orders|;
    && (r.exit == Done ==>
          |r.trades| == n && (n < |selected| ==> selected[n].strike.Some? && r.remaining < Cost(selected[n])))
    && (r.exit == SoftStop ==>
          && n >= 1 && |r.trades| == n - 1
          && ReplyAt(submitOrder, selected, n - 1).ApiError?
          && Contains(ReplyAt(submitOrder, selected, n - 1).message, BuyingPowerCode))
    && (r.exit.Failed? && |r.trades| == n ==> n < |selected| && selected[n].strike.None?)
    && (r.exit.Failed? && |r.trades| < n ==>
          var reply := ReplyAt(submitOrder, selected, n - 1);
          (reply.Accepted? && selected[n - 1].bidPrice.None?) || (!reply.Accepted? && RejectionExit(reply) == r.exit))
  }

  /** The state of the put loop after it has sold the first `i` candidates. */
  predicate Progress(selected: seq<ContractRecord>, buyingPower: real, submitOrder: (nat, OrderRequest) -> OrderReply,
                     stamp: nat -> string, i: nat, budget: real, orders: seq<Symbol>, trades: seq<TradeRecord>)
  {
    && i <= |selected|
    && |orders| == i && |trades| == i
    && (forall k :: 0 <= k < i ==> orders[k] == selected[k].symbol && selected[k].strike.Some?)
    && budget == buyingPower - TotalCost(selected[..i])
    && (buyingPower >= 0.0 || i > 0 ==> budget >= 0.0)
    && (forall k :: 0 <= k < i ==> SoldAt(selected, submitOrder, stamp, k, trades[k]))
  }

  /** Selling the i-th candidate successfully moves the loop state on to `i + 1`. */
  lemma ProgressStep(selected: seq<ContractRecord>, buyingPower: real, submitOrder: (nat, OrderRequest) -> OrderReply,
                     stamp: nat -> string, i: nat, budget: real, orders: seq<Symbol>, trades: seq<TradeRecord>)
    requires Progress(selected, buyingPower, submitOrder, stamp, i, budget, orders, trades)
    requires i < |selected| && selected[i].strike.Some? && Cost(selected[i]) <= budget
    requires submitOrder(i, SellOrder(selected[i].symbol)).Accepted? && selected[i].bidPrice.Some?
    ensures var p := selected[i];
            var t := TradeOf(p, "PUT", submitOrder(i, SellOrder(p.symbol)).ack, stamp(i)).value;
            Progress(selected, buyingPower, submitOrder, stamp, i + 1, budget - Cost(p), orders + [p.symbol], trades + [t])
  {
    assert selected[..i + 1][..i] == selected[..i];
  }

  /** A pass that stops before submitting anything more has paid for exactly the orders so far. */
  lemma PaidSoFar(selected: seq<ContractRecord>, buyingPower: real, submitOrder: (nat, OrderRequest) -> OrderReply,
                  stamp: nat -> string, i: nat, budget: real, orders: seq<Symbol>, trades: seq<TradeRecord>)
    requires Progress(selected, buyingPower, submitOrder, stamp, i, budget, orders, trades)
    requires i == |selected| || selected[i].strike.None? || budget < Cost(selected[i])
    ensures var r := PutPass(selected[i..], budget, submitOrder, stamp, orders, trades);
            PaidPrefix(selected, buyingPower, r) && |r.trades| <= |r.orders|
  {
    if i < |selected| {
      assert selected[i..][0] == selected[i];
    }
  }

  /** A pass that stops right after submitting the i-th order has paid for it out of the budget. */
  lemma PaidOneMore(selected: seq<ContractRecord>, buyingPower: real, submitOrder: (nat, OrderRequest) -> OrderReply,
                    stamp: nat -> string, i: nat, budget: real, orders: seq<Symbol>, trades: seq<TradeRecord>)
    requires Progress(selected, buyingPower, submitOrder, stamp, i, budget, orders, trades)
    requires i < |selected| && selected[i].strike.Some? && Cost(selected[i]) <= budget
    requires !(submitOrder(i, SellOrder(selected[i].symbol)).Accepted? && selected[i].bidPrice.Some?)
    ensures var r := PutPass(selected[i..], budget, submitOrder, stamp, orders, trades);
            PaidPrefix(selected, buyingPower, r) && |r.trades| <= |r.orders|
  {
    assert selected[i..][0] == selected[i];
    assert selected[..i + 1][..i] == selected[..i];
  }

  /** From any loop state, the orders of the rest of the pass are paid for out of a prefix of the candidates. */
  lemma {:induction false} PutPassPaid(selected: seq<ContractRecord>, buyingPower: real,
                                        submitOrder: (nat, OrderRequest) -> OrderReply, stamp: nat -> string,
                                        i: nat, budget: real, orders: seq<Symbol>, trades: seq<TradeRecord>)
    requires Progress(selected, buyingPower, submitOrder, stamp, i, budget, orders, trades)
    ensures var r := PutPass(selected[i..], budget, submitOrder, stamp, orders, trades);
            PaidPrefix(selected, buyingPower, r) && |r.trades| <= |r.orders|
    decreases |selected| - i
  {
    if i == |selected| || selected[i].strike.None? || budget < Cost(selected[i]) {
      PaidSoFar(selected, buyingPower, submitOrder, stamp, i, budget, orders, trades);
    } else {
      var p := selected[i];
      var reply := submitOrder(i, SellOrder(p.symbol));
      if reply.Accepted? && p.bidPrice.Some? {
        assert selected[i..][0] == p && selected[i..][1..] == selected[i + 1..];
        ProgressStep(selected, buyingPower, submitOrder, stamp, i, budget, orders, trades);
        var t := TradeOf(p, "PUT", reply.ack, stamp(i)).value;
        PutPassPaid(selected, buyingPower, submitOrder, stamp, i + 1, budget - Cost(p), orders + [p.symbol], trades + [t]);
      } else {
        PaidOneMore(selected, buyingPower, submitOrder, stamp, i, budget, orders, trades);
      }
    }
  }

  /** From any loop state, the rest of the pass records one trade per accepted order. */
  lemma {:induction false} PutPassTrades(selected: seq<ContractRecord>, buyingPower: real,
                                        submitOrder: (nat, OrderRequest) -> OrderReply, stamp: nat -> string,
                                        i: nat, budget: real, orders: seq<Symbol>, trades: seq<TradeRecord>)
    requires Progress(selected, buyingPower, submitOrder, stamp, i, budget, orders, trades)
    ensures var r := PutPass(selected[i..], budget, submitOrder, stamp, orders, trades);
            |r.trades| <= |r.orders| <= |selected| && TradesRecorded(selected, submitOrder, stamp, r)
    decreases |selected| - i
  {
    if i == |selected| {
      assert selected[..i] == selected;
    } else {
      var p := selected[i];
      assert selected[i..][0] == p && selected[i..][1..] == selected[i + 1..];
      if p.strike.Some? && Cost(p) <= budget {
        var reply := submitOrder(i, SellOrder(p.symbol));
        assert selected[..i + 1][..i] == selected[..i];
        if reply.Accepted? && p.bidPrice.Some? {
          ProgressStep(selected, buyingPower, submitOrder, stamp, i, budget, orders, trades);
          var t := TradeOf(p, "PUT", reply.ack, stamp(i)).value;
          PutPassTrades(selected, buyingPower, submitOrder, stamp, i + 1, budget - Cost(p), orders + [p.symbol], trades + [t]);
        }
      }
    }
  }

  /** From any loop state, the rest of the pass stops for one of the reasons `StopReason` lists. */
  lemma {:induction false} PutPassStops(selected: seq<ContractRecord>, buyingPower: real,
                                        submitOrder: (nat, OrderRequest) -> OrderReply, stamp: nat -> string,
                                        i: nat, budget: real, orders: seq<Symbol>, trades: seq<TradeRecord>)
    requires Progress(selected, buyingPower, submitOrder, stamp, i, budget, orders, trades)
    ensures var r := PutPass(selected[i..], budget, submitOrder, stamp, orders, trades);
            |r.trades| <= |r.orders| <= |selected| && StopReason(selected, submitOrder, r)
    decreases |selected| - i
  {
    if i == |selected| {
      assert selected[..i] == selected;
    } else {
      var p := selected[i];
      assert selected[i..][0] == p && selected[i..][1..] == selected[i + 1..];
      if p.strike.Some? && Cost(p) <= budget {
        var reply := submitOrder(i, SellOrder(p.symbol));
        assert selected[..i + 1][..i] == selected[..i];
        if reply.Accepted? && p.bidPrice.Some? {
          ProgressStep(selected, buyingPower, submitOrder, stamp, i, budget, orders, trades);
          var t := TradeOf(p, "PUT", reply.ack, stamp(i)).value;
          PutPassStops(selected, buyingPower, submitOrder, stamp, i + 1, budget - Cost(p), orders + [p.symbol], trades + [t]);
        }
      }
    }
  }

  /** The pass from its start satisfies the three descriptions. */
  lemma PutPassFromStart(selected: seq<ContractRecord>, buyingPower: real,
                         submitOrder: (nat, OrderRequest) -> OrderReply, stamp: nat -> string)
    ensures var r := PutPass(selected, buyingPower, submitOrder, stamp, [], []);
            && PaidPrefix(selected, buyingPower, r)
            && |r.trades| <= |r.orders|
            && TradesRecorded(selected, submitOrder, stamp, r)
            && StopReason(selected, submitOrder, r)
  {
    assert selected[..0] == [] && selected[0..] == selected;
    PutPassPaid(selected, buyingPower, submitOrder, stamp, 0, buyingPower, [], []);
    PutPassTrades(selected, buyingPower, submitOrder, stamp, 0, buyingPower, [], []);
    PutPassStops(selected, buyingPower, submitOrder, stamp, 0, buyingPower, [], []);
  }

  /**
   * The `for p in selected` loop of `sell_puts`: candidates are tried in
   * order; the loop stops at the first one whose cost exceeds the budget
   * left (it never skips ahead to a cheaper one); the cost is charged
   * before the order is submitted; a buying-power rejection stops softly,
   * any other failure ends the pass; each accepted order records one trade.
   */
  method CommitPuts(selected: seq<ContractRecord>, buyingPower: real, submitOrder: (nat, OrderRequest) -> OrderReply,
                    stamp: nat -> string) returns (r: PassResult)
    ensures r == PutPass(selected, buyingPower, submitOrder, stamp, [], [])
    ensures PaidPrefix(selected, buyingPower, r)
    ensures |r.trades| <= |r.orders|
    ensures TradesRecorded(selected, submitOrder, stamp, r)
    ensures StopReason(selected, submitOrder, r)
  {
    var budget := buyingPower;
    var orders: seq<Symbol> := [];
    var trades: seq<TradeRecord> := [];
    var exit := Done;
    var i := 0;
    while i < |selected|
      invariant 0 <= i <= |selected|
      invariant |orders| == i && |trades| == i
      invariant PutPass(selected[i..], budget, submitOrder, stamp, orders, trades) == PutPass(selected, buyingPower, submitOrder, stamp, [], [])
    {
      var p := selected[i];
      assert selected[i..][0] == p && selected[i..][1..] == selected[i + 1..];
      if p.strike.None? {
        exit := Failed(NoneArithmetic(p.symbol));
        break;
      }
      var cost := ContractMultiplier * p.strike.value;
      if budget < cost {
        break;
      }
      budget := budget - cost;
      var reply := submitOrder(|orders|, SellOrder(p.symbol));
      orders := orders + [p.symbol];
      if !reply.Accepted? {
        exit := RejectionExit(reply);
        break;
      }
      if p.bidPrice.None? {
        exit := Failed(NoneArithmetic(p.symbol));
        break;
      }
      var trade := TradeOf(p, "PUT", reply.ack, stamp(|trades|)).value;
      trades := trades + [trade];
      i := i + 1;
    }
    r := PassResult(exit, orders, trades, budget);
    PutPassFromStart(selected, buyingPower, submitOrder, stamp);
  }
  // ---- worked put passes -----------------------------------------------------

  /** A listed put with the given strike and a bid of 1.00. */
  function TestPut(symbol: Symbol, strike: real): ContractRecord {
    ContractRecord(symbol, symbol, "put", AsText(""), None, Some(strike), None, Some(1.0), None, None, None, None)
  }

  /** Strikes 4, 6, 12 against a budget of 1000: the first two are sold (400 + 600) and the third stops the loop. */
  lemma StopsAtFirstUnaffordable(submitOrder: (nat, OrderRequest) -> OrderReply, stamp: nat -> string)
    requires forall n, o :: submitOrder(n, o).Accepted?
    ensures var r := PutPass([TestPut("A", 4.0), TestPut("B", 6.0), TestPut("C", 12.0)], 1000.0, submitOrder, stamp, [], []);
            r.exit == Done && r.orders == ["A", "B"] && |r.trades| == 2 && r.remaining == 0.0
  {
    var ps := [TestPut("A", 4.0), TestPut("B", 6.0), TestPut("C", 12.0)];
    assert ps[1..] == [TestPut("B", 6.0), TestPut("C", 12.0)];
    assert ps[1..][1..] == [TestPut("C", 12.0)];
  }

  /** Strikes 12 then 4 against a budget of 1000: nothing is sold, the cheaper second put is never tried. */
  lemma NeverSkipsAhead(submitOrder: (nat, OrderRequest) -> OrderReply, stamp: nat -> string)
    ensures var r := PutPass([TestPut("A", 12.0), TestPut("B", 4.0)], 1000.0, submitOrder, stamp, [], []);
            r.exit == Done && r.orders == [] && r.trades == [] && r.remaining == 1000.0
  {
  }

  /** Five affordable puts where the broker refuses the third for buying power: two trades, persisted in one write. */
  lemma SoftStopKeepsEarlierTrades(submitOrder: (nat, OrderRequest) -> OrderReply, stamp: nat -> string, message: string)
    requires submitOrder(0, SellOrder("A")).Accepted? && submitOrder(1, SellOrder("B")).Accepted?
    requires submitOrder(2, SellOrder("C")) == ApiError(message) && Contains(message, BuyingPowerCode)
    ensures var r := PutPass([TestPut("A", 1.0), TestPut("B", 1.0), TestPut("C", 1.0), TestPut("D", 1.0), TestPut("E", 1.0)],
                             10000.0, submitOrder, stamp, [], []);
            && r.exit == SoftStop && r.orders == ["A", "B", "C"] && |r.trades| == 2 && r.remaining == 9700.0
            && Persisted(r.trades) == [r.trades]
  {
    var ps := [TestPut("A", 1.0), TestPut("B", 1.0), TestPut("C", 1.0), TestPut("D", 1.0), TestPut("E", 1.0)];
    assert ps[1..] == [TestPut("B", 1.0), TestPut("C", 1.0), TestPut("D", 1.0), TestPut("E", 1.0)];
    assert ps[1..][1..] == [TestPut("C", 1.0), TestPut("D", 1.0), TestPut("E", 1.0)];
  }

  /**
   * The same pass when the third order fails for another reason (an API
   * error without the buying-power code, or any other exception): the pass
   * fails with that message, and the two trades are still persisted.
   */
  lemma FatalErrorKeepsEarlierTrades(submitOrder: (nat, OrderRequest) -> OrderReply, stamp: nat -> string, reply: OrderReply)
    requires submitOrder(0, SellOrder("A")).Accepted? && submitOrder(1, SellOrder("B")).Accepted?
    requires submitOrder(2, SellOrder("C")) == reply
    requires reply.OtherError? || (reply.ApiError? && !Contains(reply.message, BuyingPowerCode))
    ensures var r := PutPass([TestPut("A", 1.0), TestPut("B", 1.0), TestPut("C", 1.0), TestPut("D", 1.0), TestPut("E", 1.0)],
                             10000.0, submitOrder, stamp, [], []);
            && r.exit == Failed(BrokerFailure(reply.message)) && r.orders == ["A", "B", "C"] && |r.trades| == 2
            && Persisted(r.trades) == [r.trades]
  {
    var ps := [TestPut("A", 1.0), TestPut("B", 1.0), TestPut("C", 1.0), TestPut("D", 1.0), TestPut("E", 1.0)];
    assert ps[1..] == [TestPut("B", 1.0), TestPut("C", 1.0), TestPut("D", 1.0), TestPut("E", 1.0)];
    assert ps[1..][1..] == [TestPut("C", 1.0), TestPut("D", 1.0), TestPut("E", 1.0)];
  }

  /** The broker's insufficient-buying-power error text is recognised as a soft stop. */
  lemma BuyingPowerErrorIsSoft()
    ensures RejectionExit(ApiError("{" + BuyingPowerCode + ",\"message\":\"insufficient options buying power\"}")) == SoftStop
  {
    var m := "{" + BuyingPowerCode + ",\"message\":\"insufficient options buying power\"}";
    assert m[1..1 + |BuyingPowerCode|] == BuyingPowerCode;
    ContainsAt(m, BuyingPowerCode, 1);
  }

  // ---- the unrecorded sale ---------------------------------------------------

  /**
   * A put the broker accepts although the contract has no bid: the order
   * goes out, then `bid_price * 100` fails, so the sale is in no ledger.
   */
  lemma SoldWithoutBidIsUnrecorded(submitOrder: (nat, OrderRequest) -> OrderReply, stamp: nat -> string)
    requires submitOrder(0, SellOrder("A")).Accepted?
    ensures var r := PutPass([TestPut("A", 1.0).(bidPrice := None)], 1000.0, submitOrder, stamp, [], []);
            && r.orders == ["A"] && r.trades == [] && r.exit == Failed(NoneArithmetic("A"))
            && Persisted(r.trades) == []
  {
  }

  /**
   * The put loop with the premium read before the order is submitted: a
   * candidate without a bid fails the pass (after its cost is charged, as
   * in the loop) but no order goes out for it.
   */
  function CheckedPutPass(rest: seq<ContractRecord>, budget: real, submitOrder: (nat, OrderRequest) -> OrderReply,
                          stamp: nat -> string, orders: seq<Symbol>, trades: seq<TradeRecord>): PassResult
    decreases |rest|
  {
    if rest == [] then PassResult(Done, orders, trades, budget)
    else
      var p := rest[0];
      if p.strike.None? then PassResult(Failed(NoneArithmetic(p.symbol)), orders, trades, budget)
      else if budget < Cost(p) then PassResult(Done, orders, trades, budget)
      else
        var left := budget - Cost(p);
        if p.bidPrice.None? then PassResult(Failed(NoneArithmetic(p.symbol)), orders, trades, left)
        else
          var reply := submitOrder(|orders|, SellOrder(p.symbol));
          var submitted := orders + [p.symbol];
          if !reply.Accepted? then PassResult(RejectionExit(reply), submitted, trades, left)
          else CheckedPutPass(rest[1..], left, submitOrder, stamp, submitted,
                              trades + [TradeOf(p, "PUT", reply.ack, stamp(|trades|)).value])
  }

  /**
   * With the bid read first, every accepted order has its trade: only a
   * last order that the broker rejected lacks one.
   */
  lemma {:induction false} CheckedPassRecordsEveryAcceptance(rest: seq<ContractRecord>, budget: real,
                                                              submitOrder: (nat, OrderRequest) -> OrderReply, stamp: nat -> string,
                                                              orders: seq<Symbol>, trades: seq<TradeRecord>)
    requires |trades| == |orders|
    ensures var r := CheckedPutPass(rest, budget, submitOrder, stamp, orders, trades);
            && |r.trades| <= |r.orders| <= |r.trades| + 1
            && (|r.trades| < |r.orders| ==> !submitOrder(|r.orders| - 1, SellOrder(r.orders[|r.orders| - 1])).Accepted?)
    decreases |rest|
  {
    if rest != [] {
      var p := rest[0];
      if p.strike.Some? && Cost(p) <= budget && p.bidPrice.Some? {
        var reply := submitOrder(|orders|, SellOrder(p.symbol));
        if reply.Accepted? {
          var t := TradeOf(p, "PUT", reply.ack, stamp(|trades|)).value;
          CheckedPassRecordsEveryAcceptance(rest[1..], budget - Cost(p), submitOrder, stamp, orders + [p.symbol], trades + [t]);
        }
      }
    }
  }

  /** On the unrecorded sale above, the corrected pass submits nothing. */
  lemma CheckedPassSkipsBidlessSale(submitOrder: (nat, OrderRequest) -> OrderReply, stamp: nat -> string)
    ensures var r := CheckedPutPass([TestPut("A", 1.0).(bidPrice := None)], 1000.0, submitOrder, stamp, [], []);
            r.orders == [] && r.trades == [] && r.exit == Failed(NoneArithmetic("A"))
  {
  }

  // ---- put candidates --------------------------------------------------------

  /** `xs` can be obtained from `ys` by deleting elements. */
  predicate IsSubsequence<T(==)>(xs: seq<T>, ys: seq<T>)
    decreases |ys|
  {
    xs == [] || (ys != [] && if xs[0] == ys[0] then IsSubsequence(xs[1..], ys[1..]) else IsSubsequence(xs, ys[1..]))
  }

  /** The listed contracts for which the snapshot batch returned data, in listing order. */
  function WithSnapshot(cs: seq<RawContract>, snapshots: SnapshotMap): (kept: seq<RawContract>)
    ensures forall c :: c in kept ==> c in cs && c.symbol in snapshots
    ensures forall c :: c in cs && c.symbol in snapshots ==> c in kept
  {
    if cs == [] then []
    else (if cs[0].symbol in snapshots then [cs[0]] else []) + WithSnapshot(cs[1..], snapshots)
  }

  /** Every listed contract with a snapshot is kept as often as it is listed; the others are dropped. */
  lemma {:induction false} WithSnapshotCounts(cs: seq<RawContract>, snapshots: SnapshotMap)
    ensures forall c :: multiset(WithSnapshot(cs, snapshots))[c] == if c.symbol in snapshots then multiset(cs)[c] else 0
  {
    if cs != [] {
      WithSnapshotCounts(cs[1..], snapshots);
      assert cs == [cs[0]] + cs[1..];
    }
  }

  lemma {:induction false} WithSnapshotKeepsOrder(cs: seq<RawContract>, snapshots: SnapshotMap)
    ensures IsSubsequence(WithSnapshot(cs, snapshots), cs)
  {
    if cs != [] {
      var kept := WithSnapshot(cs, snapshots);
      WithSnapshotKeepsOrder(cs[1..], snapshots);
      if cs[0].symbol in snapshots {
        assert kept[0] == cs[0] && kept[1..] == WithSnapshot(cs[1..], snapshots);
      } else if kept != [] {
        assert kept == WithSnapshot(cs[1..], snapshots);
        assert kept[0] in kept && kept[0].symbol in snapshots;
      }
    }
  }

  /** The put candidates: `from_contract_snapshot` over the listed contracts that have a snapshot. */
  function Candidates(cs: seq<RawContract>, snapshots: SnapshotMap, today: Date): (r: seq<ContractRecord>)
    ensures |r| == |WithSnapshot(cs, snapshots)|
    ensures forall k :: 0 <= k < |r| ==>
              var c := WithSnapshot(cs, snapshots)[k];
              SnapshotRecord(c, Lookup(snapshots, c.symbol), today) == Success(r[k])
  {
    var kept := WithSnapshot(cs, snapshots);
    seq(|kept|, k requires 0 <= k < |kept| => SnapshotRecord(kept[k], Some(snapshots[kept[k].symbol]), today).value)
  }

  // ---- sell_puts -----------------------------------------------------------------

  /** The symbols of the listed contracts, in listing order. */
  function ContractSymbols(cs: seq<RawContract>): seq<Symbol> {
    seq(|cs|, k requires 0 <= k < |cs| => cs[k].symbol)
  }

  /** What `sell_puts` did: its listing requests and pages, the contracts it listed, its snapshot requests and the snapshots it fetched, its candidates, its selection, its loop and its ledger writes. */
  datatype PutsRun = PutsRun(
    requests: seq<ContractsRequest>,
    pages: seq<ContractsPage>,
    listed: seq<RawContract>,
    queries: seq<SnapshotQuery>,
    snapshots: SnapshotMap,
    candidates: seq<ContractRecord>,
    selected: seq<ContractRecord>,
    pass: PassResult,
    persisted: seq<seq<TradeRecord>>)

  /** `select_options(put_options, score_options(put_options))`, or nothing when no put survives `filter_options`. */
  function Selection(strategy: Strategy, candidates: seq<ContractRecord>): (selected: seq<ContractRecord>)
    ensures strategy.filterOptions(candidates, None) == [] ==> selected == []
    ensures var putOptions := strategy.filterOptions(candidates, None);
            putOptions != [] ==> selected == strategy.selectOptions(putOptions, strategy.scoreOptions(putOptions))
  {
    var putOptions := strategy.filterOptions(candidates, None);
    if putOptions == [] then [] else strategy.selectOptions(putOptions, strategy.scoreOptions(putOptions))
  }

  /**
   * `sell_puts`: nothing happens without symbols or buying power, or when no
   * underlying passes `filter_underlying`; otherwise the puts on the
   * filtered underlyings are listed, snapshotted in batches, turned into
   * candidates, filtered, scored and selected, and the selection is sold by
   * the put loop.  Whatever happens, the ledger is persisted once if it
   * holds any trade.
   */
  method SellPuts(client: Client, strategy: Strategy, allowed: seq<Symbol>, buyingPower: real,
                  today: Date, marketToday: Date, expirationMin: int, expirationMax: int, stamp: nat -> string)
    returns (run: PutsRun)
    requires allowed != [] && buyingPower > 0.0 && strategy.filterUnderlying(allowed, buyingPower) != [] ==>
               ListingEnds(client.listContracts,
                           ListingRequest(strategy.filterUnderlying(allowed, buyingPower), Some("put"), marketToday,
                                          expirationMin, expirationMax))
    ensures allowed == [] || buyingPower <= 0.0 || strategy.filterUnderlying(allowed, buyingPower) == [] ==>
              && run.requests == [] && run.listed == [] && run.queries == [] && run.snapshots == map[]
              && run.selected == [] && run.pass == PassResult(Done, [], [], buyingPower)
    // the listing of puts on the filtered underlyings, then their snapshots in batches
    ensures allowed != [] && buyingPower > 0.0 && strategy.filterUnderlying(allowed, buyingPower) != [] ==>
              && ListingComplete(client.listContracts,
                                 ListingRequest(strategy.filterUnderlying(allowed, buyingPower), Some("put"), marketToday,
                                                expirationMin, expirationMax),
                                 run.requests, run.pages)
              && run.listed == ConcatPages(run.pages)
              && IsBatching(ContractSymbols(run.listed), run.queries)
              && run.snapshots == MergeAll(Answers(client.optionData, run.queries))
    ensures run.candidates == Candidates(run.listed, run.snapshots, today)
    ensures allowed != [] && buyingPower > 0.0 && strategy.filterUnderlying(allowed, buyingPower) != [] ==>
              run.selected == Selection(strategy, run.candidates)
    ensures run.pass == PutPass(run.selected, buyingPower, client.submitOrder, stamp, [], [])
    ensures PaidPrefix(run.selected, buyingPower, run.pass)
    ensures |run.pass.trades| <= |run.pass.orders|
    ensures TradesRecorded(run.selected, client.submitOrder, stamp, run.pass)
    ensures StopReason(run.selected, client.submitOrder, run.pass)
    ensures run.persisted == Persisted(run.pass.trades)
  {
    var filtered := if allowed == [] || buyingPower <= 0.0 then [] else strategy.filterUnderlying(allowed, buyingPower);
    if filtered == [] {
      run := PutsRun([], [], [], [], map[], [], [], PassResult(Done, [], [], buyingPower), []);
      return;
    }
    var listed, requests, pages := GetOptionsContracts(client, filtered, Some("put"), marketToday, expirationMin, expirationMax);
    var snapshots, queries := GetOptionSnapshot(client, SymbolList(ContractSymbols(listed)));
    var candidates := Candidates(listed, snapshots.value, today);
    var selected := Selection(strategy, candidates);
    var pass := CommitPuts(selected, buyingPower, client.submitOrder, stamp);
    run := PutsRun(requests, pages, listed, queries, snapshots.value, candidates, selected, pass, Persisted(pass.trades));
  }

  // ---- sell_calls ----------------------------------------------------------------

  /** `np.argmax`: the first index holding the largest score. */
  function ArgMax(scores: seq<real>): (i: nat)
    requires scores != []
    ensures i < |scores|
    ensures forall k :: 0 <= k < |scores| ==> scores[k] <= scores[i]
    ensures forall k :: 0 <= k < i ==> scores[k] < scores[i]
  {
    if |scores| == 1 then 0
    else
      var j := ArgMax(scores[..|scores| - 1]);
      if scores[|scores| - 1] > scores[j] then |scores| - 1 else j
  }

  /** What `sell_calls` did: its listing requests and pages, the contracts it listed, the options left after filtering, its order, its trade and its ledger writes. */
  datatype CallsRun = CallsRun(
    exit: Exit,
    requests: seq<ContractsRequest>,
    pages: seq<ContractsPage>,
    listed: seq<RawContract>,
    options: seq<ContractRecord>,
    orders: seq<Symbol>,
    trades: seq<TradeRecord>,
    persisted: seq<seq<TradeRecord>>)

  /** `[Contract.from_contract(option, client) for option in listed]`, as records. */
  function CallRecords(listed: seq<RawContract>, today: Date, client: Client): seq<ContractRecord> {
    seq(|listed|, k requires 0 <= k < |listed| => PostInit(ContractFields(listed[k], today), Some(client)))
  }

  /** Builds one client-bound `Contract` per listed call, in listing order, and keeps their records. */
  method BindContracts(listed: seq<RawContract>, today: Date, client: Client) returns (records: seq<ContractRecord>)
    ensures |records| == |listed|
    ensures records == CallRecords(listed, today, client)
  {
    records := [];
    for k := 0 to |listed|
      invariant |records| == k
      invariant forall j :: 0 <= j < k ==> records[j] == PostInit(ContractFields(listed[j], today), Some(client))
    {
      var contract := new Contract.FromContract(listed[k], today, Some(client));
      records := records + [contract.Record()];
    }
  }

  /** The call a covered-call pass sells: the first best-scoring option, when there are scores and the index is an option's. */
  predicate HasChoice(options: seq<ContractRecord>, scores: seq<real>) {
    scores != [] && ArgMax(scores) < |options|
  }

  /**
   * `sell_calls`: fewer than 100 shares is an error (caught like every
   * other); otherwise the calls on the symbol are listed and built as
   * client-bound contracts (each refreshed by its own snapshot request),
   * filtered against the purchase price and scored, and the single
   * best-scoring call is sold.  A buying-power rejection ends the pass
   * quietly without a trade.  The ledger is persisted once if it holds
   * the trade.
   */
  method SellCalls(client: Client, strategy: Strategy, symbol: Symbol, purchasePrice: real, stockQty: real,
                   today: Date, marketToday: Date, expirationMin: int, expirationMax: int, stamp: nat -> string)
    returns (run: CallsRun)
    requires stockQty >= SharesPerContract ==>
               ListingEnds(client.listContracts, ListingRequest([symbol], Some("call"), marketToday, expirationMin, expirationMax))
    ensures stockQty < SharesPerContract <==> run.exit == Failed(InsufficientCoverage(symbol))
    ensures stockQty < SharesPerContract ==> run.requests == [] && run.listed == [] && run.orders == [] && run.trades == []
    ensures stockQty >= SharesPerContract ==>
              && ListingComplete(client.listContracts,
                                 ListingRequest([symbol], Some("call"), marketToday, expirationMin, expirationMax),
                                 run.requests, run.pages)
              && run.listed == ConcatPages(run.pages)
    ensures stockQty >= SharesPerContract ==>
              run.options == strategy.filterOptions(CallRecords(run.listed, today, client), Some(purchasePrice))
    ensures |run.trades| <= |run.orders| <= 1
    // exactly one order, for the best-scoring option, once there is one to choose
    ensures |run.orders| == 1 <==>
              stockQty >= SharesPerContract && run.options != [] && HasChoice(run.options, strategy.scoreOptions(run.options))
    ensures |run.orders| == 1 ==>
              var scores := strategy.scoreOptions(run.options);
              && run.orders[0] == run.options[ArgMax(scores)].symbol
              && (forall k :: 0 <= k < |scores| ==> scores[k] <= scores[ArgMax(scores)])
    // no scores, or a best index past the options, is an error
    ensures stockQty >= SharesPerContract && run.options != [] && strategy.scoreOptions(run.options) == [] ==>
              run.exit == Failed(EmptyScores)
    ensures stockQty >= SharesPerContract && run.options != [] && strategy.scoreOptions(run.options) != [] &&
            ArgMax(strategy.scoreOptions(run.options)) >= |run.options| ==>
              run.exit == Failed(ScoreIndexOutOfRange(ArgMax(strategy.scoreOptions(run.options))))
    ensures stockQty >= SharesPerContract && run.options == [] ==> run.exit == Done && run.orders == []
    // how the order ended
    ensures |run.orders| == 1 ==>
              var reply := client.submitOrder(0, SellOrder(run.orders[0]));
              var c := run.options[ArgMax(strategy.scoreOptions(run.options))];
              && (!reply.Accepted? ==> run.trades == [] && run.exit == RejectionExit(reply))
              && (reply.Accepted? && c.bidPrice.None? ==> run.trades == [] && run.exit == Failed(NoneArithmetic(c.symbol)))
              && (reply.Accepted? && c.bidPrice.Some? ==>
                    && run.exit == Done
                    && run.trades == [TradeRecord(stamp(0), c.underlying, "CALL", c.strike, ExpirationText(c.expirationDate),
                                                  c.bidPrice.value * ContractMultiplier, "SELL_TO_OPEN", StatusText(reply.ack))])
    ensures run.persisted == Persisted(run.trades)
  {
    if stockQty < SharesPerContract {
      return CallsRun(Failed(InsufficientCoverage(symbol)), [], [], [], [], [], [], []);
    }
    var listed, requests, pages := GetOptionsContracts(client, [symbol], Some("call"), marketToday, expirationMin, expirationMax);
    var records := BindContracts(listed, today, client);
    var options := strategy.filterOptions(records, Some(purchasePrice));
    if options == [] {
      return CallsRun(Done, requests, pages, listed, options, [], [], []);
    }
    var scores := strategy.scoreOptions(options);
    if scores == [] {
      return CallsRun(Failed(EmptyScores), requests, pages, listed, options, [], [], []);
    }
    var best := ArgMax(scores);
    if best >= |options| {
      return CallsRun(Failed(ScoreIndexOutOfRange(best)), requests, pages, listed, options, [], [], []);
    }
    var c := options[best];
    var reply := client.submitOrder(0, SellOrder(c.symbol));
    if !reply.Accepted? {
      return CallsRun(RejectionExit(reply), requests, pages, listed, options, [c.symbol], [], []);
    }
    match TradeOf(c, "CALL", reply.ack, stamp(0)) {
      case None =>
        return CallsRun(Failed(NoneArithmetic(c.symbol)), requests, pages, listed, options, [c.symbol], [], []);
      case Some(t) =>
        return CallsRun(Done, requests, pages, listed, options, [c.symbol], [t], Persisted([t]));
    }
  }
}
