/** The strategy interface and the engine that replays a price table through it.
    A strategy is a `policy`: given its own memory, the bar and the portfolio as it
    stands after that bar's mark-to-market update, it returns its new memory and the
    buy and sell calls it makes on the portfolio, in order. */
module Backtest {
  import opened Wrappers
  import opened MarketData
  import opened Portfolios

  /** One call a strategy makes on its portfolio during `onData`. */
  datatype Order = Buy(buyPrice: Price) | Sell(sellPrice: real)

  type Policy<!S> = (S, Data, PortfolioState) -> (S, seq<Order>)

  /** The base class's `onData`, which does nothing. */
  function Idle<S(!new)>(): (policy: Policy<S>)
    ensures forall memory: S, data: Data, portfolio: PortfolioState ::
      policy(memory, data, portfolio).0 == memory && policy(memory, data, portfolio).1 == []
  {
    (memory: S, data: Data, portfolio: PortfolioState) => (memory, [])
  }

  /** The portfolio after the orders, issued one after another. */
  function Applied(s: PortfolioState, orders: seq<Order>): (t: PortfolioState)
    requires s.Ready()
    ensures t.Ready()
  {
    if orders == [] then s
    else
      var before := Applied(s, orders[..|orders| - 1]);
      match orders[|orders| - 1]
      case Buy(price) => before.Bought(price)
      case Sell(price) => before.Sold(price)
  }

  /** Orders only open and close positions: the mark-to-market side (return curve,
      drawdowns, current return, all-time high, cash) is untouched, and each order
      appends at most one entry to the trades curve. */
  lemma {:induction false} AppliedKeepsMarks(s: PortfolioState, orders: seq<Order>)
    requires s.Ready()
    ensures var t := Applied(s, orders);
      && t.returnCurve == s.returnCurve && t.dds == s.dds && t.currReturn == s.currReturn
      && t.ath == s.ath && t.currentCash == s.currentCash && t.initialAmount == s.initialAmount
      && |s.tradesCurve| <= |t.tradesCurve| <= |s.tradesCurve| + |orders|
      && t.tradesCurve[..|s.tradesCurve|] == s.tradesCurve
  {
    if orders != [] {
      var n := |orders| - 1;
      AppliedKeepsMarks(s, orders[..n]);
      var before := Applied(s, orders[..n]);
      var t := Applied(s, orders);
      assert t.tradesCurve[..|before.tradesCurve|] == before.tradesCurve;
    }
  }

  /** Orders keep the portfolio invariant. */
  lemma {:induction false} AppliedValid(s: PortfolioState, orders: seq<Order>)
    requires s.Valid()
    ensures Applied(s, orders).Valid()
  {
    if orders != [] {
      AppliedValid(s, orders[..|orders| - 1]);
    }
  }

  /** `onData` on the value level: the policy decides, then its orders are applied. */
  function Reacted<S>(policy: Policy<S>, s: PortfolioState, memory: S, data: Data): (pair: (PortfolioState, S))
    requires s.Ready()
    ensures pair.0.Ready()
  {
    var decision := policy(memory, data, s);
    (Applied(s, decision.1), decision.0)
  }

  /** One turn of the engine loop: the portfolio marks the bar to market first and
      the strategy sees the updated portfolio afterwards. */
  function Turn<S>(policy: Policy<S>, s: PortfolioState, memory: S, data: Data): (pair: (PortfolioState, S))
    requires s.Ready() && data.price > 0.0
    ensures pair.0.Ready()
  {
    Reacted(policy, s.Updated(data.price), memory, data)
  }

  /** The portfolio and strategy memory after the engine loop has run over `bars`. */
  function Replay<S>(policy: Policy<S>, s: PortfolioState, memory: S, bars: seq<Data>): (pair: (PortfolioState, S))
    requires s.Ready() && Priced(bars)
    ensures pair.0.Ready()
  {
    if bars == [] then (s, memory)
    else
      var n := |bars| - 1;
      var before := Replay(policy, s, memory, bars[..n]);
      Turn(policy, before.0, before.1, bars[n])
  }

  /** Each bar appends exactly one return sample and one drawdown: the sample is
      what marking that bar to market yields, whatever the strategy then does. The
      curves already there are kept. */
  lemma {:induction false} ReplayAppends<S>(policy: Policy<S>, s: PortfolioState, memory: S, bars: seq<Data>)
    requires s.Ready() && Priced(bars)
    ensures var t := Replay(policy, s, memory, bars).0;
      && |t.returnCurve| == |s.returnCurve| + |bars| && |t.dds| == |s.dds| + |bars|
      && t.returnCurve[..|s.returnCurve|] == s.returnCurve && t.dds[..|s.dds|] == s.dds
    ensures var t := Replay(policy, s, memory, bars).0;
      forall k :: 0 <= k < |bars| ==>
        |s.returnCurve| + k < |t.returnCurve| &&
        t.returnCurve[|s.returnCurve| + k] == Replay(policy, s, memory, bars[..k]).0.Updated(bars[k].price).currReturn
  {
    if bars != [] {
      var n := |bars| - 1;
      ReplayAppends(policy, s, memory, bars[..n]);
      var before := Replay(policy, s, memory, bars[..n]);
      var updated := before.0.Updated(bars[n].price);
      AppliedKeepsMarks(updated, policy(before.1, bars[n], updated).1);
      var t := Replay(policy, s, memory, bars).0;
      assert t.returnCurve == before.0.returnCurve + [updated.currReturn];
      assert t.dds == before.0.dds + [Drawdown(updated.currReturn, updated.ath)];
      assert t.returnCurve[..|s.returnCurve|] == before.0.returnCurve[..|s.returnCurve|];
      assert t.dds[..|s.dds|] == before.0.dds[..|s.dds|];
      forall k | 0 <= k < |bars|
        ensures t.returnCurve[|s.returnCurve| + k] == Replay(policy, s, memory, bars[..k]).0.Updated(bars[k].price).currReturn
      {
        if k < n {
          assert bars[..n][..k] == bars[..k];
          assert bars[..n][k] == bars[k];
        }
      }
    }
  }

  /** Replaying keeps the portfolio invariant. */
  lemma {:induction false} ReplayValid<S>(policy: Policy<S>, s: PortfolioState, memory: S, bars: seq<Data>)
    requires s.Valid() && Priced(bars)
    ensures Replay(policy, s, memory, bars).0.Valid()
  {
    if bars != [] {
      var n := |bars| - 1;
      ReplayValid(policy, s, memory, bars[..n]);
      var before := Replay(policy, s, memory, bars[..n]);
      UpdatedValid(before.0, bars[n].price);
      var updated := before.0.Updated(bars[n].price);
      AppliedValid(updated, policy(before.1, bars[n], updated).1);
    }
  }

  /** Replaying one more bar is playing one more turn. */
  lemma ReplaySnoc<S>(policy: Policy<S>, s: PortfolioState, memory: S, bars: seq<Data>)
    requires s.Ready() && Priced(bars) && bars != []
    ensures var before := Replay(policy, s, memory, bars[..|bars| - 1]);
      Replay(policy, s, memory, bars) == Turn(policy, before.0, before.1, bars[|bars| - 1])
  {
  }

  /** Bars priced above zero stay so when concatenated. */
  lemma PricedConcat(first: seq<Data>, second: seq<Data>)
    requires Priced(first) && Priced(second)
    ensures Priced(first + second)
  {
    forall k | |first| <= k < |first + second|
      ensures (first + second)[k].price > 0.0
    {
      assert (first + second)[k] == second[k - |first|];
    }
  }

  /** Nothing is reset between runs: replaying two tables one after the other is
      replaying their concatenation. */
  lemma {:induction false} ReplayConcat<S>(policy: Policy<S>, s: PortfolioState, memory: S, first: seq<Data>, second: seq<Data>)
    requires s.Ready() && Priced(first) && Priced(second)
    ensures Priced(first + second)
    ensures var mid := Replay(policy, s, memory, first);
      Replay(policy, s, memory, first + second) == Replay(policy, mid.0, mid.1, second)
  {
    PricedConcat(first, second);
    if second != [] {
      var n := |second| - 1;
      var whole := first + second;
      assert whole[..|whole| - 1] == first + second[..n];
      assert whole[|whole| - 1] == second[n];
      PricedConcat(first, second[..n]);
      ReplayConcat(policy, s, memory, first, second[..n]);
      var mid := Replay(policy, s, memory, first);
      var prev := Replay(policy, mid.0, mid.1, second[..n]);
      ReplaySnoc(policy, s, memory, whole);
    } else {
      assert first + second == first;
    }
  }

  /** The policy never buys. */
  ghost predicate NeverBuys<S(!new)>(policy: Policy<S>) {
    forall memory: S, data: Data, s: PortfolioState, k: int ::
      0 <= k < |policy(memory, data, s).1| ==> policy(memory, data, s).1[k].Sell?
  }

  /** Sells alone never change a flat portfolio. */
  lemma {:induction false} SellsWhileFlat(s: PortfolioState, orders: seq<Order>)
    requires s.Ready() && !s.inPosition
    requires forall k :: 0 <= k < |orders| ==> orders[k].Sell?
    ensures Applied(s, orders) == s
  {
    if orders != [] {
      SellsWhileFlat(s, orders[..|orders| - 1]);
    }
  }

  /** A strategy that never buys, starting flat, stays flat: every bar appends the
      unchanged current return to the curve, and the realised return, the trades
      and the cash stay as they were. */
  lemma {:induction false} NeverBuyingStaysFlat<S(!new)>(policy: Policy<S>, s: PortfolioState, memory: S, bars: seq<Data>)
    requires s.Ready() && !s.inPosition && NeverBuys(policy) && Priced(bars)
    ensures var t := Replay(policy, s, memory, bars).0;
      && !t.inPosition && t.currReturn == s.currReturn
      && t.returnCurve == s.returnCurve + seq(|bars|, _ => s.currReturn)
      && t.cumReturn == s.cumReturn && t.tradesCurve == s.tradesCurve && t.currentCash == s.currentCash
  {
    if bars != [] {
      var n := |bars| - 1;
      NeverBuyingStaysFlat(policy, s, memory, bars[..n]);
      var before := Replay(policy, s, memory, bars[..n]);
      var updated := before.0.Updated(bars[n].price);
      var orders := policy(before.1, bars[n], updated).1;
      SellsWhileFlat(updated, orders);
      assert s.returnCurve + seq(n + 1, _ => s.currReturn) == s.returnCurve + seq(n, _ => s.currReturn) + [s.currReturn];
    }
  }

  /** The base strategy's memory is never changed by a replay. */
  lemma {:induction false} IdleKeepsMemory<S(!new)>(s: PortfolioState, memory: S, bars: seq<Data>)
    requires s.Ready() && Priced(bars)
    ensures Replay(Idle(), s, memory, bars).1 == memory
  {
    if bars != [] {
      IdleKeepsMemory(s, memory, bars[..|bars| - 1]);
    }
  }

  /** The base strategy, started flat, stays flat with its memory unchanged: each bar
      appends the unchanged current return, and the realised return, the trades and
      the cash stay as they were. */
  lemma {:induction false} IdleStaysFlat<S(!new)>(s: PortfolioState, memory: S, bars: seq<Data>)
    requires s.Ready() && !s.inPosition && Priced(bars)
    ensures var r := Replay(Idle(), s, memory, bars);
      && r.1 == memory && !r.0.inPosition
      && r.0.returnCurve == s.returnCurve + seq(|bars|, _ => s.currReturn)
      && r.0.cumReturn == s.cumReturn && r.0.tradesCurve == s.tradesCurve && r.0.currentCash == s.currentCash
  {
    NeverBuyingStaysFlat(Idle(), s, memory, bars);
    IdleKeepsMemory(s, memory, bars);
  }

  /** The policy never sells. */
  ghost predicate NeverSells<S(!new)>(policy: Policy<S>) {
    forall memory: S, data: Data, s: PortfolioState, k: int ::
      0 <= k < |policy(memory, data, s).1| ==> policy(memory, data, s).1[k].Buy?
  }

  /** Buys alone never change an open position. */
  lemma {:induction false} BuysWhileHeld(s: PortfolioState, orders: seq<Order>)
    requires s.Ready() && s.inPosition
    requires forall k :: 0 <= k < |orders| ==> orders[k].Buy?
    ensures Applied(s, orders) == s
  {
    if orders != [] {
      BuysWhileHeld(s, orders[..|orders| - 1]);
    }
  }

  /** Buys alone never change the realised return or the trades curve. */
  lemma {:induction false} BuysKeepRealised(s: PortfolioState, orders: seq<Order>)
    requires s.Ready()
    requires forall k :: 0 <= k < |orders| ==> orders[k].Buy?
    ensures Applied(s, orders).cumReturn == s.cumReturn && Applied(s, orders).tradesCurve == s.tradesCurve
  {
    if orders != [] {
      BuysKeepRealised(s, orders[..|orders| - 1]);
    }
  }

  /** A strategy that never sells realises nothing: the realised return and the
      trades curve stay as they were. */
  lemma {:induction false} NeverSellingKeepsRealised<S(!new)>(policy: Policy<S>, s: PortfolioState, memory: S, bars: seq<Data>)
    requires s.Ready() && NeverSells(policy) && Priced(bars)
    ensures Replay(policy, s, memory, bars).0.cumReturn == s.cumReturn
    ensures Replay(policy, s, memory, bars).0.tradesCurve == s.tradesCurve
  {
    if bars != [] {
      var n := |bars| - 1;
      NeverSellingKeepsRealised(policy, s, memory, bars[..n]);
      var before := Replay(policy, s, memory, bars[..n]);
      var updated := before.0.Updated(bars[n].price);
      BuysKeepRealised(updated, policy(before.1, bars[n], updated).1);
    }
  }

  /** An open position entered when the current return was `entry`: the current
      return is `entry` scaled by the last price over the buy price. */
  predicate Tracks(s: PortfolioState, entry: real) {
    s.inPosition && s.currReturn * s.buyPrice == entry * s.lastPrice
  }

  /** Marking an open position to market keeps it tracking the price. */
  lemma UpdatedTracks(s: PortfolioState, entry: real, price: real)
    requires s.Ready() && Tracks(s, entry) && price > 0.0
    ensures var t := s.Updated(price);
      Tracks(t, entry) && t.buyPrice == s.buyPrice && t.lastPrice == price
  {
    var t := s.Updated(price);
    assert s.lastPrice * (price / s.lastPrice) == price;
    calc {
      t.currReturn * s.buyPrice;
      (s.currReturn * s.buyPrice) * (price / s.lastPrice);
      (entry * s.lastPrice) * (price / s.lastPrice);
      entry * price;
    }
  }

  /** Holding a position under a strategy that never sells: the position stays open
      at its buy price, and after each bar the current return, which is the last
      return sample, is `entry` scaled by that bar's price over the buy price. */
  lemma {:induction false} HoldingTracksPrice<S(!new)>(policy: Policy<S>, s: PortfolioState, memory: S, bars: seq<Data>, entry: real)
    requires s.Ready() && Tracks(s, entry) && NeverSells(policy) && Priced(bars)
    ensures var t := Replay(policy, s, memory, bars).0;
      && Tracks(t, entry) && t.buyPrice == s.buyPrice
      && (bars != [] ==>
            t.lastPrice == bars[|bars| - 1].price && t.returnCurve != [] && t.returnCurve[|t.returnCurve| - 1] == t.currReturn)
  {
    if bars != [] {
      var n := |bars| - 1;
      HoldingTracksPrice(policy, s, memory, bars[..n], entry);
      var before := Replay(policy, s, memory, bars[..n]);
      UpdatedTracks(before.0, entry, bars[n].price);
      var updated := before.0.Updated(bars[n].price);
      BuysWhileHeld(updated, policy(before.1, bars[n], updated).1);
    }
  }

  /** Buys at every bar. Buys in position are ignored, so this buys at the first bar
      and holds to the end. */
  function BuyAndHold<S>(): Policy<S> {
    (memory: S, data: Data, portfolio: PortfolioState) =>
      (memory, if data.price > 0.0 then [Buy(data.price)] else [])
  }

  /** The buy-and-hold strategy never sells. */
  lemma BuyAndHoldNeverSells<S(!new)>()
    ensures NeverSells(BuyAndHold<S>())
  {
  }

  /** The first bar of a buy-and-hold run from a new portfolio: it is marked at
      the initial return 1 and the position is opened at its price. */
  lemma BuyAndHoldFirstTurn<S>(cash: real, memory: S, data: Data)
    requires data.price > 0.0
    ensures var first := Turn(BuyAndHold(), Initial(cash), memory, data).0;
      && Tracks(first, 1.0) && first.buyPrice == data.price && first.lastPrice == data.price
      && first.currReturn == 1.0 && first.returnCurve == [1.0]
  {
    var s := Initial(cash).Updated(data.price);
    assert Turn(BuyAndHold(), Initial(cash), memory, data).0 == Applied(s, [Buy(data.price)]);
    assert Applied(s, [Buy(data.price)]) == s.Bought(data.price);
  }

  /** Buying at the first bar and holding from a new portfolio: the position opened
      at the first price is still open at the last bar, whose price is the last
      price, and the current return is the last return sample. */
  lemma {:induction false} BuyAndHoldHolds<S(!new)>(cash: real, memory: S, bars: seq<Data>)
    requires bars != [] && Priced(bars)
    ensures var t := Replay(BuyAndHold(), Initial(cash), memory, bars).0;
      && Tracks(t, 1.0) && t.buyPrice == bars[0].price && t.lastPrice == bars[|bars| - 1].price
      && t.returnCurve != [] && t.returnCurve[|t.returnCurve| - 1] == t.currReturn
  {
    var policy := BuyAndHold<S>();
    var s := Initial(cash);
    var first := Turn(policy, s, memory, bars[0]);
    var rest := bars[1..];
    BuyAndHoldNeverSells<S>();
    BuyAndHoldFirstTurn(cash, memory, bars[0]);
    assert bars == [bars[0]] + rest;
    ReplayCons(policy, s, memory, bars[0], rest);
    HoldingTracksPrice(policy, first.0, first.1, rest, 1.0);
    if rest != [] {
      assert rest[|rest| - 1] == bars[|bars| - 1];
    }
  }

  /** A return that scales the buy price to the last price is their ratio. */
  lemma RatioOf(r: real, bought: real, last: real, first: real, final: real)
    requires bought > 0.0 && r * bought == 1.0 * last && bought == first && last == final
    ensures r == final / first
  {
  }

  /** Buying at the first bar and holding from a new portfolio: the last return
      sample is the last price over the first one, and nothing is realised. */
  lemma {:induction false} BuyAndHoldReturn<S(!new)>(cash: real, memory: S, bars: seq<Data>)
    requires bars != [] && Priced(bars)
    ensures var t := Replay(BuyAndHold(), Initial(cash), memory, bars).0;
      && t.returnCurve != []
      && t.returnCurve[|t.returnCurve| - 1] == bars[|bars| - 1].price / bars[0].price
      && t.cumReturn == 1.0 && t.tradesCurve == []
  {
    BuyAndHoldNeverSells<S>();
    NeverSellingKeepsRealised(BuyAndHold(), Initial(cash), memory, bars);
    BuyAndHoldHolds(cash, memory, bars);
    var t := Replay(BuyAndHold(), Initial(cash), memory, bars).0;
    RatioOf(t.currReturn, t.buyPrice, t.lastPrice, bars[0].price, bars[|bars| - 1].price);
  }

  /** What a run leaves behind: the portfolio, the strategy's memory and the result
      `run` returns (or the exception it raises). */
  datatype Outcome<S> = Outcome(portfolio: PortfolioState, memory: S, result: Result<real>)

  /** The run's loop on values, row after row from the front: each row is converted
      to a bar and played as a `Turn`; the first row that lacks a column ends the run
      with its KeyError, and running out of rows ends it with `cum_return - 1`. */
  function Played<S>(policy: Policy<S>, s: PortfolioState, memory: S, symbol: string, priceColumn: string,
                     indicatorColumns: seq<string>, rows: seq<Row>): (o: Outcome<S>)
    requires s.Ready() && PositivePrices(priceColumn, rows)
    ensures o.portfolio.Ready()
    decreases |rows|
  {
    if rows == [] then Outcome(s, memory, Ok(s.cumReturn - 1.0))
    else match RowToData(symbol, priceColumn, indicatorColumns, rows[0])
      case Err(e) => Outcome(s, memory, Err(e))
      case Ok(data) =>
        var next := Turn(policy, s, memory, data);
        Played(policy, next.0, next.1, symbol, priceColumn, indicatorColumns, rows[1..])
  }

  /** Replaying a bar in front of others is playing its turn first. */
  lemma ReplayCons<S>(policy: Policy<S>, s: PortfolioState, memory: S, data: Data, bars: seq<Data>)
    requires s.Ready() && data.price > 0.0 && Priced(bars)
    ensures Priced([data] + bars)
    ensures var next := Turn(policy, s, memory, data);
      Replay(policy, s, memory, [data] + bars) == Replay(policy, next.0, next.1, bars)
  {
    ReplayConcat(policy, s, memory, [data], bars);
    assert [data][..0] == [];
  }

  /** A complete first row is played as one turn before the rest. */
  lemma PlayedCons<S>(policy: Policy<S>, s: PortfolioState, memory: S, symbol: string,
                      priceColumn: string, indicatorColumns: seq<string>, rows: seq<Row>)
    requires s.Ready() && PositivePrices(priceColumn, rows)
    requires rows != [] && Converts(priceColumn, indicatorColumns, rows[0])
    ensures PositivePrices(priceColumn, rows[1..])
    ensures var data := ToData(symbol, priceColumn, indicatorColumns, rows[0]);
      && data.price > 0.0
      && var next := Turn(policy, s, memory, data);
      && Played(policy, s, memory, symbol, priceColumn, indicatorColumns, rows)
         == Played(policy, next.0, next.1, symbol, priceColumn, indicatorColumns, rows[1..])
  {
    PositivePricesTail(priceColumn, rows);
  }

  /** A run replays exactly the bars of the rows before the first incomplete one. */
  lemma {:induction false} PlayedReplaysBars<S>(policy: Policy<S>, s: PortfolioState, memory: S, symbol: string,
                                              priceColumn: string, indicatorColumns: seq<string>, rows: seq<Row>)
    requires s.Ready() && PositivePrices(priceColumn, rows)
    ensures var n := FirstBadRow(priceColumn, indicatorColumns, rows);
      Priced(Bars(symbol, priceColumn, indicatorColumns, rows[..n]))
    ensures var n := FirstBadRow(priceColumn, indicatorColumns, rows);
      var o := Played(policy, s, memory, symbol, priceColumn, indicatorColumns, rows);
      (o.portfolio, o.memory) == Replay(policy, s, memory, Bars(symbol, priceColumn, indicatorColumns, rows[..n]))
    decreases |rows|
  {
    var n := FirstBadRow(priceColumn, indicatorColumns, rows);
    BarsPriced(symbol, priceColumn, indicatorColumns, rows, n);
    if n == 0 {
      assert rows[..0] == [];
    } else {
      var data := ToData(symbol, priceColumn, indicatorColumns, rows[0]);
      var next := Turn(policy, s, memory, data);
      var rest := rows[1..];
      PlayedCons(policy, s, memory, symbol, priceColumn, indicatorColumns, rows);
      PlayedReplaysBars(policy, next.0, next.1, symbol, priceColumn, indicatorColumns, rest);
      BarsCons(symbol, priceColumn, indicatorColumns, rows);
      var m := FirstBadRow(priceColumn, indicatorColumns, rest);
      ReplayCons(policy, s, memory, data, Bars(symbol, priceColumn, indicatorColumns, rest[..m]));
    }
  }

  /** A run returns the realised return when every row is complete, and otherwise
      raises the KeyError of the first incomplete row. */
  lemma {:induction false} PlayedResult<S>(policy: Policy<S>, s: PortfolioState, memory: S, symbol: string,
                                         priceColumn: string, indicatorColumns: seq<string>, rows: seq<Row>)
    requires s.Ready() && PositivePrices(priceColumn, rows)
    ensures var n := FirstBadRow(priceColumn, indicatorColumns, rows);
      var o := Played(policy, s, memory, symbol, priceColumn, indicatorColumns, rows);
      o.result == if n == |rows| then Ok(o.portfolio.cumReturn - 1.0)
                  else Err(KeyError(MissingColumn(priceColumn, indicatorColumns, rows[n])))
    decreases |rows|
  {
    if rows != [] && Converts(priceColumn, indicatorColumns, rows[0]) {
      var data := ToData(symbol, priceColumn, indicatorColumns, rows[0]);
      var next := Turn(policy, s, memory, data);
      var rest := rows[1..];
      PlayedCons(policy, s, memory, symbol, priceColumn, indicatorColumns, rows);
      PlayedResult(policy, next.0, next.1, symbol, priceColumn, indicatorColumns, rest);
      var m := FirstBadRow(priceColumn, indicatorColumns, rest);
      if m < |rest| {
        assert rest[m] == rows[m + 1];
      }
    }
  }

  /** Buy and hold over a table whose rows are all complete, from a new portfolio:
      the run returns 0, since nothing is ever sold, and the last return sample is
      the last row's price over the first row's. */
  lemma {:induction false} BuyAndHoldRun<S(!new)>(cash: real, memory: S, symbol: string, priceColumn: string,
                                                 indicatorColumns: seq<string>, rows: seq<Row>)
    requires PositivePrices(priceColumn, rows)
    requires FirstBadRow(priceColumn, indicatorColumns, rows) == |rows|
    ensures Played(BuyAndHold(), Initial(cash), memory, symbol, priceColumn, indicatorColumns, rows).result == Ok(0.0)
    ensures rows != [] ==>
      var t := Played(BuyAndHold(), Initial(cash), memory, symbol, priceColumn, indicatorColumns, rows).portfolio;
      && t.returnCurve != []
      && t.returnCurve[|t.returnCurve| - 1] == rows[|rows| - 1].cells[priceColumn] / rows[0].cells[priceColumn]
  {
    var policy := BuyAndHold<S>();
    var s := Initial(cash);
    PlayedResult(policy, s, memory, symbol, priceColumn, indicatorColumns, rows);
    PlayedReplaysBars(policy, s, memory, symbol, priceColumn, indicatorColumns, rows);
    assert rows[..|rows|] == rows;
    var bars := Bars(symbol, priceColumn, indicatorColumns, rows);
    BuyAndHoldNeverSells<S>();
    NeverSellingKeepsRealised(policy, s, memory, bars);
    if rows != [] {
      BuyAndHoldReturn(cash, memory, bars);
    }
  }

  /** A strategy: the portfolio it trades on, its policy and its own memory. */
  class Algorithm<S> {
    const portfolio: Portfolio
    const policy: Policy<S>
    var memory: S

    constructor (portfolio: Portfolio, policy: Policy<S>, memory: S)
      ensures this.portfolio == portfolio && this.policy == policy && this.memory == memory
    {
      this.portfolio := portfolio;
      this.policy := policy;
      this.memory := memory;
    }

    /** `onData(data)`: the policy's buy and sell calls, made on the shared portfolio. */
    method OnData(data: Data)
      requires portfolio.Snapshot().Ready()
      modifies this, portfolio
      ensures (portfolio.Snapshot(), memory) == Reacted(policy, old(portfolio.Snapshot()), old(memory), data)
    {
      ghost var start := portfolio.Snapshot();
      var decision := policy(memory, data, portfolio.Snapshot());
      memory := decision.0;
      var orders := decision.1;
      var i := 0;
      while i < |orders|
        invariant 0 <= i <= |orders|
        invariant memory == decision.0
        invariant portfolio.Snapshot() == Applied(start, orders[..i])
        decreases |orders| - i
      {
        assert orders[..i + 1][..i] == orders[..i];
        match orders[i] {
          case Buy(price) => portfolio.Buy(price);
          case Sell(price) => portfolio.Sell(price);
        }
        i := i + 1;
      }
      assert orders[..i] == orders;
    }
  }

  /** The engine: a strategy and the table wrapped as an `OHLCV`. */
  class Engine<S> {
    const algorithm: Algorithm<S>
    const ohlcv: OHLCV

    constructor (algorithm: Algorithm<S>, table: seq<Row>, symbol: string, priceColumn: string, indicatorColumns: seq<string>)
      ensures this.algorithm == algorithm && ohlcv.Valid()
      ensures ohlcv.ohlcv == table && ohlcv.symbol == symbol
      ensures ohlcv.priceColumn == priceColumn && ohlcv.indicatorColumns == indicatorColumns
    {
      this.algorithm := algorithm;
      this.ohlcv := new OHLCV(table, symbol, priceColumn, indicatorColumns);
    }

    /** The body of `run`'s loop for one bar: mark it to market, then hand it to the strategy. */
    method Feed(data: Data)
      requires algorithm.portfolio.Snapshot().Ready() && data.price > 0.0
      modifies algorithm, algorithm.portfolio
      ensures (algorithm.portfolio.Snapshot(), algorithm.memory)
           == Turn(algorithm.policy, old(algorithm.portfolio.Snapshot()), old(algorithm.memory), data)
    {
      algorithm.portfolio.UpdateReturnCurve(data);
      algorithm.OnData(data);
    }

    /** `run()`: one pass over a fresh cursor, marking each bar to market and then
        handing it to the strategy. The portfolio is not reset first. The result is the
        realised return `cum_return - 1`, or the KeyError of the first incomplete row,
        in which case the rows before it have been processed. */
    method Run() returns (r: Result<real>)
      requires ohlcv.Valid() && algorithm.portfolio.Snapshot().Ready()
      requires PositivePrices(ohlcv.priceColumn, ohlcv.ohlcv)
      modifies algorithm, algorithm.portfolio
      ensures Outcome(algorithm.portfolio.Snapshot(), algorithm.memory, r)
           == Played(algorithm.policy, old(algorithm.portfolio.Snapshot()), old(algorithm.memory),
                     ohlcv.symbol, ohlcv.priceColumn, ohlcv.indicatorColumns, ohlcv.ohlcv)
    {
      var portfolio := algorithm.portfolio;
      ghost var policy := algorithm.policy;
      ghost var rows, symbol, priceColumn, indicatorColumns := ohlcv.ohlcv, ohlcv.symbol, ohlcv.priceColumn, ohlcv.indicatorColumns;
      ghost var outcome := Played(policy, portfolio.Snapshot(), algorithm.memory, symbol, priceColumn, indicatorColumns, rows);
      var it := ohlcv.Iter();
      while true
        invariant it.Valid() && fresh(it)
        invariant portfolio.Snapshot().Ready() && PositivePrices(priceColumn, rows[it.currentIndex..])
        invariant outcome == Played(policy, portfolio.Snapshot(), algorithm.memory, symbol, priceColumn, indicatorColumns, rows[it.currentIndex..])
        decreases |rows| - it.currentIndex
      {
        ghost var i := it.currentIndex;
        var next := it.Next();
        if next.None? {
          break;
        }
        if next.value.Err? {
          return Err(next.value.error);
        }
        assert rows[i..][1..] == rows[i + 1..];
        Feed(next.value.value);
      }
      return Ok(portfolio.cumReturn - 1.0);
    }
  }
}
