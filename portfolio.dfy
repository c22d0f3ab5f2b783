/** The portfolio: a two-state (flat / in position) machine that turns buy and
    sell decisions and one price per bar into a mark-to-market return curve, a
    drawdown history and a realised trade return. `PortfolioState` is the value
    the `Portfolio` object's fields hold at one moment; its member functions are
    the transitions, and the class's methods are proved to perform them. */
module Portfolios {
  import opened Wrappers
  import opened MarketData

  /** A price that a buy may be issued at. */
  type Price = x: real | x > 0.0 witness 1.0

  /** The largest element of a non-empty sequence (Python's `max`). */
  function Max(s: seq<real>): (m: real)
    requires |s| > 0
    ensures m in s
    ensures forall k :: 0 <= k < |s| ==> s[k] <= m
  {
    if |s| == 1 then s[0]
    else
      var rest := Max(s[..|s| - 1]);
      if s[|s| - 1] > rest then s[|s| - 1] else rest
  }

  /** The drawdown of return `r` below the running peak `peak`: `-(1 - r/peak)`. */
  function Drawdown(r: real, peak: real): (d: real)
    requires 0.0 < r <= peak
    ensures d <= 0.0
    ensures d == 0.0 <==> r == peak
  {
    assert r / peak <= 1.0 by {
      assert r / peak * peak == r;
    }
    -(1.0 - r / peak)
  }

  /** The drawdown history of a return curve: one entry per sample, each taken
      against the peak of the curve up to and including that sample. */
  function Drawdowns(curve: seq<real>): (dds: seq<real>)
    requires forall k :: 0 <= k < |curve| ==> curve[k] > 0.0
    ensures |dds| == |curve|
    ensures forall k :: 0 <= k < |dds| ==> dds[k] <= 0.0
  {
    if curve == [] then []
    else
      var n := |curve| - 1;
      Drawdowns(curve[..n]) + [Drawdown(curve[n], Max(curve))]
  }

  datatype PortfolioState = PortfolioState(
    initialAmount: real,
    currentCash: real,
    cumReturn: real,
    buyPrice: real,
    inPosition: bool,
    tradesCurve: seq<real>,
    returnCurve: seq<real>,
    lastPrice: real,
    currReturn: real,
    ath: real,
    dds: seq<real>)
  {
    /** What holds of every state a new portfolio can reach by the operations below:
        every return positive; the current return is the
        last sample (1 before any) and the all-time high the largest (0 before any);
        the drawdowns are those of the curve; an open
        position has positive buy and last prices; the realised return is the last
        entry of the trades curve (1 before any sell). */
    ghost predicate Valid() {
      && Ready()
      && (forall k :: 0 <= k < |returnCurve| ==> returnCurve[k] > 0.0)
      && (returnCurve == [] ==> currReturn == 1.0 && ath == 0.0)
      && (returnCurve != [] ==> currReturn == returnCurve[|returnCurve| - 1] && ath == Max(returnCurve))
      && dds == Drawdowns(returnCurve)
      && (tradesCurve == [] ==> cumReturn == 1.0)
      && (tradesCurve != [] ==> cumReturn == tradesCurve[|tradesCurve| - 1])
    }

    /** What the transitions below need in order to divide: a positive current
        return and, in position, positive buy and last prices. */
    predicate Ready() {
      currReturn > 0.0 && (inPosition ==> buyPrice > 0.0 && lastPrice > 0.0)
    }

    /** `update_return_curve` for a bar priced `price`. It needs no more than a positive
        current return and, in position, positive last and new prices. */
    function Updated(price: real): (t: PortfolioState)
      requires currReturn > 0.0
      requires inPosition ==> lastPrice > 0.0 && price > 0.0
      ensures t.returnCurve == returnCurve + [t.currReturn]
      ensures 0.0 < t.currReturn <= t.ath
      ensures t.dds == dds + [Drawdown(t.currReturn, t.ath)]
      ensures t.ath >= ath && t.ath >= t.currReturn && (t.ath == ath || t.ath == t.currReturn)
      ensures !inPosition ==> t.currReturn == currReturn && t.currentCash == currentCash && t.lastPrice == lastPrice
      ensures inPosition ==>
        t.currReturn == currReturn * (price / lastPrice) && t.currentCash == currentCash * t.currReturn && t.lastPrice == price
      ensures t.(currReturn := currReturn, currentCash := currentCash, lastPrice := lastPrice,
                 returnCurve := returnCurve, ath := ath, dds := dds) == this
      ensures Ready() ==> t.Ready()
    {
      var cr := if inPosition then currReturn * (price / lastPrice) else currReturn;
      assert cr > 0.0 by {
        if inPosition {
          assert price / lastPrice > 0.0;
        }
      }
      var cash := if inPosition then currentCash * cr else currentCash;
      var lp := if inPosition then price else lastPrice;
      var peak := if cr > ath then cr else ath;
      this.(currReturn := cr, currentCash := cash, lastPrice := lp,
            returnCurve := returnCurve + [cr], ath := peak, dds := dds + [Drawdown(cr, peak)])
    }

    /** `buy(price)`: ignored while in position; otherwise opens a position at `price`. */
    function Bought(price: Price): (t: PortfolioState)
      ensures inPosition ==> t == this
      ensures !inPosition ==> t.inPosition && t.buyPrice == price && t.lastPrice == price
      ensures t.(buyPrice := buyPrice, lastPrice := lastPrice, inPosition := inPosition) == this
      ensures Ready() ==> t.Ready()
      ensures Valid() ==> t.Valid()
    {
      if inPosition then this
      else this.(buyPrice := price, lastPrice := price, inPosition := true)
    }

    /** `sell(price)`: ignored while flat; otherwise closes the position, compounding
        the realised return by `price / buyPrice` and recording it. The cash balance
        is deliberately left as it is. */
    function Sold(price: real): (t: PortfolioState)
      requires inPosition ==> buyPrice != 0.0
      ensures !inPosition ==> t == this
      ensures inPosition ==>
        && !t.inPosition
        && t.cumReturn == cumReturn * (price / buyPrice)
        && t.tradesCurve == tradesCurve + [t.cumReturn]
      ensures t.(cumReturn := cumReturn, tradesCurve := tradesCurve, inPosition := inPosition) == this
      ensures Ready() ==> t.Ready()
      ensures Valid() ==> t.Valid()
    {
      if !inPosition then this
      else
        var cum := cumReturn * (price / buyPrice);
        this.(cumReturn := cum, tradesCurve := tradesCurve + [cum], inPosition := false)
    }
  }

  /** A new portfolio holding `cash`. */
  function Initial(cash: real): (s: PortfolioState)
    ensures s.Valid()
    ensures s.initialAmount == cash && s.currentCash == cash && !s.inPosition
    ensures s.returnCurve == [] && s.dds == [] && s.tradesCurve == []
  {
    PortfolioState(cash, cash, 1.0, 0.0, false, [], [], 0.0, 1.0, 0.0, [])
  }

  /** The maximum of a sequence with one more element. */
  lemma {:induction false} MaxAppend(s: seq<real>, x: real)
    requires |s| > 0
    ensures Max(s + [x]) == if x > Max(s) then x else Max(s)
  {
    assert (s + [x])[..|s|] == s;
  }

  /** `update_return_curve` keeps the portfolio invariant: in particular the all-time
      high stays the maximum of the return curve and the new drawdown is measured
      against it. */
  lemma {:induction false} UpdatedValid(s: PortfolioState, price: real)
    requires s.Valid()
    requires s.inPosition ==> price > 0.0
    ensures s.Updated(price).Valid()
  {
    var t := s.Updated(price);
    var n := |s.returnCurve|;
    if n == 0 {
      assert t.returnCurve == [t.currReturn];
    } else {
      MaxAppend(s.returnCurve, t.currReturn);
    }
    assert t.returnCurve[..n] == s.returnCurve;
  }

  /** The first drawdown of any curve is zero: the peak of a one-sample curve is that sample. */
  lemma {:induction false} FirstDrawdownZero(curve: seq<real>)
    requires curve != []
    requires forall k :: 0 <= k < |curve| ==> curve[k] > 0.0
    ensures Drawdowns(curve)[0] == 0.0
  {
    var n := |curve| - 1;
    if n == 0 {
      assert Max(curve) == curve[0];
    } else {
      FirstDrawdownZero(curve[..n]);
    }
  }

  /** Every recorded drawdown is at most zero. */
  lemma {:induction false} DrawdownsNonPositive(s: PortfolioState)
    requires s.Valid()
    ensures forall k :: 0 <= k < |s.dds| ==> s.dds[k] <= 0.0
  {
    forall k | 0 <= k < |s.dds|
      ensures s.dds[k] <= 0.0
    {
      assert s.returnCurve[..k + 1][k] == s.returnCurve[k];
    }
  }

  /** In every valid state the curves are in step, the all-time high bounds the
      whole return curve, and once a bar has been seen it is at least the current
      return, which is positive. */
  lemma ValidBounds(s: PortfolioState)
    requires s.Valid()
    ensures |s.dds| == |s.returnCurve|
    ensures forall k :: 0 <= k < |s.returnCurve| ==> s.returnCurve[k] <= s.ath
    ensures s.returnCurve != [] ==> s.ath >= s.currReturn > 0.0
  {
  }

  /** A round trip: a bar at 100 is marked while flat, a position is opened at 100
      and held through bars at 110 and 99, and it is closed at 99. The return curve
      follows the price from the entry, and the trade realises 99/100. */
  lemma RoundTrip(cash: real)
    ensures var t := Initial(cash).Updated(100.0).Bought(100.0).Updated(110.0).Updated(99.0).Sold(99.0);
      && t.returnCurve == [1.0, 1.1, 0.99] && t.cumReturn == 0.99 && t.tradesCurve == [0.99]
      && !t.inPosition && t.currentCash == cash * 1.1 * 0.99
  {
    var s1 := Initial(cash).Updated(100.0);
    assert s1.currReturn == 1.0 && s1.returnCurve == [1.0] && s1.currentCash == cash;
    var s2 := s1.Bought(100.0);
    assert s2.inPosition && s2.lastPrice == 100.0 && s2.buyPrice == 100.0;
    assert s2.currReturn == 1.0 && s2.returnCurve == [1.0] && s2.currentCash == cash;
    var s3 := s2.Updated(110.0);
    assert s3.currReturn == 1.1;
    assert s3.currentCash == s2.currentCash * s3.currReturn;
    assert s3.returnCurve == [1.0, 1.1] && s3.currentCash == cash * 1.1;
    var s4 := s3.Updated(99.0);
    assert s4.currReturn == 1.1 * (99.0 / 110.0) == 0.99;
    assert s4.currentCash == s3.currentCash * s4.currReturn;
    assert s4.returnCurve == [1.0, 1.1, 0.99] && s4.currentCash == cash * 1.1 * 0.99;
    assert s4.Sold(99.0).cumReturn == 1.0 * (99.0 / 100.0) == 0.99;
  }

  /** The mutable portfolio: the fields of the Python object. */
  class Portfolio {
    var initialAmount: real
    var currentCash: real
    var cumReturn: real
    var buyPrice: real
    var inPosition: bool
    var tradesCurve: seq<real>
    var returnCurve: seq<real>
    var lastPrice: real
    var currReturn: real
    var ath: real
    var dds: seq<real>

    /** The value of the fields. */
    function Snapshot(): PortfolioState
      reads this
    {
      PortfolioState(initialAmount, currentCash, cumReturn, buyPrice, inPosition,
                     tradesCurve, returnCurve, lastPrice, currReturn, ath, dds)
    }

    ghost predicate Valid()
      reads this
    {
      Snapshot().Valid()
    }

    constructor (cashAmount: real)
      ensures Snapshot() == Initial(cashAmount) && Valid()
    {
      initialAmount := cashAmount;
      currentCash := cashAmount;
      cumReturn := 1.0;
      buyPrice := 0.0;
      inPosition := false;
      tradesCurve := [];
      returnCurve := [];
      lastPrice := 0.0;
      currReturn := 1.0;
      ath := 0.0;
      dds := [];
    }

    /** `update_return_curve(data)`, once per bar before the strategy sees it. It
        needs what `Updated` needs; that it keeps `Valid` is `UpdatedValid`. */
    method UpdateReturnCurve(data: Data)
      requires currReturn > 0.0
      requires inPosition ==> lastPrice > 0.0 && data.price > 0.0
      modifies this
      ensures Snapshot() == old(Snapshot()).Updated(data.price)
    {
      ghost var after := Snapshot().Updated(data.price);
      if inPosition {
        var grown := currReturn * (data.price / lastPrice);
        assert grown == after.currReturn;
        currReturn := grown;
        returnCurve := returnCurve + [currReturn];
        var cash := currentCash * currReturn;
        assert cash == after.currentCash;
        currentCash := cash;
        lastPrice := data.price;
      } else {
        returnCurve := returnCurve + [currReturn];
      }
      if currReturn > ath {
        ath := currReturn;
      }
      dds := dds + [Drawdown(currReturn, ath)];
    }

    /** `max_drawdown()`: the largest recorded drawdown; ValueError when none is recorded. */
    function MaxDrawdown(): (r: Result<real>)
      reads this
      ensures r.Ok? <==> dds != []
      ensures r.Err? ==> r.error == ValueError
      ensures r.Ok? ==> r.value in dds && forall k :: 0 <= k < |dds| ==> dds[k] <= r.value
    {
      if dds == [] then Err(ValueError) else Ok(Max(dds))
    }

    /** `CAR(num_of_years)`: the last return sample divided by the number of years
        (`x ** 1 / y`, which is `x / y`). IndexError on an empty curve, else
        ZeroDivisionError for zero years. */
    function CAR(numOfYears: real): (r: Result<real>)
      reads this
      ensures r.Ok? <==> returnCurve != [] && numOfYears != 0.0
      ensures returnCurve == [] ==> r == Err(IndexError)
      ensures returnCurve != [] && numOfYears == 0.0 ==> r == Err(ZeroDivisionError)
      ensures r.Ok? ==> r.value * numOfYears == returnCurve[|returnCurve| - 1]
    {
      if returnCurve == [] then Err(IndexError)
      else if numOfYears == 0.0 then Err(ZeroDivisionError)
      else Ok(returnCurve[|returnCurve| - 1] / numOfYears)
    }

    /** `buy(price)`. */
    method Buy(price: Price)
      modifies this
      ensures Snapshot() == old(Snapshot()).Bought(price)
      ensures old(Valid()) ==> Valid()
    {
      if inPosition {
        return;
      }
      buyPrice := price;
      lastPrice := price;
      inPosition := true;
    }

    /** `sell(price)`. */
    method Sell(price: real)
      requires inPosition ==> buyPrice != 0.0
      modifies this
      ensures Snapshot() == old(Snapshot()).Sold(price)
      ensures old(Valid()) ==> Valid()
    {
      if !inPosition {
        return;
      }
      cumReturn := cumReturn * (price / buyPrice);
      tradesCurve := tradesCurve + [cumReturn];
      inPosition := false;
    }
  }

  /** The literal `max(dds)` is always zero once a bar has been seen: the first
      drawdown is taken when the all-time high is that bar's return itself, and no
      drawdown is positive. It is the drawdown nearest zero, not the worst one. */
  lemma {:induction false} MaxDrawdownIsZero(p: Portfolio)
    requires p.Valid() && p.dds != []
    ensures p.MaxDrawdown() == Ok(0.0)
  {
    var s := p.Snapshot();
    FirstDrawdownZero(s.returnCurve);
  }
}
