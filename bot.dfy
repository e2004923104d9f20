/** The trading session: the exchange connection, the records of the current grid,
    the running fee and profit figures, and what the account overview shows. The
    exchange client's calls are oracle parameters of the operations that make them. */
module Bot {
  import opened Exchange
  import opened GridMath
  import opened Submission
  import opened Positions

  /** What the three account-overview labels show. */
  datatype Display = NotConnectedShown | ErrorShown | Overview(balance: real, positionsValue: real, totalPnl: real)

  /** How grid creation ended: refused without an exchange, a division by zero
      before any order (a grid count of 0 or 1), every level walked, or a division
      by zero at a level priced at zero, which stops the walk there. */
  datatype CreateOutcome = NotConnected | DivisionByZero | Created | ZeroPriceAt(index: nat)

  /** How closing ended: refused without an exchange, a fetch that raised, or done. */
  datatype CloseOutcome = CloseRefused | FetchFailed | Closed

  /** The number of indices in a Python `range(n)`. */
  function RangeLength(n: int): (r: nat)
    ensures n >= 0 ==> r == n
    ensures n < 0 ==> r == 0
  {
    if n < 0 then 0 else n
  }

  /** The total USD balance in a fetched balance, 0 when either key is missing. */
  function UsdTotal(balance: map<string, map<string, real>>): (r: real)
    ensures "USD" !in balance ==> r == 0.0
    ensures "USD" in balance && "total" !in balance["USD"] ==> r == 0.0
    ensures "USD" in balance && "total" in balance["USD"] ==> r == balance["USD"]["total"]
  {
    if "USD" in balance && "total" in balance["USD"] then balance["USD"]["total"] else 0.0
  }

  /** The start balance after a fetched balance: taken only while it is still 0. */
  function Latched(start: real, fetched: real): real
  {
    if start == 0.0 then fetched else start
  }

  /** The first non-zero balance latched stays, whatever is fetched afterwards;
      a zero balance leaves the latch open for the next one. */
  lemma LatchKeepsFirst(x: real, y: real)
    ensures x != 0.0 ==> Latched(Latched(0.0, x), y) == x
    ensures x == 0.0 ==> Latched(Latched(0.0, x), y) == y
  {
  }

  class GridTradingBot {
    /** Whether an authenticated exchange client is held. */
    var connected: bool
    /** The configured market symbol. */
    var symbol: string
    /** The records of the levels of the current grid. */
    var gridLevels: seq<GridLevel>
    /** The estimated maker fees of every order placed in this session. */
    var totalFees: real
    /** Realized profit: set once at start-up and never written again. */
    const realizedPnl: real := 0.0
    /** The first non-zero balance fetched, 0 until then. */
    var startBalance: real
    /** What the account-overview labels show. */
    var display: Display
    /** Whether a next account-overview tick is scheduled. */
    var tickPending: bool

    /** Every record carries the maker fee of its order value. */
    ghost predicate Valid()
      reads this
    {
      forall t :: 0 <= t < |gridLevels| ==> FeeCharged(gridLevels[t])
    }

    /** Start-up: no exchange, no grid, no fees, and the first account-overview
        tick, which finds no exchange and so schedules no further tick. */
    constructor ()
      ensures Valid()
      ensures !connected && symbol == "BTC/USD:USD" && gridLevels == []
      ensures totalFees == 0.0 && realizedPnl == 0.0 && startBalance == 0.0
      ensures display == NotConnectedShown && !tickPending
    {
      connected := false;
      symbol := "BTC/USD:USD";
      gridLevels := [];
      totalFees := 0.0;
      startBalance := 0.0;
      display := NotConnectedShown;
      tickPending := false;
      new;
      var _ := UpdateAccountOverview(None, None);
    }

    /** The state effect of a connection test: on success the client is kept and
        the chosen market becomes the symbol; on failure the client is dropped. */
    method Connect(authenticated: bool, market: string)
      modifies this`connected, this`symbol
      ensures connected == authenticated
      ensures symbol == if authenticated then market else old(symbol)
    {
      if authenticated {
        connected := true;
        symbol := market;
      } else {
        connected := false;
      }
    }

    /** One account-overview tick, given what the balance fetch and the position
        fetch return (`None` when the call raises). Only a tick that gets both
        schedules the next one. */
    method UpdateAccountOverview(balance: Option<map<string, map<string, real>>>, positions: Option<seq<Position>>)
      returns (reschedule: bool)
      modifies this`startBalance, this`display, this`tickPending
      ensures tickPending == reschedule
      ensures reschedule <==> connected && balance.Some? && positions.Some?
      ensures !connected ==> display == NotConnectedShown && startBalance == old(startBalance)
      ensures connected && balance.None? ==> display == ErrorShown && startBalance == old(startBalance)
      ensures connected && balance.Some? ==>
                startBalance == Latched(old(startBalance), UsdTotal(balance.value))
      ensures connected && balance.Some? && positions.None? ==> display == ErrorShown
      ensures connected && balance.Some? && positions.Some? ==>
                display == Overview(UsdTotal(balance.value), OpenNotional(positions.value),
                                    realizedPnl + OpenUnrealized(positions.value) - totalFees)
    {
      if !connected {
        display := NotConnectedShown;
        tickPending := false;
        return false;
      }
      if balance.None? {
        display := ErrorShown;
        tickPending := false;
        return false;
      }
      var usd := UsdTotal(balance.value);
      if startBalance == 0.0 {
        startBalance := usd;
      }
      if positions.None? {
        display := ErrorShown;
        tickPending := false;
        return false;
      }
      var ps := positions.value;
      var totalValue := 0.0;
      var unrealized := 0.0;
      var i := 0;
      while i < |ps|
        invariant 0 <= i <= |ps|
        invariant totalValue == OpenNotional(ps[..i])
        invariant unrealized == OpenUnrealized(ps[..i])
      {
        if ps[i].contracts > 0.0 {
          totalValue := totalValue + ps[i].notional;
          unrealized := unrealized + ps[i].unrealizedPnl;
        }
        assert ps[..i + 1][..i] == ps[..i];
        i := i + 1;
      }
      assert ps[..i] == ps;
      display := Overview(usd, totalValue, realizedPnl + unrealized - totalFees);
      tickPending := true;
      return true;
    }

    /** Grid creation, given the exchange's answer to each level's limit order.
        Without an exchange nothing happens. Otherwise the grid count is not
        validated: 0 and 1 divide by zero before anything changes, a negative
        count walks no level, and a level priced at zero stops the walk with what
        was placed so far. The records are replaced by those of the accepted
        levels, and every accepted order adds its maker fee to the running total. */
    method CreateGridBot(g: Grid, direction: string, place: nat -> Placement)
      returns (outcome: CreateOutcome)
      requires Valid()
      modifies this`gridLevels, this`totalFees
      ensures Valid()
      ensures outcome == NotConnected <==> !connected
      ensures outcome == DivisionByZero <==> connected && (g.count == 0 || g.count == 1)
      ensures outcome == NotConnected || outcome == DivisionByZero ==>
                gridLevels == old(gridLevels) && totalFees == old(totalFees)
      ensures outcome == Created ==>
                Walkable(g, RangeLength(g.count))
                && gridLevels == Placed(g, direction, place, RangeLength(g.count))
      ensures outcome.ZeroPriceAt? ==>
                outcome.index < g.count && Walkable(g, outcome.index)
                && Price(g, outcome.index) == 0.0
                && gridLevels == Placed(g, direction, place, outcome.index)
      ensures outcome == Created || outcome.ZeroPriceAt? ==>
                totalFees == old(totalFees) + FeeSum(gridLevels)
    {
      if !connected {
        return NotConnected;
      }
      if g.count == 1 || g.count == 0 {
        return DivisionByZero;
      }
      gridLevels := [];
      var i := 0;
      while i < g.count
        invariant 0 <= i <= RangeLength(g.count)
        invariant Walkable(g, i)
        invariant gridLevels == Placed(g, direction, place, i)
        invariant totalFees == old(totalFees) + FeeSum(gridLevels)
        invariant Valid()
      {
        var price := Price(g, i);
        if price == 0.0 {
          return ZeroPriceAt(i);
        }
        var size := Size(g, i);
        PlacedNext(g, direction, place, i);
        if place(i).Accepted? {
          var fee := size * price * MakerFee;
          var level := GridLevel(price, size, place(i).order, SideFor(direction), fee);
          assert level == GridLevel(Price(g, i), Size(g, i), place(i).order, SideFor(direction),
                                    Size(g, i) * Price(g, i) * MakerFee);
          assert Placed(g, direction, place, i + 1) == Placed(g, direction, place, i) + [level];
          assert Placed(g, direction, place, i + 1) == gridLevels + [level];
          FeeSumAppend(gridLevels, level);
          totalFees := totalFees + fee;
          gridLevels := gridLevels + [level];
        } else {
          assert Placed(g, direction, place, i + 1) == gridLevels;
        }
        i := i + 1;
      }
      return Created;
    }

    /** Closing everything, given what the open-order fetch and the position fetch
        return (`None` when the call raises) and the client's answer to each cancel
        and each closing order. Every open order gets one cancel request and every
        position holding contracts one flattening market order, whatever the
        answers; the grid records are dropped only when both fetches succeed. */
    method CloseAllPositions(openOrders: Option<seq<OrderRef>>, cancelOk: nat -> bool,
                             positions: Option<seq<Position>>, closeOk: nat -> bool)
      returns (outcome: CloseOutcome, cancels: seq<Attempt<OrderRef>>, closes: seq<Attempt<MarketOrder>>)
      requires Valid()
      modifies this`gridLevels
      ensures Valid()
      ensures outcome == CloseRefused <==> !connected
      ensures outcome == Closed <==> connected && openOrders.Some? && positions.Some?
      ensures outcome != Closed ==> gridLevels == old(gridLevels)
      ensures outcome == Closed ==> gridLevels == []
      ensures !connected || openOrders.None? ==> cancels == []
      ensures connected && openOrders.Some? ==>
                |cancels| == |openOrders.value|
                && forall k :: 0 <= k < |cancels| ==> cancels[k] == Attempt(openOrders.value[k], cancelOk(k))
      ensures outcome != Closed ==> closes == []
      ensures outcome == Closed ==> closes == CloseAttempts(positions.value, closeOk)
    {
      cancels, closes := [], [];
      if !connected {
        return CloseRefused, cancels, closes;
      }
      if openOrders.None? {
        return FetchFailed, cancels, closes;
      }
      var orders := openOrders.value;
      var k := 0;
      while k < |orders|
        invariant 0 <= k <= |orders|
        invariant |cancels| == k
        invariant forall j :: 0 <= j < k ==> cancels[j] == Attempt(orders[j], cancelOk(j))
      {
        cancels := cancels + [Attempt(orders[k], cancelOk(k))];
        k := k + 1;
      }
      if positions.None? {
        return FetchFailed, cancels, closes;
      }
      var ps := positions.value;
      var j := 0;
      while j < |ps|
        invariant 0 <= j <= |ps|
        invariant closes == CloseAttempts(ps[..j], closeOk)
      {
        if ps[j].contracts > 0.0 {
          closes := closes + [Attempt(Flatten(ps[j]), closeOk(j))];
        }
        assert ps[..j + 1][..j] == ps[..j];
        j := j + 1;
      }
      assert ps[..j] == ps;
      gridLevels := [];
      return Closed, cancels, closes;
    }
  }
}
