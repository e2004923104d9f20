/** What the bot derives from a fetched list of positions: the market orders that
    flatten them, and the sums shown in the account overview. Only positions
    holding contracts take part in either. */
module Positions {
  import opened Exchange

  /** A position takes part when it holds contracts. */
  predicate Open(p: Position)
  {
    p.contracts > 0.0
  }

  /** The market order that flattens a position: sell a long, buy anything else,
      for exactly the position's contracts. */
  function Flatten(p: Position): (o: MarketOrder)
    ensures o.amount == p.contracts
    ensures o.side == Sell <==> p.side == "long"
    ensures Open(p) ==> Volume([o]) + Exposure([p]) == 0.0
  {
    MarketOrder(if p.side == "long" then Sell else Buy, p.contracts)
  }

  /** One closing request per open position, in list order, each tagged with the
      client's answer to it (`closeOk` by position index). */
  function CloseAttempts(ps: seq<Position>, closeOk: nat -> bool): seq<Attempt<MarketOrder>>
  {
    if ps == [] then []
    else
      var n := |ps| - 1;
      CloseAttempts(ps[..n], closeOk) + (if Open(ps[n]) then [Attempt(Flatten(ps[n]), closeOk(n))] else [])
  }

  /** The requests of a run of attempts. */
  function Requests<R>(attempts: seq<Attempt<R>>): (r: seq<R>)
    ensures |r| == |attempts|
    ensures forall k :: 0 <= k < |r| ==> r[k] == attempts[k].request
  {
    if attempts == [] then [] else Requests(attempts[..|attempts| - 1]) + [attempts[|attempts| - 1].request]
  }

  /** Signed exposure: contracts held long count positive, any other side negative. */
  function Exposure(ps: seq<Position>): real
  {
    if ps == [] then 0.0
    else
      var p := ps[|ps| - 1];
      Exposure(ps[..|ps| - 1]) + (if !Open(p) then 0.0 else if p.side == "long" then p.contracts else -p.contracts)
  }

  /** Signed volume of market orders: buys count positive, sells negative. */
  function Volume(orders: seq<MarketOrder>): real
  {
    if orders == [] then 0.0
    else
      var o := orders[|orders| - 1];
      Volume(orders[..|orders| - 1]) + (if o.side == Buy then o.amount else -o.amount)
  }

  /** Whatever the client answers, the closing requests are the same: one failure
      neither stops nor changes the requests for the other positions. */
  lemma {:induction false} RequestsIgnoreAnswers(ps: seq<Position>, f: nat -> bool, h: nat -> bool)
    ensures Requests(CloseAttempts(ps, f)) == Requests(CloseAttempts(ps, h))
  {
    if ps != [] {
      var n := |ps| - 1;
      RequestsIgnoreAnswers(ps[..n], f, h);
    }
  }

  /** The closing requests exactly offset the exposure of the open positions. */
  lemma {:induction false} CloseFlattens(ps: seq<Position>, closeOk: nat -> bool)
    ensures Volume(Requests(CloseAttempts(ps, closeOk))) + Exposure(ps) == 0.0
  {
    if ps != [] {
      var n := |ps| - 1;
      var p := ps[n];
      var before := Requests(CloseAttempts(ps[..n], closeOk));
      CloseFlattens(ps[..n], closeOk);
      assert Exposure(ps) == Exposure(ps[..n]) + Exposure([p]);
      if Open(p) {
        var o := Flatten(p);
        RequestsAppend(CloseAttempts(ps[..n], closeOk), Attempt(o, closeOk(n)));
        var now := before + [o];
        assert now[..|now| - 1] == before;
        assert Volume(now) == Volume(before) + Volume([o]);
      } else {
        assert CloseAttempts(ps, closeOk) == CloseAttempts(ps[..n], closeOk);
      }
    }
  }

  lemma RequestsAppend<R>(attempts: seq<Attempt<R>>, a: Attempt<R>)
    ensures Requests(attempts + [a]) == Requests(attempts) + [a.request]
  {
    assert (attempts + [a])[..|attempts|] == attempts;
  }

  /** One request per open position, each for a positive amount. */
  lemma {:induction false} CloseCount(ps: seq<Position>, closeOk: nat -> bool)
    ensures |CloseAttempts(ps, closeOk)| == |OpenOnly(ps)|
    ensures forall k :: 0 <= k < |CloseAttempts(ps, closeOk)| ==>
              CloseAttempts(ps, closeOk)[k].request == Flatten(OpenOnly(ps)[k])
              && CloseAttempts(ps, closeOk)[k].request.amount > 0.0
  {
    if ps != [] {
      CloseCount(ps[..|ps| - 1], closeOk);
    }
  }

  /** The positions that hold contracts, in list order. */
  function OpenOnly(ps: seq<Position>): (r: seq<Position>)
    ensures |r| <= |ps|
    ensures forall k :: 0 <= k < |r| ==> Open(r[k])
    ensures forall p :: p in r <==> p in ps && Open(p)
  {
    if ps == [] then []
    else OpenOnly(ps[..|ps| - 1]) + (if Open(ps[|ps| - 1]) then [ps[|ps| - 1]] else [])
  }

  /** Summed notional of the open positions. */
  function OpenNotional(ps: seq<Position>): real
  {
    if ps == [] then 0.0
    else OpenNotional(ps[..|ps| - 1]) + (if Open(ps[|ps| - 1]) then ps[|ps| - 1].notional else 0.0)
  }

  /** Summed unrealized profit and loss of the open positions. */
  function OpenUnrealized(ps: seq<Position>): real
  {
    if ps == [] then 0.0
    else OpenUnrealized(ps[..|ps| - 1]) + (if Open(ps[|ps| - 1]) then ps[|ps| - 1].unrealizedPnl else 0.0)
  }

  /** The sums split over a concatenation, so the order of the fetched list does
      not matter. */
  lemma {:induction false} OpenSumsSplit(a: seq<Position>, b: seq<Position>)
    ensures OpenNotional(a + b) == OpenNotional(a) + OpenNotional(b)
    ensures OpenUnrealized(a + b) == OpenUnrealized(a) + OpenUnrealized(b)
    decreases |b|
  {
    if b == [] {
      assert a + b == a;
    } else {
      var n := |b| - 1;
      assert (a + b)[..|a + b| - 1] == a + b[..n];
      OpenSumsSplit(a, b[..n]);
    }
  }

  /** Swapping two runs of the fetched list leaves the sums alone. */
  lemma {:induction false} OpenSumsCommute(a: seq<Position>, b: seq<Position>)
    ensures OpenNotional(a + b) == OpenNotional(b + a)
    ensures OpenUnrealized(a + b) == OpenUnrealized(b + a)
  {
    OpenSumsSplit(a, b);
    OpenSumsSplit(b, a);
  }

  /** The sums do not depend on the order of the fetched list: any rearrangement
      of the same positions gives the same sums. */
  lemma {:induction false} OpenSumsPermutation(a: seq<Position>, b: seq<Position>)
    requires multiset(a) == multiset(b)
    ensures OpenNotional(a) == OpenNotional(b)
    ensures OpenUnrealized(a) == OpenUnrealized(b)
    decreases |a|
  {
    if a == [] {
      assert |b| == |multiset(b)| == 0;
    } else {
      var n := |a| - 1;
      var x := a[n];
      assert a == a[..n] + [x];
      assert multiset(a[..n]) == multiset(a) - multiset{x};
      assert x in multiset(b);
      var k :| 0 <= k < |b| && b[k] == x;
      var rest := b[..k] + b[k + 1..];
      RemoveAt(b, k);
      OpenSumsPermutation(a[..n], rest);
      OpenSumsSplit(a[..n], [x]);
    }
  }

  /** Taking out the position at index `k` leaves the rest of the list, whose
      sums are those of the whole list less that position's. */
  lemma {:induction false} RemoveAt(b: seq<Position>, k: nat)
    requires k < |b|
    ensures multiset(b[..k] + b[k + 1..]) == multiset(b) - multiset{b[k]}
    ensures OpenNotional(b) == OpenNotional(b[..k] + b[k + 1..]) + OpenNotional([b[k]])
    ensures OpenUnrealized(b) == OpenUnrealized(b[..k] + b[k + 1..]) + OpenUnrealized([b[k]])
  {
    var front, x, back := b[..k], [b[k]], b[k + 1..];
    assert b == front + x + back;
    assert multiset(b) == multiset(front) + multiset(x) + multiset(back);
    OpenSumsSplit(front + x, back);
    OpenSumsSplit(front, x);
    OpenSumsSplit(front, back);
  }

  /** Positions without contracts contribute nothing to the sums. */
  lemma {:induction false} OpenSumsOfOpenOnly(ps: seq<Position>)
    ensures OpenNotional(OpenOnly(ps)) == OpenNotional(ps)
    ensures OpenUnrealized(OpenOnly(ps)) == OpenUnrealized(ps)
  {
    if ps != [] {
      var n := |ps| - 1;
      OpenSumsOfOpenOnly(ps[..n]);
      if Open(ps[n]) {
        OpenSumsSplit(OpenOnly(ps[..n]), [ps[n]]);
        assert [ps[n]][..0] == [];
      } else {
        assert OpenOnly(ps) == OpenOnly(ps[..n]);
      }
    }
  }
}
