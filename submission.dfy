/** What grid creation leaves behind: the records of the levels the exchange
    accepted, in ladder order, and the maker fee charged for each. */
module Submission {
  import opened Exchange
  import opened GridMath

  /** The maker fee rate of the one configured exchange. */
  const MakerFee: real := 0.0001

  /** The record kept for each accepted level. */
  datatype GridLevel = GridLevel(price: real, size: real, order: OrderRef, side: Side, fee: real)

  /** The side of every order of a grid: buy for the "Long" direction, sell for
      any other. */
  function SideFor(direction: string): (s: Side)
    ensures s == Buy <==> direction == "Long"
  {
    if direction == "Long" then Buy else Sell
  }

  /** The fee of a record is its order value times the maker fee rate. */
  predicate FeeCharged(l: GridLevel)
  {
    l.fee == l.size * l.price * MakerFee
  }

  /** The levels up to `k` can be walked: both divisions before the loop are
      defined and none of the first `k` levels is priced at zero. */
  predicate Walkable(g: Grid, k: int)
  {
    g.count != 0 && g.count != 1 && Priced(g, k)
  }

  /** The record of accepted level `i`; every order is charged the same fee. */
  function Record(g: Grid, direction: string, i: int, order: OrderRef): (l: GridLevel)
    requires g.count != 0 && g.count != 1 && Price(g, i) != 0.0
    ensures FeeCharged(l) && l.price == Price(g, i) && l.side == SideFor(direction)
    ensures l.fee == LevelFee(g)
  {
    var price := Price(g, i);
    var size := Size(g, i);
    GridLevel(price, size, order, SideFor(direction), size * price * MakerFee)
  }

  /** The records kept after walking the first `k` levels, given the exchange's
      answer `place(i)` for each level `i`: a rejected level adds nothing. */
  function Placed(g: Grid, direction: string, place: nat -> Placement, k: nat): seq<GridLevel>
    requires Walkable(g, k)
  {
    if k == 0 then []
    else
      Placed(g, direction, place, k - 1) +
        match place(k - 1)
        case Accepted(order) => [Record(g, direction, k - 1, order)]
        case Rejected => []
  }

  /** Walking level `i` appends its record exactly when the exchange accepted it. */
  lemma {:induction false} PlacedNext(g: Grid, direction: string, place: nat -> Placement, i: nat)
    requires Walkable(g, i + 1)
    ensures place(i).Accepted? ==>
              Placed(g, direction, place, i + 1)
              == Placed(g, direction, place, i)
                 + [GridLevel(Price(g, i), Size(g, i), place(i).order, SideFor(direction),
                              Size(g, i) * Price(g, i) * MakerFee)]
    ensures place(i).Rejected? ==> Placed(g, direction, place, i + 1) == Placed(g, direction, place, i)
  {
    if place(i).Accepted? {
      var r := Record(g, direction, i, place(i).order);
      assert Placed(g, direction, place, i + 1) == Placed(g, direction, place, i) + [r];
      assert r == GridLevel(Price(g, i), Size(g, i), place(i).order, SideFor(direction),
                            Size(g, i) * Price(g, i) * MakerFee);
    }
  }

  /** How many of the first `k` levels the exchange accepted. */
  function AcceptedCount(place: nat -> Placement, k: nat): nat
  {
    if k == 0 then 0 else AcceptedCount(place, k - 1) + (if place(k - 1).Accepted? then 1 else 0)
  }

  /** The summed fee of a run of records. */
  function FeeSum(levels: seq<GridLevel>): real
  {
    if levels == [] then 0.0 else FeeSum(levels[..|levels| - 1]) + levels[|levels| - 1].fee
  }

  /** Appending a record adds its fee. */
  lemma {:induction false} FeeSumAppend(levels: seq<GridLevel>, l: GridLevel)
    ensures FeeSum(levels + [l]) == FeeSum(levels) + l.fee
  {
    assert (levels + [l])[..|levels|] == levels;
  }

  /** The fee charged for each accepted order of a grid. */
  function LevelFee(g: Grid): real
    requires g.count != 0
  {
    PerGrid(g) * (g.leverage as real) * MakerFee
  }

  /** One record per accepted level. */
  lemma {:induction false} PlacedLength(g: Grid, direction: string, place: nat -> Placement, k: nat)
    requires Walkable(g, k)
    ensures |Placed(g, direction, place, k)| == AcceptedCount(place, k)
  {
    if k > 0 {
      PlacedLength(g, direction, place, k - 1);
    }
  }

  /** A run of records that all carry the same fee sums to that fee per record. */
  lemma {:induction false} UniformFees(levels: seq<GridLevel>, f: real, n: nat)
    requires |levels| == n
    requires forall t :: 0 <= t < |levels| ==> levels[t].fee == f
    ensures FeeSum(levels) == (n as real) * f
  {
    if levels != [] {
      UniformFees(levels[..|levels| - 1], f, n - 1);
    }
  }

  /** One record per accepted level, and the fees add up to one per-level fee for
      each accepted order and nothing for the rejected ones. */
  lemma {:induction false} PlacedFees(g: Grid, direction: string, place: nat -> Placement, k: nat)
    requires Walkable(g, k)
    ensures |Placed(g, direction, place, k)| == AcceptedCount(place, k)
    ensures FeeSum(Placed(g, direction, place, k)) == (AcceptedCount(place, k) as real) * LevelFee(g)
  {
    PlacedLength(g, direction, place, k);
    PlacedRecords(g, direction, place, k);
    UniformFees(Placed(g, direction, place, k), LevelFee(g), AcceptedCount(place, k));
  }

  /** Every record carries the grid's per-order fee and the grid's side. */
  lemma {:induction false} PlacedRecords(g: Grid, direction: string, place: nat -> Placement, k: nat)
    requires Walkable(g, k)
    ensures forall t :: 0 <= t < |Placed(g, direction, place, k)| ==>
              Placed(g, direction, place, k)[t].fee == LevelFee(g)
              && Placed(g, direction, place, k)[t].side == SideFor(direction)
  {
    if k > 0 {
      PlacedRecords(g, direction, place, k - 1);
    }
  }

  /** With the upper bound above the lower one, the records are in ladder order:
      strictly falling prices, all above the price of the next level to walk. */
  lemma {:induction false} PlacedInLadderOrder(g: Grid, direction: string, place: nat -> Placement, k: nat)
    requires g.upper > g.lower && g.count >= 2 && Walkable(g, k)
    ensures forall t :: 0 <= t < |Placed(g, direction, place, k)| ==>
              Placed(g, direction, place, k)[t].price > Price(g, k)
    ensures forall s, t :: 0 <= s < t < |Placed(g, direction, place, k)| ==>
              Placed(g, direction, place, k)[s].price > Placed(g, direction, place, k)[t].price
  {
    if k > 0 {
      PlacedInLadderOrder(g, direction, place, k - 1);
      PriceDecreasing(g, k - 1, k);
    }
  }

  /** When every order is accepted, the records are the ladder itself. */
  lemma {:induction false} AllAccepted(g: Grid, direction: string, place: nat -> Placement, k: nat)
    requires Walkable(g, k)
    requires forall i: nat :: i < k ==> place(i).Accepted?
    ensures |Placed(g, direction, place, k)| == k
    ensures forall i :: 0 <= i < k ==>
              Placed(g, direction, place, k)[i] == Record(g, direction, i, place(i).order)
  {
    if k > 0 {
      AllAccepted(g, direction, place, k - 1);
    }
  }

  /** When every order is rejected, nothing is recorded. */
  lemma {:induction false} NoneAccepted(g: Grid, direction: string, place: nat -> Placement, k: nat)
    requires Walkable(g, k)
    requires forall i: nat :: i < k ==> place(i).Rejected?
    ensures Placed(g, direction, place, k) == []
  {
    if k > 0 {
      NoneAccepted(g, direction, place, k - 1);
    }
  }

  /** Fees charged for a grid are never negative when the investment and the
      leverage have the same sign, which nothing in the bot checks. */
  lemma {:induction false} GridFeesNonNegative(g: Grid, direction: string, place: nat -> Placement, k: nat)
    requires g.count >= 2 && Walkable(g, k)
    requires g.investment * (g.leverage as real) >= 0.0
    ensures FeeSum(Placed(g, direction, place, k)) >= 0.0
  {
    PlacedFees(g, direction, place, k);
    var n, p, l := g.count as real, PerGrid(g), g.leverage as real;
    Scale(n, p, l, g.investment);
    PositiveFactor(n, p * l);
    NonNegativeProduct(p * l, MakerFee);
    NonNegativeProduct(AcceptedCount(place, k) as real, LevelFee(g));
  }

  lemma PositiveFactor(n: real, x: real)
    requires n > 0.0 && n * x >= 0.0
    ensures x >= 0.0
  {
  }

  lemma NonNegativeProduct(a: real, b: real)
    requires a >= 0.0 && b >= 0.0
    ensures a * b >= 0.0
  {
  }
}
