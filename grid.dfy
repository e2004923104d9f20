/** The grid ladder: the prices and sizes that the grid preview lists and that grid
    creation submits, computed over exact reals. */
module GridMath {

  /** The numbers read from the grid form: upper and lower price bound, number of
      grids, total investment and leverage. */
  datatype Grid = Grid(upper: real, lower: real, count: int, investment: real, leverage: int)

  /** One rung of the ladder. */
  datatype Level = Level(price: real, size: real)

  /** Why a preview produced no ladder: the two validation errors, or a division by
      a level priced at zero while computing its size. */
  datatype GridError = UpperNotAbove | TooFewGrids | ZeroPrice

  datatype Result<T, E> = Ok(value: T) | Err(error: E)

  /** The distance between neighbouring levels: `count - 1` steps span the range. */
  function Step(g: Grid): (r: real)
    requires g.count != 1
    ensures (g.count - 1) as real * r == g.upper - g.lower
  {
    (g.upper - g.lower) / ((g.count - 1) as real)
  }

  /** The share of the investment given to each level: `count` shares make it up. */
  function PerGrid(g: Grid): (r: real)
    requires g.count != 0
    ensures (g.count as real) * r == g.investment
  {
    g.investment / (g.count as real)
  }

  /** The price of level `i`, counted down from the upper bound. */
  function Price(g: Grid, i: int): real
    requires g.count != 1
  {
    g.upper - (i as real) * Step(g)
  }

  /** The size of level `i`: its notional is the leveraged share of the investment. */
  function Size(g: Grid, i: int): (r: real)
    requires g.count != 0 && g.count != 1 && Price(g, i) != 0.0
    ensures r * Price(g, i) == PerGrid(g) * (g.leverage as real)
  {
    (PerGrid(g) * (g.leverage as real)) / Price(g, i)
  }

  function LevelAt(g: Grid, i: int): Level
    requires g.count != 0 && g.count != 1 && Price(g, i) != 0.0
  {
    Level(Price(g, i), Size(g, i))
  }

  /** None of the first `k` levels is priced at zero, so each has a size. */
  predicate Priced(g: Grid, k: int)
    requires g.count != 1
  {
    forall j :: 0 <= j < k ==> Price(g, j) != 0.0
  }

  /** The whole ladder, highest price first. */
  function Ladder(g: Grid): seq<Level>
    requires g.count >= 2 && Priced(g, g.count)
  {
    seq(g.count, i requires 0 <= i < g.count => LevelAt(g, i))
  }

  /** What the grid preview produces: the validation errors in the order the
      preview checks them, a division by zero when a level is priced at zero,
      and otherwise the ladder. */
  function Preview(g: Grid): (r: Result<seq<Level>, GridError>)
    ensures r == Err(UpperNotAbove) <==> g.upper <= g.lower
    ensures r == Err(TooFewGrids) <==> g.upper > g.lower && g.count < 2
    ensures r.Ok? ==> |r.value| == g.count && r.value[0].price == g.upper
                      && r.value[g.count - 1].price == g.lower
  {
    if g.upper <= g.lower then Err(UpperNotAbove)
    else if g.count < 2 then Err(TooFewGrids)
    else if !Priced(g, g.count) then Err(ZeroPrice)
    else
      EndPoints(g);
      Ok(Ladder(g))
  }

  /** The preview loop: validates, then computes the levels one by one from the
      top, stopping at a level whose size would divide by zero. */
  method PreviewGrid(g: Grid) returns (r: Result<seq<Level>, GridError>)
    ensures r == Preview(g)
  {
    if g.upper <= g.lower {
      return Err(UpperNotAbove);
    }
    if g.count < 2 {
      return Err(TooFewGrids);
    }
    var step := (g.upper - g.lower) / ((g.count - 1) as real);
    var perGrid := g.investment / (g.count as real);
    var levels: seq<Level> := [];
    var i := 0;
    while i < g.count
      invariant 0 <= i <= g.count
      invariant Priced(g, i)
      invariant |levels| == i
      invariant forall j :: 0 <= j < i ==> levels[j] == LevelAt(g, j)
    {
      var price := g.upper - (i as real) * step;
      if price == 0.0 {
        assert Price(g, i) == 0.0;
        return Err(ZeroPrice);
      }
      var size := (perGrid * (g.leverage as real)) / price;
      levels := levels + [Level(price, size)];
      i := i + 1;
    }
    assert levels == Ladder(g);
    return Ok(levels);
  }

  /** The first level is the upper bound and the last the lower bound. */
  lemma {:induction false} EndPoints(g: Grid)
    requires g.count >= 2
    ensures Price(g, 0) == g.upper && Price(g, g.count - 1) == g.lower
  {
    calc {
      Price(g, g.count - 1);
      g.upper - ((g.count - 1) as real) * Step(g);
      g.upper - (g.upper - g.lower);
    }
  }

  /** Prices strictly fall from one level to any later one. */
  lemma {:induction false} PriceDecreasing(g: Grid, i: int, j: int)
    requires g.upper > g.lower && g.count >= 2 && i < j
    ensures Price(g, i) > Price(g, j)
  {
    var s := Step(g);
    assert s > 0.0;
    assert Price(g, i) - Price(g, j) == ((j - i) as real) * s;
    assert ((j - i) as real) * s > 0.0;
  }

  /** With a positive lower bound every level is priced at least at that bound,
      so no size divides by zero. */
  lemma {:induction false} PositivePrices(g: Grid)
    requires g.upper > g.lower > 0.0 && g.count >= 2
    ensures forall i :: 0 <= i < g.count ==> Price(g, i) >= g.lower
    ensures Priced(g, g.count)
  {
    EndPoints(g);
    forall i | 0 <= i < g.count
      ensures Price(g, i) >= g.lower
    {
      if i < g.count - 1 {
        PriceDecreasing(g, i, g.count - 1);
      }
    }
  }

  /** For valid bounds with a positive lower bound the preview succeeds with
      exactly `count` levels, from the upper bound down to the lower bound, in
      strictly falling price order. */
  lemma {:induction false} LadderShape(g: Grid)
    requires g.upper > g.lower > 0.0 && g.count >= 2
    ensures Priced(g, g.count)
    ensures Preview(g) == Ok(Ladder(g))
    ensures |Ladder(g)| == g.count
    ensures Ladder(g)[0].price == g.upper && Ladder(g)[g.count - 1].price == g.lower
    ensures forall i, j :: 0 <= i < j < g.count ==> Ladder(g)[i].price > Ladder(g)[j].price
  {
    PositivePrices(g);
    EndPoints(g);
    forall i, j | 0 <= i < j < g.count
      ensures Ladder(g)[i].price > Ladder(g)[j].price
    {
      PriceDecreasing(g, i, j);
    }
  }

  /** A preview only fails on a zero price when the lower bound is not positive. */
  lemma {:induction false} ZeroPriceNeedsNonPositiveLower(g: Grid)
    requires Preview(g) == Err(ZeroPrice)
    ensures g.lower <= 0.0
  {
    if g.lower > 0.0 {
      PositivePrices(g);
    }
  }

  /** Every level carries the same notional: the leveraged share of the investment. */
  lemma {:induction false} LevelNotional(g: Grid, i: int)
    requires g.count >= 2 && Priced(g, g.count) && 0 <= i < g.count
    ensures Ladder(g)[i].size * Ladder(g)[i].price == g.investment / (g.count as real) * (g.leverage as real)
  {
  }

  /** The summed notional `size * price` of a run of levels. */
  function Notional(levels: seq<Level>): real
  {
    if levels == [] then 0.0 else levels[0].size * levels[0].price + Notional(levels[1..])
  }

  /** A run of levels with equal notional sums to that notional per level. */
  lemma {:induction false} UniformNotional(levels: seq<Level>, c: real, n: nat)
    requires |levels| == n
    requires forall i :: 0 <= i < |levels| ==> levels[i].size * levels[i].price == c
    ensures Notional(levels) == (n as real) * c
  {
    if levels != [] {
      UniformNotional(levels[1..], c, n - 1);
    }
  }

  lemma Scale(n: real, p: real, l: real, total: real)
    requires n * p == total
    ensures n * (p * l) == total * l
  {
  }

  /** The notional of the whole ladder is the leveraged investment. */
  lemma {:induction false} LadderTotalNotional(g: Grid)
    requires g.count >= 2 && Priced(g, g.count)
    ensures Notional(Ladder(g)) == g.investment * (g.leverage as real)
  {
    var c := PerGrid(g) * (g.leverage as real);
    var ladder := Ladder(g);
    forall i | 0 <= i < |ladder|
      ensures ladder[i].size * ladder[i].price == c
    {
      LevelNotional(g, i);
    }
    UniformNotional(ladder, c, g.count);
    Scale(g.count as real, PerGrid(g), g.leverage as real, g.investment);
  }

  /** Ninety to one hundred in three grids with 300 invested at leverage one:
      one hundred per level, at 100, 95 and 90. */
  lemma WorkedExample()
    ensures Preview(Grid(100.0, 90.0, 3, 300.0, 1))
         == Ok([Level(100.0, 1.0), Level(95.0, 100.0 / 95.0), Level(90.0, 100.0 / 90.0)])
  {
    var g := Grid(100.0, 90.0, 3, 300.0, 1);
    LadderShape(g);
    assert Step(g) == 5.0;
    assert PerGrid(g) == 100.0;
    assert Ladder(g) == [Level(100.0, 1.0), Level(95.0, 100.0 / 95.0), Level(90.0, 100.0 / 90.0)];
  }
}
