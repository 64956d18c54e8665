/**
 * The random walk of both sorting simulations: the eight compass
 * directions are drawn one by one without replacement (`choice` followed
 * by `remove`) until a move lands inside the board. The drawing order is
 * an input, a shuffle of the eight directions.
 */
module Walks {
  import opened Results
  import opened Grids

  /** `pas_agent`, the length of one step. */
  const PasAgent: int := 1

  /** The list `directions`, in the order the source writes it. */
  const Directions: seq<Pos> := [
    Pos(0, 1), Pos(0, -1), Pos(-1, 0), Pos(1, 0),
    Pos(-1, 1), Pos(1, 1), Pos(-1, -1), Pos(1, -1)
  ]

  /** The target of a step from `p` in direction `d`. */
  function Shift(p: Pos, d: Pos): Pos
  {
    Pos(p.i + d.i * PasAgent, p.j + d.j * PasAgent)
  }

  /**
   * An order in which the eight directions can be drawn: as long as the
   * list of directions, with every direction in it. The eight directions
   * being distinct, such an order lists each of them once.
   */
  predicate IsShuffle(order: seq<Pos>)
  {
    && |order| == |Directions|
    && (forall t | 0 <= t < |order| :: order[t] in Directions)
    && (forall d | d in Directions :: d in order)
  }

  /**
   * The position in `order` (from `k` on) of the first direction whose step
   * stays on the board: the move the walk ends with.
   */
  function FirstFit<T(==)>(g: Grid<T>, p: Pos, order: seq<Pos>, k: nat): (r: Option<nat>)
    decreases |order| - k
    ensures r.Some? ==> k <= r.value < |order| && g.InBounds(Shift(p, order[r.value]))
    ensures r.Some? ==> forall t :: k <= t < r.value ==> !g.InBounds(Shift(p, order[t]))
    ensures r.None? ==> forall t :: k <= t < |order| ==> !g.InBounds(Shift(p, order[t]))
  {
    if k >= |order| then None
    else if g.InBounds(Shift(p, order[k])) then Some(k)
    else FirstFit(g, p, order, k + 1)
  }

  /** Every direction moves by exactly one cell in Chebyshev distance. */
  lemma DirectionsAreNeighbours(d: Pos)
    requires d in Directions
    ensures -1 <= d.i <= 1 && -1 <= d.j <= 1 && d != Pos(0, 0)
  {
  }

  /**
   * From a cell of the board some drawing of the eight directions finds a
   * move exactly when the board has more than one cell; on a 1x1 board the
   * list runs out.
   */
  lemma WalkFindsMove<T>(g: Grid<T>, p: Pos, order: seq<Pos>)
    requires g.InBounds(p) && IsShuffle(order)
    ensures FirstFit(g, p, order, 0).Some? <==> g.n * g.m > 1
  {
    MoreThanOneCell(g.n, g.m);
    if g.n > 1 || g.m > 1 {
      WalkFindsNeighbour(g, p, order);
    } else {
      WalkStuck(g, p, order);
    }
  }

  /** A board has more than one cell exactly when it has more than one row or more than one column. */
  lemma MoreThanOneCell(n: int, m: int)
    requires n >= 1 && m >= 1
    ensures n * m > 1 <==> n > 1 || m > 1
  {
    if n > 1 {
      assert n * m == (n - 1) * m + m;
    }
  }

  /** With a second row or column, some drawn direction leads to a neighbour on the board. */
  lemma WalkFindsNeighbour<T>(g: Grid<T>, p: Pos, order: seq<Pos>)
    requires g.InBounds(p) && IsShuffle(order) && (g.n > 1 || g.m > 1)
    ensures FirstFit(g, p, order, 0).Some?
  {
    var d: Pos;
    if g.n > 1 {
      d := if p.i + 1 < g.n then Pos(1, 0) else Pos(-1, 0);
    } else {
      d := if p.j + 1 < g.m then Pos(0, 1) else Pos(0, -1);
    }
    assert d in Directions;
    var t :| 0 <= t < |order| && order[t] == d;
    assert g.InBounds(Shift(p, order[t]));
  }

  /** On a 1x1 board no direction stays on the board. */
  lemma WalkStuck<T>(g: Grid<T>, p: Pos, order: seq<Pos>)
    requires g.InBounds(p) && IsShuffle(order) && g.n == 1 && g.m == 1
    ensures FirstFit(g, p, order, 0).None?
  {
    forall t | 0 <= t < |order|
      ensures !g.InBounds(Shift(p, order[t]))
    {
      LeavesSoleCell(g, p, order[t]);
    }
  }

  /** From the only cell of a 1x1 board, every direction leads off the board. */
  lemma LeavesSoleCell<T>(g: Grid<T>, p: Pos, d: Pos)
    requires g.InBounds(p) && g.n == 1 && g.m == 1 && d in Directions
    ensures !g.InBounds(Shift(p, d))
  {
    DirectionsAreNeighbours(d);
    assert p == Pos(0, 0);
    assert Shift(p, d) == d;
  }
}
