/**
 * The board shared by both sorting simulations: `n` lines of `m` cells,
 * each cell an ordered list of occupants (the source's `board[i][j]`).
 */
module Grids {
  import opened Results
  import Seqs

  /** A cell coordinate `(i, j)`: line `i`, column `j`. */
  datatype Pos = Pos(i: int, j: int)

  /** Row-major placement of `(i, j)` stays inside an `n` by `m` board. */
  lemma IndexBound(n: nat, m: nat, i: int, j: int)
    requires 0 <= i < n && 0 <= j < m
    ensures 0 <= i * m + j < n * m
  {
    assert (i + 1) * m <= n * m;
  }

  /** Row-major placement never sends two coordinates to the same slot. */
  lemma IndexInjective(m: nat, p: Pos, q: Pos)
    requires 0 <= p.i && 0 <= p.j < m && 0 <= q.i && 0 <= q.j < m
    requires p.i * m + p.j == q.i * m + q.j
    ensures p == q
  {
    if p.i < q.i {
      MulGap(p.i, q.i, m);
    } else if q.i < p.i {
      MulGap(q.i, p.i, m);
    }
  }

  /** A later line starts at least one full line further on. */
  lemma MulGap(a: int, b: int, m: nat)
    requires a < b
    ensures a * m + m <= b * m
  {
    var d := b - a - 1;
    assert b * m == a * m + m + d * m;
  }

  /**
   * A board of `n` lines and `m` columns. The lines are stored one after
   * another, so cell `(i, j)` is `cells[i * m + j]`.
   */
  datatype Grid<T(==)> = Grid(n: nat, m: nat, cells: seq<seq<T>>) {

    predicate Valid() {
      |cells| == n * m
    }

    /** The bound test of the moves: `0 <= i < n and 0 <= j < m`. */
    predicate InBounds(p: Pos) {
      0 <= p.i < n && 0 <= p.j < m
    }

    function Index(p: Pos): (k: nat)
      requires Valid() && InBounds(p)
      ensures k < |cells|
    {
      IndexBound(n, m, p.i, p.j);
      p.i * m + p.j
    }

    /** The occupants of cell `p`. */
    function At(p: Pos): seq<T>
      requires Valid() && InBounds(p)
    {
      cells[Index(p)]
    }

    /** Replaces the occupants of cell `p`; every other cell keeps its own. */
    function Put(p: Pos, c: seq<T>): (g: Grid<T>)
      requires Valid() && InBounds(p)
      ensures g.Valid() && g.n == n && g.m == m
      ensures g.At(p) == c
      ensures forall q :: InBounds(q) && q != p ==> g.At(q) == At(q)
      ensures g.cells == cells[Index(p) := c]
    {
      var g := Grid(n, m, cells[Index(p) := c]);
      forall q | InBounds(q) && q != p
        ensures g.At(q) == At(q)
      {
        if Index(q) == Index(p) {
          IndexInjective(m, p, q);
        }
      }
      g
    }

    /** `board[i][j].append(x)`. */
    function Append(p: Pos, x: T): (g: Grid<T>)
      requires Valid() && InBounds(p)
      ensures g.Valid() && g.n == n && g.m == m
      ensures g.At(p) == At(p) + [x]
      ensures forall q :: InBounds(q) && q != p ==> g.At(q) == At(q)
      ensures g.cells == cells[Index(p) := At(p) + [x]]
    {
      Put(p, At(p) + [x])
    }

    /** `board[i][j].remove(x)`, which raises when `x` is not in the cell. */
    function Remove(p: Pos, x: T): (r: Result<Grid<T>>)
      requires Valid() && InBounds(p)
      ensures r.Ok? <==> x in At(p)
      ensures r.Ok? ==> r.value.Valid() && r.value.n == n && r.value.m == m
      ensures r.Ok? ==> multiset(r.value.At(p)) == multiset(At(p)) - multiset{x}
      ensures r.Ok? ==> forall q :: InBounds(q) && q != p ==> r.value.At(q) == At(q)
      ensures r.Ok? ==> r.value.cells == cells[Index(p) := Seqs.RemoveFirst(At(p), x)]
    {
      if x in At(p) then
        Seqs.RemoveFirstMultiset(At(p), x);
        Ok(Put(p, Seqs.RemoveFirst(At(p), x)))
      else
        Err(NotInList)
    }
  }

  /** How many times `x` occurs over all the cells. */
  function Tally<T(==)>(cells: seq<seq<T>>, x: T): nat
  {
    if cells == [] then 0 else multiset(cells[0])[x] + Tally(cells[1..], x)
  }

  /** Cells that hold `x` equally often cell by cell hold it equally often in all. */
  lemma {:induction false} TallySame<T>(cells: seq<seq<T>>, cells': seq<seq<T>>, x: T)
    requires |cells'| == |cells|
    requires forall c | 0 <= c < |cells| :: multiset(cells'[c])[x] == multiset(cells[c])[x]
    ensures Tally(cells', x) == Tally(cells, x)
  {
    if cells != [] {
      forall c | 0 <= c < |cells[1..]|
        ensures multiset(cells'[1..][c])[x] == multiset(cells[1..][c])[x]
      {
        assert cells'[1..][c] == cells'[c + 1] && cells[1..][c] == cells[c + 1];
      }
      TallySame(cells[1..], cells'[1..], x);
    }
  }

  /** Replacing one cell changes the tally by that cell's difference only. */
  lemma {:induction false} TallyUpdate<T>(cells: seq<seq<T>>, k: nat, c: seq<T>, x: T)
    requires k < |cells|
    ensures Tally(cells[k := c], x) + multiset(cells[k])[x] == Tally(cells, x) + multiset(c)[x]
  {
    if k > 0 {
      TallyUpdate(cells[1..], k - 1, c, x);
      assert cells[k := c][1..] == cells[1..][k - 1 := c];
    }
  }
}
