/**
 * The initial scattering of the basic sorter: `__create_tiles` lines up
 * empty tiles followed by the items, and `__add_to_board` deals one tile to
 * every cell, row by row, each drawn at random from the tiles left.
 * Objects are dealt first, then agents, onto the same board.
 */
module Placement {
  import opened Results
  import opened Grids
  import Seqs

  /** The items as tiles, in order. */
  function Wrap<T>(items: seq<T>): (r: seq<Option<T>>)
    ensures |r| == |items|
    ensures forall t | 0 <= t < |items| :: r[t] == Some(items[t])
  {
    if items == [] then [] else [Some(items[0])] + Wrap(items[1..])
  }

  /** `[None] * n`. */
  function Blanks<T>(n: nat): (r: seq<Option<T>>)
    ensures |r| == n
    ensures forall t | 0 <= t < n :: r[t] == None
  {
    if n == 0 then [] else [None] + Blanks(n - 1)
  }

  /**
   * `__create_tiles`: the empty tiles that make the list `total` long,
   * followed by the items; with more items than `total`, Python's
   * `[None] * n` for a negative `n` leaves no empty tile at all.
   */
  function CreateTiles<T>(total: nat, items: seq<T>): (r: seq<Option<T>>)
  {
    Blanks(if |items| <= total then total - |items| else 0) + Wrap(items)
  }

  /** Wrapping keeps every item's count. */
  lemma WrapCounts<T>(items: seq<T>)
    ensures forall x :: multiset(Wrap(items))[Some(x)] == multiset(items)[x]
    ensures multiset(Wrap(items))[None] == 0
  {
    forall x
      ensures multiset(Wrap(items))[Some(x)] == multiset(items)[x]
    {
      WrapCount(items, x);
    }
    assert None !in Wrap(items);
  }

  /** Wrapping keeps the count of one item. */
  lemma {:induction false} WrapCount<T>(items: seq<T>, x: T)
    ensures multiset(Wrap(items))[Some(x)] == multiset(items)[x]
  {
    if items != [] {
      WrapCount(items[1..], x);
      assert items == [items[0]] + items[1..];
      assert multiset(items) == multiset{items[0]} + multiset(items[1..]);
      assert multiset(Wrap(items)) == multiset{Some(items[0])} + multiset(Wrap(items[1..]));
    }
  }

  /**
   * The tile list is `total` long when the items fit, and holds every item
   * as often as the items do; the rest are empty tiles.
   */
  lemma CreateTilesCounts<T>(total: nat, items: seq<T>)
    ensures |CreateTiles(total, items)| == if |items| <= total then total else |items|
    ensures forall x :: multiset(CreateTiles(total, items))[Some(x)] == multiset(items)[x]
    ensures multiset(CreateTiles(total, items))[None] == if |items| <= total then total - |items| else 0
  {
    var n := if |items| <= total then total - |items| else 0;
    WrapCounts(items);
    var blanks: seq<Option<T>> := Blanks(n);
    BlanksCount<T>(n);
    forall x
      ensures multiset(blanks)[Some(x)] == 0
    {
      assert Some(x) !in blanks;
    }
  }

  /** `n` empty tiles are `n` copies of None. */
  lemma {:induction false} BlanksCount<T>(n: nat)
    ensures multiset(Blanks<T>(n))[None] == n
  {
    if n > 0 {
      BlanksCount<T>(n - 1);
    }
  }

  /**
   * The tiles drawn one per pick: each pick chooses among the tiles still
   * in the pool (the oracle for `random.choice`), and the chosen tile's
   * first copy leaves the pool before the next draw. An empty pool fails.
   */
  function Deal<T(==)>(tiles: seq<Option<T>>, picks: seq<nat>): (r: Result<seq<Option<T>>>)
    ensures r.Ok? <==> |picks| <= |tiles|
    ensures r.Ok? ==> |r.value| == |picks| && multiset(r.value) <= multiset(tiles)
    decreases picks
  {
    if picks == [] then Ok([])
    else if tiles == [] then Err(NoTileLeft)
    else
      var x := tiles[picks[0] % |tiles|];
      Seqs.RemoveFirstMultiset(tiles, x);
      var rest :- Deal(Seqs.RemoveFirst(tiles, x), picks[1..]);
      Ok([x] + rest)
  }

  /** What a tile puts on a cell: its item, or nothing. */
  function Put<T>(x: Option<T>): (r: seq<T>)
    ensures |r| <= 1
    ensures forall y | y in r :: x == Some(y)
  {
    if x.Some? then [x.value] else []
  }

  /**
   * `__add_to_board`: cell `c`, in row-major order, receives the `c`-th tile
   * drawn. The tiles drawn are returned too: an agent's drawn cell is where
   * `list_agents` records it.
   */
  function AddToBoard<T(==)>(g: Grid<T>, tiles: seq<Option<T>>, picks: seq<nat>): (r: Result<(Grid<T>, seq<Option<T>>)>)
    requires g.Valid() && |picks| == |g.cells|
    ensures r.Ok? <==> |g.cells| <= |tiles|
    ensures r.Ok? ==>
      var (g', drawn) := r.value;
      && g'.n == g.n && g'.m == g.m && g'.Valid() && |drawn| == |g.cells|
      && multiset(drawn) <= multiset(tiles)
      && forall c | 0 <= c < |g.cells| :: g'.cells[c] == g.cells[c] + Put(drawn[c])
  {
    var drawn :- Deal(tiles, picks);
    Ok((g.(cells := seq(|g.cells|, c requires 0 <= c < |g.cells| => g.cells[c] + Put(drawn[c]))), drawn))
  }

  /** Dealing as many picks as there are tiles draws every tile exactly once. */
  lemma {:induction false} DealAll<T>(tiles: seq<Option<T>>, picks: seq<nat>)
    requires |picks| == |tiles|
    ensures Deal(tiles, picks).Ok? && multiset(Deal(tiles, picks).value) == multiset(tiles)
    decreases picks
  {
    if picks != [] {
      var x := tiles[picks[0] % |tiles|];
      Seqs.RemoveFirstMultiset(tiles, x);
      DealAll(Seqs.RemoveFirst(tiles, x), picks[1..]);
      assert multiset([x] + Deal(Seqs.RemoveFirst(tiles, x), picks[1..]).value)
        == multiset{x} + multiset(Deal(Seqs.RemoveFirst(tiles, x), picks[1..]).value);
    }
  }

  /**
   * With no more items than cells, dealing them onto the board places every
   * item on exactly one cell and leaves every other cell without one: on an
   * empty board no cell ends up with more than one thing.
   */
  lemma PlaceEverything<T>(g: Grid<T>, items: seq<T>, picks: seq<nat>)
    requires g.Valid() && |picks| == |g.cells| && |items| <= |g.cells|
    ensures
      var r := AddToBoard(g, CreateTiles(|g.cells|, items), picks);
      && r.Ok?
      && (forall x :: multiset(r.value.1)[Some(x)] == multiset(items)[x])
      && forall c | 0 <= c < |g.cells| :: |r.value.0.cells[c]| <= |g.cells[c]| + 1
  {
    var tiles := CreateTiles(|g.cells|, items);
    CreateTilesCounts(|g.cells|, items);
    DealAll(tiles, picks);
  }
}
