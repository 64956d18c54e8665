/**
 * The basic ant-colony sorter. Agents walk a board strewn with objects of
 * kinds A and B, remember the last ten symbols they stood on, and pick up
 * or drop objects with a probability driven by how often the current
 * symbol occurs in that memory.
 */
module Sorter {
  import opened Results
  import opened Grids
  import opened Walks
  import opened Response
  import Seqs

  /** Agents keep the ten most recent symbols. */
  const MemoryCap: nat := 10

  datatype Item = A | B

  /** An element of a cell: an object or an agent, named by its index. */
  datatype Occupant = Obj(item: Item) | Ant(id: nat)

  /** The symbol an agent reads off its cell: 'A', 'B' or '0'. */
  datatype Symbol = Saw(item: Item) | Bare

  /** An agent: its position, its memory (most recent first) and its backpack. */
  datatype Agent = Agent(pos: Pos, memory: seq<Symbol>, backpack: Option<Item>)

  /**
   * The board and the agents, indexed in creation order (the order in which
   * a tick visits them). `variant` selects the density with perceptual error.
   */
  datatype World = World(board: Grid<Occupant>, agents: seq<Agent>, variant: bool)

  /** The random draws one agent consumes in one `action`. */
  datatype Draws = Draws(pick: real, drop: real, order: seq<Pos>)

  /** The board has its size and every agent stands on it. */
  predicate Shaped(w: World)
  {
    && w.board.Valid()
    && forall id | 0 <= id < |w.agents| :: w.board.InBounds(w.agents[id].pos)
  }

  /**
   * `w'` is a well-shaped world over the same board dimensions, agents and
   * density mode as `w`: what every operation preserves.
   */
  predicate SameFrame(w: World, w': World)
  {
    && Shaped(w')
    && w'.board.n == w.board.n && w'.board.m == w.board.m
    && |w'.agents| == |w.agents|
    && w'.variant == w.variant
  }

  /** Replaces agent `id`'s record. */
  function SetAgent(w: World, id: nat, a: Agent): (r: World)
    requires Shaped(w) && id < |w.agents| && w.board.InBounds(a.pos)
    ensures Shaped(r) && r.board == w.board && r.variant == w.variant
    ensures |r.agents| == |w.agents| && r.agents[id] == a
    ensures forall k | 0 <= k < |w.agents| && k != id :: r.agents[k] == w.agents[k]
  {
    w.(agents := w.agents[id := a])
  }

  /** The object kinds lying in a cell. */
  function Kinds(cell: seq<Occupant>): set<Item>
  {
    set x | x in cell && x.Obj? :: x.item
  }

  /** The kinds of a cell are those of its objects, and nothing else. */
  lemma KindsOf(cell: seq<Occupant>)
    ensures Kinds(cell) == (if Obj(A) in cell then {A} else {}) + (if Obj(B) in cell then {B} else {})
  {
    assert Obj(A) in cell ==> A in Kinds(cell);
    assert Obj(B) in cell ==> B in Kinds(cell);
    forall it | it in Kinds(cell)
      ensures Obj(it) in cell
    {
      var x :| x in cell && x.Obj? && x.item == it;
      assert x == Obj(it);
    }
    var rhs := (if Obj(A) in cell then {A} else {}) + (if Obj(B) in cell then {B} else {});
    forall it
      ensures it in Kinds(cell) <==> it in rhs
    {
      if it == A {
        assert it in Kinds(cell) <==> Obj(A) in cell;
      } else {
        assert it in Kinds(cell) <==> Obj(B) in cell;
      }
    }
  }

  /**
   * `get_tile_content`: the symbol of the object lying in the cell, and an
   * error when A and B lie there together.
   */
  function TileContent(cell: seq<Occupant>): (r: Result<Symbol>)
    ensures r.Err? <==> Kinds(cell) == {A, B}
    ensures r == Ok(Bare) <==> Kinds(cell) == {}
    ensures forall it :: r == Ok(Saw(it)) <==> Kinds(cell) == {it}
  {
    KindsOf(cell);
    if Obj(A) in cell && Obj(B) in cell then Err(Conflict)
    else if Obj(A) in cell then Ok(Saw(A))
    else if Obj(B) in cell then Ok(Saw(B))
    else Ok(Bare)
  }

  /**
   * `perceive`: prepends the symbol of the agent's cell to its memory and
   * keeps the first ten entries.
   */
  function Perceive(w: World, id: nat): (r: Result<World>)
    requires Shaped(w) && id < |w.agents|
    ensures r.Err? <==> Kinds(w.board.At(w.agents[id].pos)) == {A, B}
    ensures r.Ok? ==> Shaped(r.value) && r.value.board == w.board && r.value.variant == w.variant
    ensures r.Ok? ==> |r.value.agents| == |w.agents|
    ensures r.Ok? ==> forall k | 0 <= k < |w.agents| && k != id :: r.value.agents[k] == w.agents[k]
    ensures r.Ok? ==>
      var a, a' := w.agents[id], r.value.agents[id];
      && a'.pos == a.pos && a'.backpack == a.backpack
      && 0 < |a'.memory| <= MemoryCap
      && Ok(a'.memory[0]) == TileContent(w.board.At(a.pos))
      && a'.memory[1..] == Seqs.Take(a.memory, MemoryCap - 1)
  {
    var a := w.agents[id];
    var s :- TileContent(w.board.At(a.pos));
    var memory := Seqs.Take([s] + a.memory, MemoryCap);
    assert memory[1..] == Seqs.Take(a.memory, MemoryCap - 1);
    Ok(SetAgent(w, id, a.(memory := memory)))
  }

  /** How many entries of `memory` equal `s`. */
  function Occurrences(memory: seq<Symbol>, s: Symbol): nat
  {
    multiset(memory)[s]
  }

  /** `compute_f`: the share of the memory equal to its most recent entry. */
  function Density(memory: seq<Symbol>): (f: real)
    requires |memory| > 0
    ensures 0.0 < f <= 1.0
    ensures f * (|memory| as real) == Occurrences(memory, memory[0]) as real
  {
    assert memory[0] in multiset(memory);
    Seqs.TwoCountsBounded(memory, memory[0], if memory[0] == Bare then Saw(A) else Bare);
    Share(Occurrences(memory, memory[0]), |memory|)
  }

  /** The symbol `compute_f_with_error` counts as a mis-read of the head: 'B' for 'A', else 'A'. */
  function Confused(s: Symbol): (c: Symbol)
    ensures c != s && c.Saw?
    ensures s == Saw(A) <==> c == Saw(B)
  {
    if s == Saw(A) then Saw(B) else Saw(A)
  }

  /**
   * `compute_f_with_error`: the share of the memory equal to its head or to
   * the symbol it can be mistaken for.
   */
  function DensityWithError(memory: seq<Symbol>): (f: real)
    requires |memory| > 0
    ensures 0.0 < f <= 1.0
    ensures Density(memory) <= f
    ensures f * (|memory| as real) == (Occurrences(memory, memory[0]) + Occurrences(memory, Confused(memory[0]))) as real
  {
    assert memory[0] in multiset(memory);
    Seqs.TwoCountsBounded(memory, memory[0], Confused(memory[0]));
    ShareMonotone(Occurrences(memory, memory[0]), Occurrences(memory, memory[0]) + Occurrences(memory, Confused(memory[0])), |memory|);
    Share(Occurrences(memory, memory[0]) + Occurrences(memory, Confused(memory[0])), |memory|)
  }

  /** The density is one exactly when every symbol in memory equals the most recent one. */
  lemma DensityFull(memory: seq<Symbol>)
    requires |memory| > 0
    ensures Density(memory) == 1.0 <==> forall e | e in memory :: e == memory[0]
  {
    Seqs.CountFull(memory, memory[0]);
    assert Density(memory) == 1.0 <==> Occurrences(memory, memory[0]) == |memory|;
  }

  /**
   * The density with error is one exactly when every symbol in memory is
   * the most recent one or the symbol it is mistaken for.
   */
  lemma DensityWithErrorFull(memory: seq<Symbol>)
    requires |memory| > 0
    ensures DensityWithError(memory) == 1.0 <==> forall e | e in memory :: e == memory[0] || e == Confused(memory[0])
  {
    var x, y := memory[0], Confused(memory[0]);
    Seqs.TwoCountsFull(memory, x, y);
    assert DensityWithError(memory) == 1.0 <==> Occurrences(memory, x) + Occurrences(memory, y) == |memory|;
  }

  /** The density the agent acts on, as selected by `variant`. */
  function LocalDensity(variant: bool, memory: seq<Symbol>): (f: real)
    requires |memory| > 0
    ensures 0.0 < f <= 1.0
  {
    if variant then DensityWithError(memory) else Density(memory)
  }

  /**
   * `Board.pick_up` with `Agent.pick_up`: removes the head symbol's object
   * from the agent's cell and puts it in the backpack. Removing '0' raises.
   */
  function PickUp(w: World, id: nat): (r: Result<World>)
    requires Shaped(w) && id < |w.agents| && |w.agents[id].memory| > 0
    ensures r.Ok? <==> w.agents[id].memory[0].Saw? && Obj(w.agents[id].memory[0].item) in w.board.At(w.agents[id].pos)
    ensures r.Ok? ==>
      var a, p, it := w.agents[id], w.agents[id].pos, w.agents[id].memory[0].item;
      && Shaped(r.value) && r.value.variant == w.variant
      && |r.value.agents| == |w.agents|
      && r.value.agents[id] == a.(backpack := Some(it))
      && (forall k | 0 <= k < |w.agents| && k != id :: r.value.agents[k] == w.agents[k])
      && r.value.board.cells == w.board.cells[w.board.Index(p) := r.value.board.At(p)]
      && multiset(r.value.board.At(p)) == multiset(w.board.At(p)) - multiset{Obj(it)}
  {
    var a := w.agents[id];
    match a.memory[0]
    case Bare => Err(NotInList)
    case Saw(it) =>
      var board :- w.board.Remove(a.pos, Obj(it));
      Ok(SetAgent(w.(board := board), id, a.(backpack := Some(it))))
  }

  /** `Board.drop` with `Agent.drop`: the backpack's object joins the agent's cell. */
  function Drop(w: World, id: nat): (r: World)
    requires Shaped(w) && id < |w.agents| && w.agents[id].backpack.Some?
    ensures
      var a, p := w.agents[id], w.agents[id].pos;
      && Shaped(r) && r.variant == w.variant
      && |r.agents| == |w.agents|
      && r.agents[id] == a.(backpack := None)
      && (forall k | 0 <= k < |w.agents| && k != id :: r.agents[k] == w.agents[k])
      && r.board.cells == w.board.cells[w.board.Index(p) := w.board.At(p) + [Obj(a.backpack.value)]]
  {
    var a := w.agents[id];
    SetAgent(w.(board := w.board.Append(a.pos, Obj(a.backpack.value))), id, a.(backpack := None))
  }

  /** The successful half of `Board.move`: the agent leaves its cell for `t`. */
  function Relocate(w: World, id: nat, t: Pos): (r: Result<World>)
    requires Shaped(w) && id < |w.agents| && w.board.InBounds(t) && t != w.agents[id].pos
    ensures r.Ok? <==> Ant(id) in w.board.At(w.agents[id].pos)
    ensures r.Ok? ==>
      var a, p := w.agents[id], w.agents[id].pos;
      var g, g' := w.board, r.value.board;
      && Shaped(r.value) && r.value.variant == w.variant
      && g'.n == g.n && g'.m == g.m
      && |r.value.agents| == |w.agents|
      && r.value.agents[id] == a.(pos := t)
      && (forall k | 0 <= k < |w.agents| && k != id :: r.value.agents[k] == w.agents[k])
      && multiset(g'.At(p)) == multiset(g.At(p)) - multiset{Ant(id)}
      && g'.At(t) == g.At(t) + [Ant(id)]
      && g'.cells == g.cells[g.Index(p) := g'.At(p)][g.Index(t) := g'.At(t)]
  {
    var a := w.agents[id];
    var left :- w.board.Remove(a.pos, Ant(id));
    assert left.cells == w.board.cells[w.board.Index(a.pos) := left.At(a.pos)];
    Ok(SetAgent(w.(board := left.Append(t, Ant(id))), id, a.(pos := t)))
  }

  /**
   * `Board.move`: a step in direction `d`. Off the board nothing changes and
   * the answer is false; otherwise the agent moves to the target and the
   * answer is true.
   */
  function Move(w: World, id: nat, d: Pos): (r: Result<(World, bool)>)
    requires Shaped(w) && id < |w.agents| && d in Directions
    ensures !w.board.InBounds(Shift(w.agents[id].pos, d)) ==> r == Ok((w, false))
    ensures w.board.InBounds(Shift(w.agents[id].pos, d)) ==>
      && Shift(w.agents[id].pos, d) != w.agents[id].pos
      && (r.Ok? <==> Ant(id) in w.board.At(w.agents[id].pos))
      && (r.Ok? ==> r.value.1 && Ok(r.value.0) == Relocate(w, id, Shift(w.agents[id].pos, d)))
  {
    DirectionsAreNeighbours(d);
    var t := Shift(w.agents[id].pos, d);
    if w.board.InBounds(t) then
      var w' :- Relocate(w, id, t);
      Ok((w', true))
    else
      Ok((w, false))
  }

  /** The walk loop from the `k`-th drawn direction on. */
  function WalkFrom(w: World, id: nat, order: seq<Pos>, k: nat): (r: Result<World>)
    requires Shaped(w) && id < |w.agents| && IsShuffle(order)
    decreases |order| - k
    ensures r.Ok? ==> SameFrame(w, r.value)
  {
    if k >= |order| then Err(NoDirectionLeft)
    else
      var step :- Move(w, id, order[k]);
      if step.1 then Ok(step.0) else WalkFrom(w, id, order, k + 1)
  }

  /** The random walk closing every `action`, drawing directions in `order`. */
  function RandomWalk(w: World, id: nat, order: seq<Pos>): (r: Result<World>)
    requires Shaped(w) && id < |w.agents| && IsShuffle(order)
    ensures r.Ok? ==> SameFrame(w, r.value)
  {
    WalkFrom(w, id, order, 0)
  }

  /**
   * The pick-up and drop decisions of `action`, before its walk. `dr.pick`
   * and `dr.drop` are the two `random()` draws. At most one exchange takes
   * place: a pick-up needs an empty backpack and an object under the agent,
   * a drop a full backpack and a cell read as '0'.
   */
  function Exchange(w: World, id: nat, dr: Draws): (r: Result<World>)
    requires Shaped(w) && id < |w.agents| && |w.agents[id].memory| > 0
    ensures r.Ok? ==> SameFrame(w, r.value)
    ensures
      var a, f := w.agents[id], LocalDensity(w.variant, w.agents[id].memory);
      var picks := a.memory[0].Saw? && a.backpack.None? && dr.pick < PickUpChance(f);
      var drops := a.memory[0] == Bare && a.backpack.Some? && dr.drop < DropChance(f);
      && (picks ==> r == PickUp(w, id))
      && (drops ==> r == Ok(Drop(w, id)))
      && (!picks && !drops ==> r == Ok(w))
      && (r.Err? <==> a.memory[0].Saw? && picks && Obj(a.memory[0].item) !in w.board.At(a.pos))
    ensures r.Ok? ==>
      var a, a' := w.agents[id], r.value.agents[id];
      var f := LocalDensity(w.variant, a.memory);
      && a'.pos == a.pos && a'.memory == a.memory
      && (a.backpack.None? && a'.backpack.Some? <==>
          a.memory[0].Saw? && a.backpack.None? && dr.pick < PickUpChance(f))
      && (a.backpack.None? && a'.backpack.Some? ==> a.memory[0].Saw? && a'.backpack == Some(a.memory[0].item))
      && (a.backpack.Some? && a'.backpack.None? <==>
          a.memory[0] == Bare && a.backpack.Some? && dr.drop < DropChance(f))
      && (a'.backpack != a.backpack ==> (a.backpack.None? <==> a'.backpack.Some?))
  {
    var a := w.agents[id];
    var f := LocalDensity(w.variant, a.memory);
    var w1 :-
      if a.memory[0] != Bare && a.backpack.None? && dr.pick < PickUpChance(f) then PickUp(w, id)
      else Ok(w);
    var a1 := w1.agents[id];
    if a1.backpack.Some? && a1.memory[0] == Bare && dr.drop < DropChance(f) then Ok(Drop(w1, id))
    else Ok(w1)
  }

  /** `action`: the exchange, then the random walk drawing directions in `dr.order`. */
  function Action(w: World, id: nat, dr: Draws): (r: Result<World>)
    requires Shaped(w) && id < |w.agents| && IsShuffle(dr.order)
    ensures |w.agents[id].memory| == 0 ==> r == Err(EmptyMemory)
    ensures r.Ok? ==> SameFrame(w, r.value)
  {
    if |w.agents[id].memory| == 0 then Err(EmptyMemory)
    else
      var w1 :- Exchange(w, id, dr);
      RandomWalk(w1, id, dr.order)
  }

  /** One agent's turn of `step`: `perceive` then `action`. */
  function Tick(w: World, id: nat, dr: Draws): (r: Result<World>)
    requires Shaped(w) && id < |w.agents| && IsShuffle(dr.order)
    ensures r.Ok? ==> SameFrame(w, r.value)
  {
    var w1 :- Perceive(w, id);
    Action(w1, id, dr)
  }

  /** Every draw in `draws` shuffles the eight directions. */
  predicate Shuffles(draws: seq<Draws>)
  {
    forall t | 0 <= t < |draws| :: IsShuffle(draws[t].order)
  }

  /** The turns of agents `k`, `k + 1`, ... of one `step`, agent `t` using `draws[t]`. */
  function Run(w: World, draws: seq<Draws>, k: nat): (r: Result<World>)
    requires Shaped(w) && |draws| == |w.agents| && k <= |w.agents| && Shuffles(draws)
    decreases |w.agents| - k
    ensures r.Ok? ==> SameFrame(w, r.value)
  {
    if k == |w.agents| then Ok(w)
    else
      var w1 :- Tick(w, k, draws[k]);
      Run(w1, draws, k + 1)
  }

  /** `step(board)`: every agent takes its turn, in creation order. */
  function Step(w: World, draws: seq<Draws>): (r: Result<World>)
    requires Shaped(w) && |draws| == |w.agents| && Shuffles(draws)
    ensures r.Ok? ==> SameFrame(w, r.value)
  {
    Run(w, draws, 0)
  }
}
