/**
 * The cooperative-transport variant of the sorter, board side. Besides the
 * light objects A and B the board holds heavy objects C, which take two
 * agents to move. An agent that reads C stops, waits and lays a pheromone
 * on the cells around it; another agent that reads the pheromone may answer
 * it, join the waiting agent and carry the C away together with it.
 *
 * This module holds the data and the operations of the `Board` and
 * `Pheromone` classes: what a cell reads as, the moves, the pick-up and the
 * drop, and the laying and lifting of pheromones.
 */
module Transport {
  import opened Results
  import opened Grids
  import opened Walks
  import Seqs

  /** `distance_diffusion`: a pheromone covers the cells up to two steps away. */
  const Diffusion: nat := 2
  /** The side of the square `emit_pheromone` scans, its centre included. */
  const Span: nat := 2 * Diffusion + 1
  /** The strength of a fresh pheromone. */
  const FullStrength: int := 100

  datatype Item = A | B | C

  /** An element of a cell: an object, an agent or a pheromone, each named by its index. */
  datatype Occupant = Obj(item: Item) | Ant(id: nat) | Mark(mark: nat)

  /** An entry of an agent's memory: a cell's symbol ('A', 'B', 'C' or '0'), or a pheromone read there. */
  datatype Sense = Saw(item: Item) | Bare | Scent(mark: nat)

  /**
   * A pheromone: the agent that laid it, the cells it covers in the order
   * they were covered, and its strength.
   */
  datatype Marker = Marker(owner: nat, cells: seq<Pos>, strength: int)

  /**
   * An agent: its position, its memory (most recent first), its backpack,
   * the pheromone it has laid, whether it waits for help, and the agent it
   * is linked to.
   */
  datatype Agent = Agent(
    pos: Pos, memory: seq<Sense>, backpack: Option<Item>,
    pheromone: Option<nat>, waiting: bool, linked: Option<nat>)

  /**
   * The board, the agents in creation order and every pheromone laid so
   * far, named by its index. A destroyed pheromone keeps its record but no
   * longer lies on the board.
   */
  datatype World = World(board: Grid<Occupant>, agents: seq<Agent>, markers: seq<Marker>)

  /** The sizes a world's references are checked against: the board's, and the numbers of agents and pheromones. */
  datatype Scope = Scope(n: nat, m: nat, agents: nat, markers: nat)

  function ScopeOf(w: World): Scope
  {
    Scope(w.board.n, w.board.m, |w.agents|, |w.markers|)
  }

  /** `q` lies on an `n` by `m` board. */
  predicate OnBoard(n: nat, m: nat, q: Pos)
  {
    0 <= q.i < n && 0 <= q.j < m
  }

  /** `p` lies on a board of the scope's size. */
  predicate Inside(s: Scope, p: Pos)
  {
    OnBoard(s.n, s.m, p)
  }

  /** `x` names an existing agent or pheromone. */
  predicate Names(s: Scope, x: Occupant)
  {
    && (x.Ant? ==> x.id < s.agents)
    && (x.Mark? ==> x.mark < s.markers)
  }

  /** Every occupant of `g` names an existing agent or pheromone. */
  predicate Named(s: Scope, g: Grid<Occupant>)
  {
    forall c, x | 0 <= c < |g.cells| && x in g.cells[c] :: Names(s, x)
  }

  /** No position is listed twice. */
  predicate Distinct(ps: seq<Pos>)
  {
    forall a, b | 0 <= a < b < |ps| :: ps[a] != ps[b]
  }

  /** Every reference an agent holds leads to the board, an agent or a pheromone. */
  predicate AgentShaped(s: Scope, a: Agent)
  {
    && Inside(s, a.pos)
    && (a.linked.Some? ==> a.linked.value < s.agents)
    && (a.pheromone.Some? ==> a.pheromone.value < s.markers)
    && (forall e | e in a.memory :: e.Scent? ==> e.mark < s.markers)
  }

  /** A pheromone belongs to an existing agent and covers distinct cells of the board. */
  predicate MarkerShaped(s: Scope, m: Marker)
  {
    && m.owner < s.agents
    && (forall q | q in m.cells :: Inside(s, q))
    && Distinct(m.cells)
  }

  /** The board has its size, and every reference in the world leads somewhere. */
  predicate Shaped(w: World)
  {
    var s := ScopeOf(w);
    && w.board.Valid()
    && Named(s, w.board)
    && (forall id | 0 <= id < |w.agents| :: AgentShaped(s, w.agents[id]))
    && (forall k | 0 <= k < |w.markers| :: MarkerShaped(s, w.markers[k]))
  }

  /**
   * `w'` is a well-shaped world over the same board dimensions and agents
   * as `w`, with no pheromone record lost: what every operation preserves.
   */
  predicate SameFrame(w: World, w': World)
  {
    && Shaped(w')
    && w'.board.n == w.board.n && w'.board.m == w.board.m
    && |w'.agents| == |w.agents|
    && |w.markers| <= |w'.markers|
  }

  /** Replaces agent `id`'s record. */
  function SetAgent(w: World, id: nat, a: Agent): (r: World)
    requires Shaped(w) && id < |w.agents| && AgentShaped(ScopeOf(w), a)
    ensures Shaped(r) && ScopeOf(r) == ScopeOf(w) && r.board == w.board && r.markers == w.markers
    ensures r.agents == w.agents[id := a]
  {
    w.(agents := w.agents[id := a])
  }

  /** Replaces the board by one of the same size whose occupants name things of `w`. */
  function SetBoard(w: World, g: Grid<Occupant>): (r: World)
    requires Shaped(w) && g.Valid() && g.n == w.board.n && g.m == w.board.m && Named(ScopeOf(w), g)
    ensures Shaped(r) && ScopeOf(r) == ScopeOf(w) && r.agents == w.agents && r.markers == w.markers
    ensures r.board == g
  {
    w.(board := g)
  }

  /** Every agent's record is the same in `w'` but for its position. */
  predicate OnlyMoves(w: World, w': World)
  {
    && |w'.agents| == |w.agents|
    && forall k | 0 <= k < |w.agents| :: w'.agents[k] == w.agents[k].(pos := w'.agents[k].pos)
  }

  /** Moves after moves are moves. */
  lemma OnlyMovesTrans(w: World, w': World, w'': World)
    requires OnlyMoves(w, w') && OnlyMoves(w', w'')
    ensures OnlyMoves(w, w'')
  {
    forall k | 0 <= k < |w.agents|
      ensures w''.agents[k] == w.agents[k].(pos := w''.agents[k].pos)
    {
      assert w'.agents[k] == w.agents[k].(pos := w'.agents[k].pos);
    }
  }

  /** `manhattan_radius`, which measures the larger of the two coordinate gaps. */
  function Chebyshev(p: Pos, q: Pos): (d: nat)
    ensures Abs(p.i - q.i) <= d && Abs(p.j - q.j) <= d
    ensures d == Abs(p.i - q.i) || d == Abs(p.j - q.j)
  {
    if Abs(p.i - q.i) < Abs(p.j - q.j) then Abs(p.j - q.j) else Abs(p.i - q.i)
  }

  function Abs(x: int): nat
  {
    if x < 0 then -x else x
  }

  /** The distance is symmetric, and zero exactly between a position and itself. */
  lemma ChebyshevMetric(p: Pos, q: Pos)
    ensures Chebyshev(p, q) == Chebyshev(q, p)
    ensures Chebyshev(p, q) == 0 <==> p == q
  {
  }

  /** The symbol a cell reads as: 'A', 'B' or 'C' after its first object kind in that order, else '0'. */
  function Label(cell: seq<Occupant>): (s: Sense)
    ensures !s.Scent?
    ensures s == Bare <==> forall it: Item :: Obj(it) !in cell
    ensures s.Saw? ==> Obj(s.item) in cell
  {
    if Obj(A) in cell then Saw(A)
    else if Obj(B) in cell then Saw(B)
    else if Obj(C) in cell then Saw(C)
    else
      assert forall it: Item :: Obj(it) !in cell by {
        forall it: Item
          ensures Obj(it) !in cell
        {
          if it == A {} else if it == B {} else { assert it == C; }
        }
      }
      Bare
  }

  /** What one element of a cell contributes to its reading: the pheromone, if it is one, then the cell's symbol `s`. */
  function Piece(x: Occupant, s: Sense): seq<Sense>
  {
    if x.Mark? then [Scent(x.mark), s] else [s]
  }

  /**
   * The loop of `get_tile_content`: each element of the cell contributes the
   * cell's symbol `s`, preceded by itself when it is a pheromone.
   */
  function Expand(cell: seq<Occupant>, s: Sense): seq<Sense>
  {
    if cell == [] then [] else Piece(cell[0], s) + Expand(cell[1..], s)
  }

  /**
   * What the loop reads off a cell: the symbol once per element, each
   * pheromone as often as it lies there, nothing else, and first the first
   * element's contribution.
   */
  lemma {:induction false} ExpandCounts(cell: seq<Occupant>, s: Sense)
    requires !s.Scent?
    ensures var r := Expand(cell, s);
      && multiset(r)[s] == |cell|
      && (forall mk :: multiset(r)[Scent(mk)] == multiset(cell)[Mark(mk)])
      && (forall e | e in r :: e == s || e.Scent?)
      && (|cell| > 0 ==> |r| > 0 && r[0] == (if cell[0].Mark? then Scent(cell[0].mark) else s))
  {
    if cell != [] {
      ExpandCounts(cell[1..], s);
      ExpandCons(cell, s, Piece(cell[0], s), Expand(cell[1..], s));
    }
  }

  /** The counts of `Expand` grow by the first element's contribution. */
  lemma ExpandCons(cell: seq<Occupant>, s: Sense, head: seq<Sense>, rest: seq<Sense>)
    requires !s.Scent? && |cell| > 0
    requires head == Piece(cell[0], s)
    requires multiset(rest)[s] == |cell| - 1
    requires forall mk :: multiset(rest)[Scent(mk)] == multiset(cell[1..])[Mark(mk)]
    requires forall e | e in rest :: e == s || e.Scent?
    ensures multiset(head + rest)[s] == |cell|
    ensures forall mk :: multiset(head + rest)[Scent(mk)] == multiset(cell)[Mark(mk)]
    ensures forall e | e in head + rest :: e == s || e.Scent?
  {
    assert cell == [cell[0]] + cell[1..];
    assert multiset(cell) == multiset{cell[0]} + multiset(cell[1..]);
    assert multiset(head + rest) == multiset(head) + multiset(rest);
  }

  /** Reading two stretches of a cell one after the other reads the whole stretch. */
  lemma {:induction false} ExpandAppend(c1: seq<Occupant>, c2: seq<Occupant>, s: Sense)
    ensures Expand(c1 + c2, s) == Expand(c1, s) + Expand(c2, s)
  {
    if c1 == [] {
      assert c1 + c2 == c2;
    } else {
      ExpandAppend(c1[1..], c2, s);
      ExpandHead(c1, c2, s);
      Seqs.ConcatAssoc(Piece(c1[0], s), Expand(c1[1..], s), Expand(c2, s));
    }
  }

  /** Unfolding `Expand` once over a concatenation with a nonempty front. */
  lemma ExpandHead(c1: seq<Occupant>, c2: seq<Occupant>, s: Sense)
    requires c1 != []
    ensures Expand(c1 + c2, s) == Piece(c1[0], s) + Expand(c1[1..] + c2, s)
    ensures Expand(c1, s) == Piece(c1[0], s) + Expand(c1[1..], s)
  {
    assert (c1 + c2)[1..] == c1[1..] + c2;
  }

  /**
   * The loop visits the cell in order: an element appended to the cell adds
   * its pheromone, if it is one, then the cell's symbol, after the entries
   * of the elements before it.
   */
  lemma ExpandSnoc(cell: seq<Occupant>, x: Occupant, s: Sense)
    ensures Expand(cell + [x], s) == Expand(cell, s) + (if x.Mark? then [Scent(x.mark), s] else [s])
  {
    ExpandAppend(cell, [x], s);
    assert [x][1..] == [];
  }

  /**
   * `get_tile_content`: one error when two object kinds share the cell;
   * otherwise one entry per element of the cell carrying the cell's symbol,
   * plus one entry per pheromone lying there.
   */
  function TileContent(cell: seq<Occupant>): (r: Result<seq<Sense>>)
    ensures r.Err? <==> exists x: Item, y: Item :: x != y && Obj(x) in cell && Obj(y) in cell
    ensures r.Ok? ==> forall it: Item :: Label(cell) == Saw(it) <==> Obj(it) in cell
    ensures r.Ok? ==>
      && multiset(r.value)[Label(cell)] == |cell|
      && (forall mk :: multiset(r.value)[Scent(mk)] == multiset(cell)[Mark(mk)])
      && (forall e | e in r.value :: e == Label(cell) || e.Scent?)
    ensures r.Ok? && |cell| > 0 ==>
      && |r.value| > 0
      && r.value[0] == (if cell[0].Mark? then Scent(cell[0].mark) else Label(cell))
    ensures r.Ok? ==> r.value == Expand(cell, Label(cell))
  {
    Clashes(cell);
    if Clash(cell) then
      Err(Conflict)
    else
      var s := Label(cell);
      var content := Expand(cell, s);
      ExpandCounts(cell, s);
      Ok(content)
  }

  /** Two object kinds share the cell: A with B, A with C, or B with C. */
  predicate Clash(cell: seq<Occupant>)
  {
    || (Obj(A) in cell && Obj(B) in cell)
    || (Obj(A) in cell && Obj(C) in cell)
    || (Obj(B) in cell && Obj(C) in cell)
  }

  /** The three pairs tested are all the pairs of kinds; without a clash the label names the only kind present. */
  lemma Clashes(cell: seq<Occupant>)
    ensures Clash(cell) <==> exists x: Item, y: Item :: x != y && Obj(x) in cell && Obj(y) in cell
    ensures !Clash(cell) ==> forall it: Item :: Label(cell) == Saw(it) <==> Obj(it) in cell
  {
    if Clash(cell) {
      if Obj(A) in cell && Obj(B) in cell {
        assert A != B;
      } else if Obj(A) in cell && Obj(C) in cell {
        assert A != C;
      } else {
        assert B != C;
      }
    } else {
      forall x: Item, y: Item | x != y && Obj(x) in cell
        ensures Obj(y) !in cell
      {
        if x == A {} else if x == B {} else { assert x == C; }
      }
    }
  }

  /** The occupants of a cell name existing agents and pheromones. */
  lemma NamedAt(w: World, p: Pos)
    requires Shaped(w) && w.board.InBounds(p)
    ensures forall x | x in w.board.At(p) :: Names(ScopeOf(w), x)
  {
    var c := w.board.Index(p);
    forall x | x in w.board.At(p)
      ensures Names(ScopeOf(w), x)
    {
      assert x in w.board.cells[c];
    }
  }

  /** `is_agent_waiting`: some agent in cell `p` waits for help. */
  predicate IsAgentWaiting(w: World, p: Pos)
    requires Shaped(w) && w.board.InBounds(p)
  {
    NamedAt(w, p);
    exists x | x in w.board.At(p) && x.Ant? :: w.agents[x.id].waiting
  }

  /** A board edit that at most adds `x` to cells, where `x` names something in scope, keeps the board named. */
  lemma NamedAfterAdding(s: Scope, g: Grid<Occupant>, g': Grid<Occupant>, x: Occupant)
    requires Named(s, g) && Names(s, x) && |g'.cells| == |g.cells|
    requires forall c, y | 0 <= c < |g'.cells| && y in g'.cells[c] :: y in g.cells[c] || y == x
    ensures Named(s, g')
  {
  }

  /**
   * `Board.move`: agent `id` leaves its cell (the first occurrence of it
   * there) and joins the end of cell `t`. It raises when the agent is not in
   * the cell its position names.
   */
  function MoveTo(w: World, id: nat, t: Pos): (r: Result<World>)
    requires Shaped(w) && id < |w.agents| && w.board.InBounds(t)
    ensures r.Ok? <==> Ant(id) in w.board.At(w.agents[id].pos)
    ensures r.Ok? ==>
      var a, p, g, g' := w.agents[id], w.agents[id].pos, w.board, r.value.board;
      var left := g.cells[g.Index(p) := Seqs.RemoveFirst(g.At(p), Ant(id))];
      && SameFrame(w, r.value) && r.value.markers == w.markers
      && r.value.agents == w.agents[id := a.(pos := t)]
      && g'.cells == left[g.Index(t) := left[g.Index(t)] + [Ant(id)]]
  {
    var a := w.agents[id];
    var g := w.board;
    var left :- g.Remove(a.pos, Ant(id));
    Seqs.RemoveFirstSubset(g.At(a.pos), Ant(id));
    var g' := left.Append(t, Ant(id));
    NamedAfterAdding(ScopeOf(w), g, g', Ant(id));
    Ok(SetAgent(SetBoard(w, g'), id, a.(pos := t)))
  }

  /**
   * `move_in_direction`: one step of agent `id` in direction `d`. Off the
   * board nothing changes and the answer is false; otherwise the agent
   * moves to the target cell and the answer is true.
   */
  function MoveInDirection(w: World, id: nat, d: Pos): (r: Result<(World, bool)>)
    requires Shaped(w) && id < |w.agents| && d in Directions
    ensures !w.board.InBounds(Shift(w.agents[id].pos, d)) ==> r == Ok((w, false))
    ensures w.board.InBounds(Shift(w.agents[id].pos, d)) ==>
      && (r.Ok? <==> Ant(id) in w.board.At(w.agents[id].pos))
      && (r.Ok? ==> r.value.1 && Ok(r.value.0) == MoveTo(w, id, Shift(w.agents[id].pos, d)))
    ensures r.Ok? ==> SameFrame(w, r.value.0) && r.value.0.markers == w.markers && OnlyMoves(w, r.value.0)
  {
    var t := Shift(w.agents[id].pos, d);
    if w.board.InBounds(t) then
      var w' :- MoveTo(w, id, t);
      Ok((w', true))
    else
      Ok((w, false))
  }

  /**
   * `Board.pick_up` with the assignment to the backpack that follows it:
   * the object the agent's head symbol names leaves the agent's cell for its
   * backpack. It raises when no such object lies there.
   */
  function PickUp(w: World, id: nat): (r: Result<World>)
    requires Shaped(w) && id < |w.agents|
    requires |w.agents[id].memory| > 0 && w.agents[id].memory[0].Saw?
    ensures
      var a := w.agents[id];
      r.Ok? <==> Obj(a.memory[0].item) in w.board.At(a.pos)
    ensures r.Ok? ==>
      var a, g := w.agents[id], w.board;
      var it := a.memory[0].item;
      && SameFrame(w, r.value) && r.value.markers == w.markers
      && r.value.agents == w.agents[id := a.(backpack := Some(it))]
      && r.value.board.cells == g.cells[g.Index(a.pos) := Seqs.RemoveFirst(g.At(a.pos), Obj(it))]
  {
    var a := w.agents[id];
    var it := a.memory[0].item;
    var board :- w.board.Remove(a.pos, Obj(it));
    Seqs.RemoveFirstSubset(w.board.At(a.pos), Obj(it));
    NamedAfterAdding(ScopeOf(w), w.board, board, Obj(it));
    Ok(SetAgent(SetBoard(w, board), id, a.(backpack := Some(it))))
  }

  /** `Board.drop` with the emptying of the backpack that follows it: the carried object joins the end of the agent's cell. */
  function Drop(w: World, id: nat): (r: World)
    requires Shaped(w) && id < |w.agents| && w.agents[id].backpack.Some?
    ensures
      var a, g := w.agents[id], w.board;
      && SameFrame(w, r) && r.markers == w.markers
      && r.agents == w.agents[id := a.(backpack := None)]
      && r.board.cells == g.cells[g.Index(a.pos) := g.At(a.pos) + [Obj(a.backpack.value)]]
  {
    var a := w.agents[id];
    var board := w.board.Append(a.pos, Obj(a.backpack.value));
    NamedAfterAdding(ScopeOf(w), w.board, board, Obj(a.backpack.value));
    SetAgent(SetBoard(w, board), id, a.(backpack := None))
  }

  // ---------------------------------------------------------------------
  // Pheromones

  /** The `t`-th offset `(k, l)` of the double loop of `emit_pheromone`, each running from -2 to 2. */
  function Offset(t: nat): Pos
  {
    Pos(t / Span - Diffusion, t % Span - Diffusion)
  }

  /** The cells the loop of `emit_pheromone` collects around `p` on an `n` by `m` board, from its `t`-th offset on. */
  function Spread(n: nat, m: nat, p: Pos, t: nat): (r: seq<Pos>)
    decreases Span * Span - t
    ensures forall q | q in r :: OnBoard(n, m, q)
  {
    if t >= Span * Span then []
    else
      var q := Pos(p.i + Offset(t).i, p.j + Offset(t).j);
      (if Offset(t) != Pos(0, 0) && OnBoard(n, m, q) then [q] else []) + Spread(n, m, p, t + 1)
  }

  /** Where `q` comes in the scan around `p`, for `q` within reach of it. */
  function Rank(p: Pos, q: Pos): int
  {
    (q.i - p.i + Diffusion) * Span + (q.j - p.j + Diffusion)
  }

  /** The `t`-th offset lands on a cell of rank `t`, within reach, and is the centre only halfway through. */
  lemma OffsetRank(p: Pos, t: nat)
    requires t < Span * Span
    ensures var q := Pos(p.i + Offset(t).i, p.j + Offset(t).j);
      && Rank(p, q) == t
      && Chebyshev(p, q) <= Diffusion
      && (Offset(t) == Pos(0, 0) <==> t == Diffusion * Span + Diffusion)
  {
  }

  /** A cell within reach is the one its rank's offset lands on. */
  lemma RankOffset(p: Pos, q: Pos)
    requires Chebyshev(p, q) <= Diffusion
    ensures 0 <= Rank(p, q) < Span * Span
    ensures q == Pos(p.i + Offset(Rank(p, q)).i, p.j + Offset(Rank(p, q)).j)
  {
    var a, b := q.i - p.i + Diffusion, q.j - p.j + Diffusion;
    assert 0 <= a < Span && 0 <= b < Span;
    assert Rank(p, q) == a * Span + b;
    assert Rank(p, q) / Span == a && Rank(p, q) % Span == b;
  }

  /** The scan from offset `t` on collects exactly the cells within reach, not the centre, of rank `t` or more. */
  lemma {:induction false} SpreadMembers(n: nat, m: nat, p: Pos, t: nat, q: Pos)
    requires t <= Span * Span
    decreases Span * Span - t
    ensures q in Spread(n, m, p, t) <==>
      OnBoard(n, m, q) && 0 < Chebyshev(p, q) <= Diffusion && t <= Rank(p, q)
  {
    if t == Span * Span {
      if 0 < Chebyshev(p, q) <= Diffusion {
        RankOffset(p, q);
      }
    } else {
      SpreadMembers(n, m, p, t + 1, q);
      SpreadHead(n, m, p, t, q);
      LandsAt(p, t, q);
    }
  }

  /** One turn of the scan: `q` is collected at offset `t` or later. */
  lemma SpreadHead(n: nat, m: nat, p: Pos, t: nat, q: Pos)
    requires t < Span * Span
    ensures q in Spread(n, m, p, t) <==>
      q in Spread(n, m, p, t + 1)
      || (Offset(t) != Pos(0, 0) && OnBoard(n, m, q) && q == Pos(p.i + Offset(t).i, p.j + Offset(t).j))
  {
  }

  /** The `t`-th offset lands on `q` exactly when `q` is within reach and of rank `t`, and then it is off-centre unless `q` is `p`. */
  lemma LandsAt(p: Pos, t: nat, q: Pos)
    requires t < Span * Span
    ensures q == Pos(p.i + Offset(t).i, p.j + Offset(t).j) <==> Chebyshev(p, q) <= Diffusion && Rank(p, q) == t
    ensures q == Pos(p.i + Offset(t).i, p.j + Offset(t).j) ==> (Offset(t) != Pos(0, 0) <==> 0 < Chebyshev(p, q))
  {
    OffsetRank(p, t);
    if Chebyshev(p, q) <= Diffusion {
      RankOffset(p, q);
    }
  }

  /** The cells of `s` come in strictly increasing rank around `p`. */
  predicate Rising(p: Pos, s: seq<Pos>)
  {
    forall a, b | 0 <= a < b < |s| :: Rank(p, s[a]) < Rank(p, s[b])
  }

  /** The scan from offset `t` on meets its cells in strictly increasing rank. */
  lemma {:induction false} SpreadRising(n: nat, m: nat, p: Pos, t: nat)
    requires t <= Span * Span
    decreases Span * Span - t
    ensures Rising(p, Spread(n, m, p, t))
  {
    if t < Span * Span {
      SpreadRising(n, m, p, t + 1);
      var rest := Spread(n, m, p, t + 1);
      var q := SpreadStep(n, m, p, t);
      if Spread(n, m, p, t) != rest {
        SpreadAbove(n, m, p, t + 1);
        RisingCons(p, q, rest);
      }
    }
  }

  /** One offset of the scan: it collects the cell of rank `t` or nothing, then scans on. */
  lemma SpreadStep(n: nat, m: nat, p: Pos, t: nat) returns (q: Pos)
    requires t < Span * Span
    ensures Rank(p, q) == t
    ensures Spread(n, m, p, t) == [q] + Spread(n, m, p, t + 1) || Spread(n, m, p, t) == Spread(n, m, p, t + 1)
  {
    q := Pos(p.i + Offset(t).i, p.j + Offset(t).j);
    OffsetRank(p, t);
  }

  /** Every cell the scan collects from offset `u` on has rank `u` or more. */
  lemma SpreadAbove(n: nat, m: nat, p: Pos, u: nat)
    requires u <= Span * Span
    ensures forall b | 0 <= b < |Spread(n, m, p, u)| :: u <= Rank(p, Spread(n, m, p, u)[b])
  {
    var rest := Spread(n, m, p, u);
    forall b | 0 <= b < |rest|
      ensures u <= Rank(p, rest[b])
    {
      SpreadMembers(n, m, p, u, rest[b]);
    }
  }

  /** A cell of lower rank than every cell of a rising list extends it to a rising list. */
  lemma RisingCons(p: Pos, x: Pos, rest: seq<Pos>)
    requires forall b | 0 <= b < |rest| :: Rank(p, x) < Rank(p, rest[b])
    requires Rising(p, rest)
    ensures Rising(p, [x] + rest)
  {
    var s := [x] + rest;
    forall a, b | 0 <= a < b < |s|
      ensures Rank(p, s[a]) < Rank(p, s[b])
    {
      assert s[b] == rest[b - 1];
      if a > 0 {
        assert s[a] == rest[a - 1];
      }
    }
  }

  /** The scan from offset `t` on collects at most one cell per remaining offset, the centre excepted. */
  lemma {:induction false} SpreadLength(n: nat, m: nat, p: Pos, t: nat)
    requires t <= Span * Span
    decreases Span * Span - t
    ensures |Spread(n, m, p, t)| <= Span * Span - t - (if t <= Diffusion * Span + Diffusion then 1 else 0)
  {
    if t < Span * Span {
      SpreadLength(n, m, p, t + 1);
    }
  }

  /** The scan never collects a cell twice. */
  lemma SpreadDistinct(n: nat, m: nat, p: Pos)
    ensures Distinct(Spread(n, m, p, 0))
  {
    SpreadRising(n, m, p, 0);
  }

  /**
   * The cells `emit_pheromone` covers around `p`: the cells of the board at
   * distance one or two from `p`, each once, at most 24 of them.
   */
  lemma SpreadShape(n: nat, m: nat, p: Pos)
    ensures forall q :: q in Spread(n, m, p, 0) <==> OnBoard(n, m, q) && 0 < Chebyshev(p, q) <= Diffusion
    ensures Distinct(Spread(n, m, p, 0))
    ensures |Spread(n, m, p, 0)| <= Span * Span - 1
  {
    forall q
      ensures q in Spread(n, m, p, 0) <==> OnBoard(n, m, q) && 0 < Chebyshev(p, q) <= Diffusion
    {
      SpreadMembers(n, m, p, 0, q);
      if 0 < Chebyshev(p, q) <= Diffusion {
        RankOffset(p, q);
      }
    }
    SpreadRising(n, m, p, 0);
    SpreadLength(n, m, p, 0);
  }

  /** The head of a list without repeats is not in its tail, and the tail has no repeats either. */
  lemma DistinctTail(ps: seq<Pos>)
    requires Distinct(ps) && ps != []
    ensures ps[0] !in ps[1..] && Distinct(ps[1..])
  {
    forall b | 0 <= b < |ps[1..]|
      ensures ps[1..][b] != ps[0]
    {
      assert ps[1..][b] == ps[b + 1];
    }
  }

  /** The flat indices of the positions `ps` on a board of `m` columns. */
  function Slots(m: nat, ps: seq<Pos>): set<int>
  {
    if ps == [] then {} else {ps[0].i * m + ps[0].j} + Slots(m, ps[1..])
  }

  /** A cell's flat index is a slot of `ps` exactly when the cell is listed in `ps`. */
  lemma {:induction false} SlotsMember(g: Grid<Occupant>, ps: seq<Pos>, q: Pos)
    requires g.Valid() && g.InBounds(q) && forall x | x in ps :: g.InBounds(x)
    ensures g.Index(q) in Slots(g.m, ps) <==> q in ps
  {
    if ps != [] {
      SlotsMember(g, ps[1..], q);
      if g.Index(q) == g.Index(ps[0]) {
        IndexInjective(g.m, q, ps[0]);
      }
      assert q in ps <==> q == ps[0] || q in ps[1..];
    }
  }

  /** The loop of the `Pheromone` constructor: appends `x` to each cell of `ps` in turn. */
  function Scatter(g: Grid<Occupant>, ps: seq<Pos>, x: Occupant): (r: Grid<Occupant>)
    requires g.Valid() && (forall q | q in ps :: g.InBounds(q)) && Distinct(ps)
    decreases |ps|
    ensures r.Valid() && r.n == g.n && r.m == g.m
    ensures forall c | 0 <= c < |g.cells| ::
      r.cells[c] == g.cells[c] + (if c in Slots(g.m, ps) then [x] else [])
  {
    if ps == [] then g
    else
      DistinctTail(ps);
      SlotsMember(g, ps[1..], ps[0]);
      Scatter(g.Append(ps[0], x), ps[1..], x)
  }

  /** The loop of `Pheromone.destroy`: removes `x` from each cell of `ps` in turn; it raises when some cell lacks `x`. */
  function Withdraw(g: Grid<Occupant>, ps: seq<Pos>, x: Occupant): (r: Result<Grid<Occupant>>)
    requires g.Valid() && (forall q | q in ps :: g.InBounds(q)) && Distinct(ps)
    decreases |ps|
    ensures r.Ok? <==> forall q | q in ps :: x in g.At(q)
    ensures r.Ok? ==> r.value.Valid() && r.value.n == g.n && r.value.m == g.m
    ensures r.Ok? ==> forall c | 0 <= c < |g.cells| ::
      r.value.cells[c] == if c in Slots(g.m, ps) then Seqs.RemoveFirst(g.cells[c], x) else g.cells[c]
  {
    if ps == [] then Ok(g)
    else
      match g.Remove(ps[0], x)
      case Err(f) => Err(f)
      case Ok(g1) =>
        DistinctTail(ps);
        assert forall q | q in ps[1..] :: q in ps;
        var r := Withdraw(g1, ps[1..], x);
        WithdrawStep(g, ps, x, g1, r);
        r
  }

  /** One round of the loop of `Pheromone.destroy`: the first cell loses `x`, then the rest of the loop runs. */
  lemma WithdrawStep(g: Grid<Occupant>, ps: seq<Pos>, x: Occupant, g1: Grid<Occupant>, r: Result<Grid<Occupant>>)
    requires g.Valid() && |ps| > 0 && (forall q | q in ps :: g.InBounds(q)) && Distinct(ps)
    requires x in g.At(ps[0])
    requires g1.Valid() && g1.n == g.n && g1.m == g.m && (forall q | q in ps[1..] :: g1.InBounds(q))
    requires g1.cells == g.cells[g.Index(ps[0]) := Seqs.RemoveFirst(g.At(ps[0]), x)]
    requires r.Ok? <==> forall q | q in ps[1..] :: x in g1.At(q)
    requires r.Ok? ==> r.value.Valid() && r.value.n == g.n && r.value.m == g.m
    requires r.Ok? ==> forall c | 0 <= c < |g1.cells| ::
      r.value.cells[c] == if c in Slots(g1.m, ps[1..]) then Seqs.RemoveFirst(g1.cells[c], x) else g1.cells[c]
    ensures r.Ok? <==> forall q | q in ps :: x in g.At(q)
    ensures r.Ok? ==> forall c | 0 <= c < |g.cells| ::
      r.value.cells[c] == if c in Slots(g.m, ps) then Seqs.RemoveFirst(g.cells[c], x) else g.cells[c]
  {
    var p := ps[0];
    DistinctTail(ps);
    WithdrawHolds(g, ps, x, g1);
    if r.Ok? {
      SlotsCons(g, ps);
      PeelCells(g.cells, g.Index(p), Slots(g.m, ps[1..]), x, g1.cells, r.value.cells);
    }
  }

  /** The slots of `ps` are the first cell's index, which the rest of `ps` does not list, and the slots of the rest. */
  lemma SlotsCons(g: Grid<Occupant>, ps: seq<Pos>)
    requires g.Valid() && |ps| > 0 && (forall q | q in ps :: g.InBounds(q)) && Distinct(ps)
    ensures g.Index(ps[0]) !in Slots(g.m, ps[1..])
    ensures Slots(g.m, ps) == {g.Index(ps[0])} + Slots(g.m, ps[1..])
  {
    DistinctTail(ps);
    assert ps[0] in ps && forall q | q in ps[1..] :: q in ps;
    SlotsMember(g, ps[1..], ps[0]);
    assert g.Index(ps[0]) == ps[0].i * g.m + ps[0].j;
  }

  /** After the first removal, `x` is in every remaining cell of `ps` exactly when it was before. */
  lemma WithdrawHolds(g: Grid<Occupant>, ps: seq<Pos>, x: Occupant, g1: Grid<Occupant>)
    requires g.Valid() && |ps| > 0 && (forall q | q in ps :: g.InBounds(q)) && Distinct(ps)
    requires x in g.At(ps[0])
    requires g1.Valid() && g1.n == g.n && g1.m == g.m
    requires g1.cells == g.cells[g.Index(ps[0]) := Seqs.RemoveFirst(g.At(ps[0]), x)]
    ensures (forall q | q in ps[1..] :: g.InBounds(q) && x in g1.At(q)) <==> forall q | q in ps :: x in g.At(q)
  {
    var p := ps[0];
    DistinctTail(ps);
    forall q | q in ps[1..]
      ensures g.InBounds(q) && g1.At(q) == g.At(q)
    {
      assert q in ps;
      KeptElsewhere(g, g1, p, q, Seqs.RemoveFirst(g.At(p), x));
    }
    assert forall q | q in ps :: q == p || q in ps[1..];
  }

  /** Rewriting the cell at `p` leaves the cell at every other `q` as it was. */
  lemma KeptElsewhere(g: Grid<Occupant>, g1: Grid<Occupant>, p: Pos, q: Pos, v: seq<Occupant>)
    requires g.Valid() && g.InBounds(p) && g.InBounds(q) && p != q
    requires g1.Valid() && g1.n == g.n && g1.m == g.m && g1.cells == g.cells[g.Index(p) := v]
    ensures g1.At(q) == g.At(q)
  {
    if g.Index(q) == g.Index(p) {
      IndexInjective(g.m, q, p);
    }
  }


  /** Removing `x` at index `k` first and then at the indices of `s` removes it at the indices of `{k} + s`. */
  lemma PeelCells(a: seq<seq<Occupant>>, k: int, s: set<int>, x: Occupant, a1: seq<seq<Occupant>>, b: seq<seq<Occupant>>)
    requires 0 <= k < |a| && k !in s && |b| == |a|
    requires a1 == a[k := Seqs.RemoveFirst(a[k], x)]
    requires forall c | 0 <= c < |a1| :: b[c] == if c in s then Seqs.RemoveFirst(a1[c], x) else a1[c]
    ensures forall c | 0 <= c < |a| :: b[c] == if c in {k} + s then Seqs.RemoveFirst(a[c], x) else a[c]
  {
    forall c | 0 <= c < |a|
      ensures b[c] == if c in {k} + s then Seqs.RemoveFirst(a[c], x) else a[c]
    {
      if c == k {
        assert b[c] == a1[c];
      }
    }
  }


  /** Records a new pheromone; nothing else changes. */
  function AddMarker(w: World, m: Marker): (r: World)
    requires Shaped(w) && MarkerShaped(ScopeOf(w), m)
    ensures Shaped(r) && ScopeOf(r) == ScopeOf(w).(markers := |w.markers| + 1)
    ensures r.board == w.board && r.agents == w.agents && r.markers == w.markers + [m]
  {
    var r := w.(markers := w.markers + [m]);
    var s, s' := ScopeOf(w), ScopeOf(r);
    forall id | 0 <= id < |r.agents|
      ensures AgentShaped(s', r.agents[id])
    {
      assert AgentShaped(s, w.agents[id]);
    }
    forall k | 0 <= k < |r.markers|
      ensures MarkerShaped(s', r.markers[k])
    {
      if k < |w.markers| {
        assert MarkerShaped(s, w.markers[k]);
      }
    }
    forall c, x | 0 <= c < |w.board.cells| && x in w.board.cells[c]
      ensures Names(s', x)
    {
      assert Names(s, x);
    }
    r
  }

  /**
   * `emit_pheromone` with the `Pheromone` constructor: a new pheromone of
   * full strength, owned by agent `id`, named by the next free index and
   * appended to every cell around the agent at distance one or two.
   */
  function Emit(w: World, id: nat): (r: (World, nat))
    requires Shaped(w) && id < |w.agents|
    ensures SameFrame(w, r.0) && r.0.agents == w.agents
    ensures r.1 == |w.markers|
    ensures r.0.markers == w.markers + [Marker(id, Spread(w.board.n, w.board.m, w.agents[id].pos, 0), FullStrength)]
    ensures forall c | 0 <= c < |w.board.cells| ::
      r.0.board.cells[c] == w.board.cells[c] +
        (if c in Slots(w.board.m, Spread(w.board.n, w.board.m, w.agents[id].pos, 0)) then [Mark(r.1)] else [])
  {
    var p := w.agents[id].pos;
    var cells := Spread(w.board.n, w.board.m, p, 0);
    var mk := |w.markers|;
    var m := Marker(id, cells, FullStrength);
    SpreadDistinct(w.board.n, w.board.m, p);
    assert MarkerShaped(ScopeOf(w), m);
    var w1 := AddMarker(w, m);
    var board := Scatter(w.board, cells, Mark(mk));
    ScatterNamed(ScopeOf(w1), w.board, cells, Mark(mk));
    (SetBoard(w1, board), mk)
  }

  /** Scattering an occupant that names something in scope keeps the board named. */
  lemma ScatterNamed(s: Scope, g: Grid<Occupant>, ps: seq<Pos>, x: Occupant)
    requires g.Valid() && (forall q | q in ps :: g.InBounds(q)) && Distinct(ps)
    requires Named(s, g) && Names(s, x)
    ensures Named(s, Scatter(g, ps, x))
  {
    var g' := Scatter(g, ps, x);
    forall c, y | 0 <= c < |g'.cells| && y in g'.cells[c]
      ensures y in g.cells[c] || y == x
    {
    }
    NamedAfterAdding(s, g, g', x);
  }

  /** `Pheromone.destroy`: pheromone `mk` leaves every cell it covers; it raises when one of them lacks it. */
  function Destroy(w: World, mk: nat): (r: Result<World>)
    requires Shaped(w) && mk < |w.markers|
    ensures r.Ok? <==> forall q | q in w.markers[mk].cells :: Mark(mk) in w.board.At(q)
    ensures r.Ok? ==> SameFrame(w, r.value) && r.value.agents == w.agents && r.value.markers == w.markers
    ensures r.Ok? ==> forall c | 0 <= c < |w.board.cells| ::
      r.value.board.cells[c] ==
        if c in Slots(w.board.m, w.markers[mk].cells) then Seqs.RemoveFirst(w.board.cells[c], Mark(mk))
        else w.board.cells[c]
  {
    var board :- Withdraw(w.board, w.markers[mk].cells, Mark(mk));
    forall c, y | 0 <= c < |board.cells| && y in board.cells[c]
      ensures y in w.board.cells[c]
    {
      if c in Slots(w.board.m, w.markers[mk].cells) {
        Seqs.RemoveFirstSubset(w.board.cells[c], Mark(mk));
      }
    }
    NamedAfterAdding(ScopeOf(w), w.board, board, Mark(mk));
    Ok(SetBoard(w, board))
  }

  /** No cell holds a pheromone that has not been laid yet. */
  lemma Unlaid(w: World, c: nat)
    requires Shaped(w) && c < |w.board.cells|
    ensures Mark(|w.markers|) !in w.board.cells[c]
  {
    forall x | x in w.board.cells[c]
      ensures x != Mark(|w.markers|)
    {
      assert Names(ScopeOf(w), x);
    }
  }

  /** A fresh pheromone lies on every cell it covers. */
  lemma EmitCovers(w: World, id: nat)
    requires Shaped(w) && id < |w.agents|
    ensures var w', mk := Emit(w, id).0, Emit(w, id).1;
      forall q | q in w'.markers[mk].cells :: Mark(mk) in w'.board.At(q)
  {
    var g', mk := EmitLays(w, id);
    var cells := Spread(w.board.n, w.board.m, w.agents[id].pos, 0);
    ScatteredOver(w.board, g', cells, Mark(mk));
  }

  /** Every cell listed in `ps` holds `x` once `x` is scattered over `ps`. */
  lemma ScatteredOver(g: Grid<Occupant>, g': Grid<Occupant>, ps: seq<Pos>, x: Occupant)
    requires g.Valid() && g'.Valid() && g'.n == g.n && g'.m == g.m
    requires forall y | y in ps :: OnBoard(g.n, g.m, y)
    requires forall c | 0 <= c < |g.cells| :: g'.cells[c] == g.cells[c] + (if c in Slots(g.m, ps) then [x] else [])
    ensures forall q | q in ps :: g'.InBounds(q) && x in g'.At(q)
  {
    forall q | q in ps
      ensures g'.InBounds(q) && x in g'.At(q)
    {
      ScatteredAt(g, g', ps, x, q);
    }
  }

  /** The board `emit_pheromone` leaves, and the name of the pheromone it lays. */
  lemma EmitLays(w: World, id: nat) returns (g': Grid<Occupant>, mk: nat)
    requires Shaped(w) && id < |w.agents|
    ensures g' == Emit(w, id).0.board && mk == Emit(w, id).1
    ensures g'.Valid() && g'.n == w.board.n && g'.m == w.board.m
    ensures Emit(w, id).0.markers[mk].cells == Spread(w.board.n, w.board.m, w.agents[id].pos, 0)
    ensures forall c | 0 <= c < |w.board.cells| ::
      g'.cells[c] == w.board.cells[c] +
        (if c in Slots(w.board.m, Spread(w.board.n, w.board.m, w.agents[id].pos, 0)) then [Mark(mk)] else [])
  {
    g', mk := Emit(w, id).0.board, Emit(w, id).1;
  }

  /** A cell listed in `ps` holds `x` once `x` is scattered over `ps`. */
  lemma ScatteredAt(g: Grid<Occupant>, g': Grid<Occupant>, ps: seq<Pos>, x: Occupant, q: Pos)
    requires g.Valid() && g'.Valid() && g'.n == g.n && g'.m == g.m
    requires (forall y | y in ps :: OnBoard(g.n, g.m, y)) && q in ps
    requires forall c | 0 <= c < |g.cells| :: g'.cells[c] == g.cells[c] + (if c in Slots(g.m, ps) then [x] else [])
    ensures g'.InBounds(q) && x in g'.At(q)
  {
    assert OnBoard(g.n, g.m, q);
    SlotsMember(g, ps, q);
    assert g'.cells[g.Index(q)] == g.cells[g.Index(q)] + [x];
  }

  /** A pheromone laid and destroyed right away leaves the board as it was. */
  lemma EmitThenDestroy(w: World, id: nat)
    requires Shaped(w) && id < |w.agents|
    ensures Destroy(Emit(w, id).0, Emit(w, id).1) == Ok(Emit(w, id).0.(board := w.board))
  {
    var w', mk := Emit(w, id).0, Emit(w, id).1;
    var cells := Spread(w.board.n, w.board.m, w.agents[id].pos, 0);
    EmitCovers(w, id);
    var g := Destroy(w', mk).value.board;
    forall c | 0 <= c < |w.board.cells|
      ensures g.cells[c] == w.board.cells[c]
    {
      if c in Slots(w.board.m, cells) {
        Unlaid(w, c);
        assert w'.board.cells[c] == w.board.cells[c] + [Mark(mk)];
        Seqs.RemoveAppended(w.board.cells[c], Mark(mk));
      }
    }
    assert g.cells == w.board.cells;
  }

  /** One time step of a pheromone's decay: `strength -= 1`. */
  function Weaken(w: World, mk: nat): (r: World)
    requires Shaped(w) && mk < |w.markers|
    ensures SameFrame(w, r) && r.board == w.board && r.agents == w.agents
    ensures r.markers == w.markers[mk := w.markers[mk].(strength := w.markers[mk].strength - 1)]
  {
    w.(markers := w.markers[mk := w.markers[mk].(strength := w.markers[mk].strength - 1)])
  }
}
