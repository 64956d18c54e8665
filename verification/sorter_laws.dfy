/**
 * What the basic sorter keeps true from tick to tick: every agent stands
 * once in the cell its position names, no cell ever holds more than one
 * object (so `get_tile_content` never raises), memories stay within ten
 * entries, and objects are neither created nor destroyed.
 */
module SorterLaws {
  import opened Results
  import opened Grids
  import opened Walks
  import opened Sorter
  import opened Response
  import opened Placement
  import Seqs

  /** Each agent occurs once in the cell its position names and in no other cell. */
  predicate Located(w: World)
    requires Shaped(w)
  {
    forall c, id | 0 <= c < |w.board.cells| && 0 <= id < |w.agents| ::
      multiset(w.board.cells[c])[Ant(id)] == if c == w.board.Index(w.agents[id].pos) then 1 else 0
  }

  /** The number of objects lying in a cell. */
  function ObjectCount(cell: seq<Occupant>): nat
  {
    multiset(cell)[Obj(A)] + multiset(cell)[Obj(B)]
  }

  /** No cell holds more than one object. */
  predicate Sparse(w: World)
  {
    forall c | 0 <= c < |w.board.cells| :: ObjectCount(w.board.cells[c]) <= 1
  }

  /** Every memory holds at most ten symbols. */
  predicate Capped(w: World)
  {
    forall id | 0 <= id < |w.agents| :: |w.agents[id].memory| <= MemoryCap
  }

  /** The invariant of a running simulation. */
  predicate Inv(w: World)
  {
    Shaped(w) && Located(w) && Sparse(w) && Capped(w)
  }

  /** How many agents carry an object of kind `it`. */
  function Carried(agents: seq<Agent>, it: Item): nat
  {
    if agents == [] then 0
    else (if agents[0].backpack == Some(it) then 1 else 0) + Carried(agents[1..], it)
  }

  /** Replacing one agent changes the count by that agent's difference only. */
  lemma {:induction false} CarriedUpdate(agents: seq<Agent>, k: nat, a: Agent, it: Item)
    requires k < |agents|
    ensures Carried(agents[k := a], it) + (if agents[k].backpack == Some(it) then 1 else 0)
         == Carried(agents, it) + (if a.backpack == Some(it) then 1 else 0)
  {
    if k > 0 {
      CarriedUpdate(agents[1..], k - 1, a, it);
      assert agents[k := a][1..] == agents[1..][k - 1 := a];
    }
  }

  /** The objects of kind `it`, on the board and in backpacks together. */
  function Stock(w: World, it: Item): nat
  {
    Tally(w.board.cells, Obj(it)) + Carried(w.agents, it)
  }

  /** A cell with at most one object reads without error, and reads '0' exactly when empty. */
  lemma SparseCellReads(cell: seq<Occupant>)
    requires ObjectCount(cell) <= 1
    ensures TileContent(cell).Ok?
    ensures TileContent(cell) == Ok(Bare) <==> ObjectCount(cell) == 0
  {
    KindsOf(cell);
  }

  /** Perceiving keeps the invariant, never fails on it, and moves no object. */
  lemma PerceiveKeeps(w: World, id: nat)
    requires Inv(w) && id < |w.agents|
    ensures Perceive(w, id).Ok?
    ensures Inv(Perceive(w, id).value)
    ensures forall it :: Stock(Perceive(w, id).value, it) == Stock(w, it)
  {
    var g := w.board;
    SparseCellReads(g.At(w.agents[id].pos));
    var w' := Perceive(w, id).value;
    assert w'.agents == w.agents[id := w'.agents[id]];
    forall it
      ensures Stock(w', it) == Stock(w, it)
    {
      CarriedUpdate(w.agents, id, w'.agents[id], it);
    }
  }

  /** Moving an agent to another cell keeps the invariant and moves no object. */
  lemma RelocateKeeps(w: World, id: nat, t: Pos)
    requires Inv(w) && id < |w.agents| && w.board.InBounds(t) && t != w.agents[id].pos
    ensures Relocate(w, id, t).Ok?
    ensures Inv(Relocate(w, id, t).value)
    ensures forall it :: Stock(Relocate(w, id, t).value, it) == Stock(w, it)
  {
    RelocateInv(w, id, t);
    RelocateStock(w, id, t);
  }

  /** Moving an agent to another cell succeeds and keeps the invariant. */
  lemma RelocateInv(w: World, id: nat, t: Pos)
    requires Inv(w) && id < |w.agents| && w.board.InBounds(t) && t != w.agents[id].pos
    ensures Relocate(w, id, t).Ok? && Inv(Relocate(w, id, t).value)
  {
    var g, p := w.board, w.agents[id].pos;
    assert multiset(g.At(p))[Ant(id)] == 1;
    RelocateLocated(w, id, t);
    RelocateSparse(w, id, t);
  }

  /** Moving an agent leaves every agent once in the cell its position names. */
  lemma RelocateLocated(w: World, id: nat, t: Pos)
    requires Shaped(w) && Located(w) && id < |w.agents| && w.board.InBounds(t) && t != w.agents[id].pos
    requires Relocate(w, id, t).Ok?
    ensures Located(Relocate(w, id, t).value)
  {
    var g, p := w.board, w.agents[id].pos;
    var kp, kt := g.Index(p), g.Index(t);
    assert kp != kt by {
      if kp == kt {
        IndexInjective(g.m, p, t);
      }
    }
    var w' := Relocate(w, id, t).value;
    var g' := w'.board;
    var c1, c2 := g'.At(p), g'.At(t);
    assert g'.cells == g.cells[kp := c1][kt := c2];
    assert multiset(c2) == multiset(g.cells[kt]) + multiset{Ant(id)};
    forall c, id' | 0 <= c < |g'.cells| && 0 <= id' < |w'.agents|
      ensures multiset(g'.cells[c])[Ant(id')] == if c == g'.Index(w'.agents[id'].pos) then 1 else 0
    {
      if id' != id {
        assert w'.agents[id'] == w.agents[id'];
      }
    }
  }

  /** Moving an agent changes no cell's object count. */
  lemma RelocateSparse(w: World, id: nat, t: Pos)
    requires Shaped(w) && Sparse(w) && id < |w.agents| && w.board.InBounds(t) && t != w.agents[id].pos
    requires Relocate(w, id, t).Ok?
    ensures Sparse(Relocate(w, id, t).value)
  {
    var g, p := w.board, w.agents[id].pos;
    var g' := Relocate(w, id, t).value.board;
    var c1, c2 := g'.At(p), g'.At(t);
    assert g'.cells == g.cells[g.Index(p) := c1][g.Index(t) := c2];
    forall c | 0 <= c < |g'.cells|
      ensures ObjectCount(g'.cells[c]) == ObjectCount(g.cells[c])
    {
    }
  }

  /** Moving an agent to another cell moves no object. */
  lemma RelocateStock(w: World, id: nat, t: Pos)
    requires Shaped(w) && id < |w.agents| && w.board.InBounds(t) && t != w.agents[id].pos
    ensures Relocate(w, id, t).Ok? ==> forall it :: Stock(Relocate(w, id, t).value, it) == Stock(w, it)
  {
    if Relocate(w, id, t).Ok? {
      var g, p := w.board, w.agents[id].pos;
      var w' := Relocate(w, id, t).value;
      var c1, c2 := w'.board.At(p), w'.board.At(t);
      assert w'.agents == w.agents[id := w'.agents[id]];
      forall it
        ensures Stock(w', it) == Stock(w, it)
      {
        TallyUpdate(g.cells, g.Index(p), c1, Obj(it));
        TallyUpdate(g.cells[g.Index(p) := c1], g.Index(t), c2, Obj(it));
        CarriedUpdate(w.agents, id, w'.agents[id], it);
      }
    }
  }


  /**
   * The walk moves the agent exactly once, in the first drawn direction that
   * stays on the board, and fails when no drawn direction does.
   */
  lemma {:induction false} WalkFromIsFirstFit(w: World, id: nat, order: seq<Pos>, k: nat)
    requires Shaped(w) && id < |w.agents| && IsShuffle(order)
    requires Ant(id) in w.board.At(w.agents[id].pos)
    decreases |order| - k
    ensures
      var p := w.agents[id].pos;
      var ff := FirstFit(w.board, p, order, k);
      && (WalkFrom(w, id, order, k).Ok? <==> ff.Some?)
      && (ff.Some? ==> WalkFrom(w, id, order, k) == Relocate(w, id, Shift(p, order[ff.value])))
  {
    var p := w.agents[id].pos;
    if k < |order| {
      var d := order[k];
      if w.board.InBounds(Shift(p, d)) {
        assert FirstFit(w.board, p, order, k) == Some(k);
        var mv := Move(w, id, d);
        assert mv.Ok? && mv.value.1;
        assert WalkFrom(w, id, order, k) == Ok(mv.value.0);
      } else {
        assert Move(w, id, d) == Ok((w, false));
        assert WalkFrom(w, id, order, k) == WalkFrom(w, id, order, k + 1);
        assert FirstFit(w.board, p, order, k) == FirstFit(w.board, p, order, k + 1);
        WalkFromIsFirstFit(w, id, order, k + 1);
      }
    }
  }

  /**
   * The random walk of an agent standing in its cell succeeds exactly when
   * the board has more than one cell, and then it is one move to a
   * neighbouring cell: the first drawn direction that stays on the board.
   */
  lemma RandomWalkMovesOnce(w: World, id: nat, order: seq<Pos>)
    requires Shaped(w) && id < |w.agents| && IsShuffle(order)
    requires Ant(id) in w.board.At(w.agents[id].pos)
    ensures RandomWalk(w, id, order).Ok? <==> w.board.n * w.board.m > 1
    ensures RandomWalk(w, id, order).Ok? ==>
      var p := w.agents[id].pos;
      var ff := FirstFit(w.board, p, order, 0);
      && ff.Some? && Shift(p, order[ff.value]) != p
      && RandomWalk(w, id, order) == Relocate(w, id, Shift(p, order[ff.value]))
  {
    WalkFromIsFirstFit(w, id, order, 0);
    WalkFindsMove(w.board, w.agents[id].pos, order);
    var ff := FirstFit(w.board, w.agents[id].pos, order, 0);
    if ff.Some? {
      DirectionsAreNeighbours(order[ff.value]);
    }
  }

  /** On a board of more than one cell the walk is one move to a neighbouring cell. */
  lemma RandomWalkTarget(w: World, id: nat, order: seq<Pos>) returns (t: Pos)
    requires Shaped(w) && id < |w.agents| && IsShuffle(order) && w.board.n * w.board.m > 1
    requires Ant(id) in w.board.At(w.agents[id].pos)
    ensures w.board.InBounds(t) && t != w.agents[id].pos
    ensures RandomWalk(w, id, order) == Relocate(w, id, t)
  {
    var p := w.agents[id].pos;
    WalkFindsMove(w.board, p, order);
    var ff := FirstFit(w.board, p, order, 0);
    WalkFromIsFirstFit(w, id, order, 0);
    var k := ff.value;
    DirectionsAreNeighbours(order[k]);
    t := Shift(p, order[k]);
  }

  /** On a board of more than one cell the walk keeps the invariant and moves no object. */
  lemma RandomWalkKeeps(w: World, id: nat, order: seq<Pos>)
    requires Inv(w) && id < |w.agents| && IsShuffle(order) && w.board.n * w.board.m > 1
    ensures RandomWalk(w, id, order).Ok?
    ensures Inv(RandomWalk(w, id, order).value)
    ensures forall it :: Stock(RandomWalk(w, id, order).value, it) == Stock(w, it)
  {
    var p := w.agents[id].pos;
    assert multiset(w.board.cells[w.board.Index(p)])[Ant(id)] == 1;
    var t := RandomWalkTarget(w, id, order);
    RelocateKeeps(w, id, t);
  }

  /** Picking up with an empty backpack keeps the invariant; the object moves from the cell to the backpack. */
  lemma PickUpKeeps(w: World, id: nat)
    requires Inv(w) && id < |w.agents| && |w.agents[id].memory| > 0 && w.agents[id].backpack.None?
    requires PickUp(w, id).Ok?
    ensures Inv(PickUp(w, id).value)
    ensures forall it :: Stock(PickUp(w, id).value, it) == Stock(w, it)
  {
    var g, p := w.board, w.agents[id].pos;
    var k := g.Index(p);
    var w' := PickUp(w, id).value;
    var c' := w'.board.At(p);
    assert w'.board.cells == g.cells[k := c'];
    forall c, id' | 0 <= c < |w'.board.cells| && 0 <= id' < |w'.agents|
      ensures multiset(w'.board.cells[c])[Ant(id')] == if c == w'.board.Index(w'.agents[id'].pos) then 1 else 0
    {
      if id' != id {
        assert w'.agents[id'] == w.agents[id'];
      }
    }
    forall c | 0 <= c < |w'.board.cells|
      ensures ObjectCount(w'.board.cells[c]) <= ObjectCount(g.cells[c])
    {
    }
    assert w'.agents == w.agents[id := w'.agents[id]];
    forall it
      ensures Stock(w', it) == Stock(w, it)
    {
      TallyUpdate(g.cells, k, c', Obj(it));
      CarriedUpdate(w.agents, id, w'.agents[id], it);
    }
  }

  /** Dropping onto a cell without objects keeps the invariant; the object moves from the backpack to the cell. */
  lemma DropKeeps(w: World, id: nat)
    requires Inv(w) && id < |w.agents| && w.agents[id].backpack.Some?
    requires ObjectCount(w.board.At(w.agents[id].pos)) == 0
    ensures Inv(Drop(w, id))
    ensures forall it :: Stock(Drop(w, id), it) == Stock(w, it)
  {
    var g, p := w.board, w.agents[id].pos;
    var k := g.Index(p);
    var w' := Drop(w, id);
    var c' := g.At(p) + [Obj(w.agents[id].backpack.value)];
    assert multiset(c') == multiset(g.At(p)) + multiset{Obj(w.agents[id].backpack.value)};
    assert w'.board.cells == g.cells[k := c'];
    forall c, id' | 0 <= c < |w'.board.cells| && 0 <= id' < |w'.agents|
      ensures multiset(w'.board.cells[c])[Ant(id')] == if c == w'.board.Index(w'.agents[id'].pos) then 1 else 0
    {
      if id' != id {
        assert w'.agents[id'] == w.agents[id'];
      }
    }
    assert w'.agents == w.agents[id := w'.agents[id]];
    forall it
      ensures Stock(w', it) == Stock(w, it)
    {
      TallyUpdate(g.cells, k, c', Obj(it));
      CarriedUpdate(w.agents, id, w'.agents[id], it);
    }
  }

  /**
   * The exchange right after `perceive` (the memory's head is the symbol of
   * the agent's cell) never fails, keeps the invariant and conserves objects.
   */
  lemma ExchangeKeeps(w: World, id: nat, dr: Draws)
    requires Inv(w) && id < |w.agents| && |w.agents[id].memory| > 0
    requires Ok(w.agents[id].memory[0]) == TileContent(w.board.At(w.agents[id].pos))
    ensures Exchange(w, id, dr).Ok?
    ensures Inv(Exchange(w, id, dr).value)
    ensures forall it :: Stock(Exchange(w, id, dr).value, it) == Stock(w, it)
  {
    var a := w.agents[id];
    var cell := w.board.At(a.pos);
    var f := LocalDensity(w.variant, a.memory);
    SparseCellReads(cell);
    KindsOf(cell);
    if a.memory[0] != Bare && a.backpack.None? && dr.pick < PickUpChance(f) {
      assert Obj(a.memory[0].item) in cell;
      PickUpKeeps(w, id);
      var w1 := PickUp(w, id).value;
      assert Exchange(w, id, dr) == Ok(w1);
    } else if a.backpack.Some? && a.memory[0] == Bare && dr.drop < DropChance(f) {
      DropKeeps(w, id);
      assert Exchange(w, id, dr) == Ok(Drop(w, id));
    } else {
      assert Exchange(w, id, dr) == Ok(w);
    }
  }

  /**
   * An `action` right after `perceive` never fails on a board of more than
   * one cell, keeps the invariant and conserves objects.
   */
  lemma ActionKeeps(w: World, id: nat, dr: Draws)
    requires Inv(w) && id < |w.agents| && IsShuffle(dr.order) && w.board.n * w.board.m > 1
    requires |w.agents[id].memory| > 0
    requires Ok(w.agents[id].memory[0]) == TileContent(w.board.At(w.agents[id].pos))
    ensures Action(w, id, dr).Ok?
    ensures Inv(Action(w, id, dr).value)
    ensures forall it :: Stock(Action(w, id, dr).value, it) == Stock(w, it)
  {
    ExchangeKeeps(w, id, dr);
    var w1 := Exchange(w, id, dr).value;
    assert w1.board.n == w.board.n && w1.board.m == w.board.m;
    assert Action(w, id, dr) == RandomWalk(w1, id, dr.order);
    RandomWalkKeeps(w1, id, dr.order);
  }

  /** One agent's turn keeps the invariant, never fails on it, and conserves objects. */
  lemma TickKeeps(w: World, id: nat, dr: Draws)
    requires Inv(w) && id < |w.agents| && IsShuffle(dr.order) && w.board.n * w.board.m > 1
    ensures Tick(w, id, dr).Ok?
    ensures Inv(Tick(w, id, dr).value)
    ensures forall it :: Stock(Tick(w, id, dr).value, it) == Stock(w, it)
  {
    PerceiveKeeps(w, id);
    ActionKeeps(Perceive(w, id).value, id, dr);
  }

  /** The rest of a `step` keeps the invariant, never fails on it, and conserves objects. */
  lemma {:induction false} RunKeeps(w: World, draws: seq<Draws>, k: nat)
    requires Inv(w) && |draws| == |w.agents| && k <= |w.agents| && Shuffles(draws)
    requires w.board.n * w.board.m > 1
    decreases |w.agents| - k
    ensures Run(w, draws, k).Ok?
    ensures Inv(Run(w, draws, k).value)
    ensures forall it :: Stock(Run(w, draws, k).value, it) == Stock(w, it)
  {
    if k < |w.agents| {
      TickKeeps(w, k, draws[k]);
      var w1 := Tick(w, k, draws[k]).value;
      assert w1.board.n == w.board.n && w1.board.m == w.board.m;
      assert Run(w, draws, k) == Run(w1, draws, k + 1);
      RunKeeps(w1, draws, k + 1);
    }
  }

  /**
   * A whole `step` on a board of more than one cell: no exception is ever
   * raised, no cell ever holds two objects, every memory stays within ten
   * symbols, and the objects of each kind on the board and in backpacks
   * stay as many as before.
   */
  lemma StepKeeps(w: World, draws: seq<Draws>)
    requires Inv(w) && |draws| == |w.agents| && Shuffles(draws)
    requires w.board.n * w.board.m > 1
    ensures Step(w, draws).Ok?
    ensures Inv(Step(w, draws).value)
    ensures forall it :: Stock(Step(w, draws).value, it) == Stock(w, it)
  {
    RunKeeps(w, draws, 0);
  }

  /**
   * The initial scattering leaves at most one object on every cell: the
   * objects are dealt one tile per cell onto the empty board, and the agents
   * dealt after them bring no object.
   */
  lemma ScatterSparse(g: Grid<Occupant>, objects: seq<Option<Occupant>>, ants: seq<Option<Occupant>>, p1: seq<nat>, p2: seq<nat>)
    requires g.Valid() && |p1| == |g.cells| && |p2| == |g.cells|
    requires forall c | 0 <= c < |g.cells| :: g.cells[c] == []
    requires forall x | x in ants :: x.None? || x.value.Ant?
    requires AddToBoard(g, objects, p1).Ok?
    requires AddToBoard(AddToBoard(g, objects, p1).value.0, ants, p2).Ok?
    ensures
      var g' := AddToBoard(AddToBoard(g, objects, p1).value.0, ants, p2).value.0;
      forall c | 0 <= c < |g'.cells| :: ObjectCount(g'.cells[c]) <= 1
  {
    var (g1, d1) := AddToBoard(g, objects, p1).value;
    var (g2, d2) := AddToBoard(g1, ants, p2).value;
    forall c | 0 <= c < |g2.cells|
      ensures ObjectCount(g2.cells[c]) <= 1
    {
      assert d2[c] in multiset(ants);
      assert g2.cells[c] == [] + Put(d1[c]) + Put(d2[c]);
      TwoTiles(d1[c], d2[c]);
    }
  }

  /** A cell holding one tile of any kind and one agent tile holds at most one object. */
  lemma TwoTiles(first: Option<Occupant>, second: Option<Occupant>)
    requires second.None? || second.value.Ant?
    ensures ObjectCount([] + Put(first) + Put(second)) <= 1
  {
    var cell := [] + Put(first) + Put(second);
    assert multiset(cell) == multiset(Put(first)) + multiset(Put(second));
    Seqs.TwoCountsBounded(Put(first), Obj(A), Obj(B));
  }
}
