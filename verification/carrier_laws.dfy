/**
 * What the cooperative-transport variant keeps true through every turn that
 * completes: every agent stands once in the cell its position names, no
 * cell holds two kinds of object (so `get_tile_content` never raises),
 * memories stay within 25 entries, no pheromone is stronger than at birth,
 * and objects of each kind are neither created nor destroyed.
 */
module CarrierLaws {
  import opened Results
  import opened Grids
  import opened Walks
  import opened Response
  import opened Transport
  import opened Carrier
  import TransportLaws
  import Seqs

  /** Each agent occurs once in the cell its position names and in no other cell. */
  predicate Located(w: World)
    requires Shaped(w)
  {
    forall c, id | 0 <= c < |w.board.cells| && 0 <= id < |w.agents| ::
      multiset(w.board.cells[c])[Ant(id)] == if c == w.board.Index(w.agents[id].pos) then 1 else 0
  }

  /** No cell holds objects of two kinds. */
  predicate OneKind(w: World)
  {
    forall c, x: Item, y: Item | 0 <= c < |w.board.cells| && Obj(x) in w.board.cells[c] && Obj(y) in w.board.cells[c] ::
      x == y
  }

  /** Every memory holds at most 25 entries. */
  predicate Capped(w: World)
  {
    forall id | 0 <= id < |w.agents| :: |w.agents[id].memory| <= MemoryCap
  }

  /** No pheromone is stronger than a fresh one. */
  predicate Bounded(w: World)
  {
    forall k | 0 <= k < |w.markers| :: w.markers[k].strength <= FullStrength
  }

  /** The invariant of a running transport simulation. */
  predicate Inv(w: World)
  {
    Shaped(w) && Located(w) && OneKind(w) && Capped(w) && Bounded(w)
  }

  /** How many agents carry an object of kind `it`. */
  function Carried(agents: seq<Agent>, it: Item): nat
  {
    if agents == [] then 0
    else (if agents[0].backpack == Some(it) then 1 else 0) + Carried(agents[1..], it)
  }

  /** Replacing one agent changes the count by that agent's difference only. */
  lemma {:induction false} CarriedUpdate(agents: seq<Agent>, k: nat, a: Agent, it: Item)
    requires k < |agents|
    ensures Carried(agents[k := a], it) + (if agents[k].backpack == Some(it) then 1 else 0)
         == Carried(agents, it) + (if a.backpack == Some(it) then 1 else 0)
  {
    if k > 0 {
      CarriedUpdate(agents[1..], k - 1, a, it);
      assert agents[k := a][1..] == agents[1..][k - 1 := a];
    }
  }

  /** Agents whose backpacks agree one by one carry as many objects of each kind. */
  lemma {:induction false} CarriedSame(agents: seq<Agent>, agents': seq<Agent>, it: Item)
    requires |agents'| == |agents|
    requires forall j | 0 <= j < |agents| :: agents'[j].backpack == agents[j].backpack
    ensures Carried(agents', it) == Carried(agents, it)
  {
    if agents != [] {
      forall j | 0 <= j < |agents[1..]|
        ensures agents'[1..][j].backpack == agents[1..][j].backpack
      {
        assert agents'[1..][j] == agents'[j + 1] && agents[1..][j] == agents[j + 1];
      }
      CarriedSame(agents[1..], agents'[1..], it);
    }
  }

  /** The objects of kind `it`, on the board and in backpacks together. */
  function Stock(w: World, it: Item): nat
  {
    Tally(w.board.cells, Obj(it)) + Carried(w.agents, it)
  }

  /** `r` failed, or it is a world that keeps the invariant and holds as many objects of each kind as `w`. */
  predicate Kept(w: World, r: Result<World>)
  {
    r.Ok? ==> Inv(r.value) && forall it :: Stock(r.value, it) == Stock(w, it)
  }

  /** Stepping on from a kept world by a step that keeps is a step that keeps. */
  lemma KeptTrans(w: World, w1: World, r: Result<World>)
    requires Kept(w, Ok(w1)) && Kept(w1, r)
    ensures Kept(w, r)
  {
  }

  /** An agent's record that differs at most in its flags: its position, memory and backpack are as before. */
  predicate Grounded(a': Agent, a: Agent)
  {
    a'.pos == a.pos && a'.memory == a.memory && a'.backpack == a.backpack
  }

  /**
   * Only pheromones and flags changed: every cell holds each object and
   * each agent as often as before, and every agent keeps its position,
   * memory and backpack.
   */
  ghost predicate Quiet(w: World, w': World)
  {
    && |w'.board.cells| == |w.board.cells| && |w'.agents| == |w.agents|
    && (forall c, x: Occupant | 0 <= c < |w.board.cells| && !x.Mark? :: multiset(w'.board.cells[c])[x] == multiset(w.board.cells[c])[x])
    && (forall j | 0 <= j < |w.agents| :: Grounded(w'.agents[j], w.agents[j]))
  }

  /** A quiet change leaves each object and each agent as often in each cell as before. */
  lemma QuietAt(w: World, w': World, c: int, x: Occupant)
    requires Quiet(w, w') && 0 <= c < |w.board.cells| && !x.Mark?
    ensures multiset(w'.board.cells[c])[x] == multiset(w.board.cells[c])[x]
  {
  }

  /** A quiet change that leaves no pheromone too strong keeps the invariant and every object. */
  lemma QuietKeeps(w: World, w': World)
    requires Inv(w) && SameFrame(w, w') && Quiet(w, w') && Bounded(w')
    ensures Kept(w, Ok(w'))
  {
    var g, g' := w.board, w'.board;
    forall c, id | 0 <= c < |g'.cells| && 0 <= id < |w'.agents|
      ensures multiset(g'.cells[c])[Ant(id)] == if c == g'.Index(w'.agents[id].pos) then 1 else 0
    {
      assert Grounded(w'.agents[id], w.agents[id]);
      QuietAt(w, w', c, Ant(id));
    }
    forall c, x: Item | 0 <= c < |g'.cells| && Obj(x) in g'.cells[c]
      ensures Obj(x) in g.cells[c]
    {
      QuietAt(w, w', c, Obj(x));
    }
    forall id | 0 <= id < |w'.agents|
      ensures |w'.agents[id].memory| <= MemoryCap
    {
      assert Grounded(w'.agents[id], w.agents[id]);
    }
    forall it
      ensures Stock(w', it) == Stock(w, it)
    {
      forall c | 0 <= c < |g.cells|
        ensures multiset(g'.cells[c])[Obj(it)] == multiset(g.cells[c])[Obj(it)]
      {
        QuietAt(w, w', c, Obj(it));
      }
      TallySame(g.cells, g'.cells, Obj(it));
      forall j | 0 <= j < |w.agents|
        ensures w'.agents[j].backpack == w.agents[j].backpack
      {
        assert Grounded(w'.agents[j], w.agents[j]);
      }
      CarriedSame(w.agents, w'.agents, it);
    }
  }

  /** Changing only an agent's flags (linked, waiting, pheromone) keeps the invariant and every object. */
  lemma FlagsKeep(w: World, id: nat, a: Agent)
    requires Inv(w) && id < |w.agents| && AgentShaped(ScopeOf(w), a) && Grounded(a, w.agents[id])
    ensures Kept(w, Ok(SetAgent(w, id, a)))
  {
    var w' := SetAgent(w, id, a);
    forall j | 0 <= j < |w.agents|
      ensures Grounded(w'.agents[j], w.agents[j])
    {
    }
    QuietKeeps(w, w');
  }

  /** Calling for help keeps the invariant and every object: it lays a fresh pheromone and sets flags. */
  lemma CallForHelpKeeps(w: World, id: nat)
    requires Inv(w) && id < |w.agents|
    ensures Kept(w, Ok(CallForHelp(w, id)))
  {
    var w' := CallForHelp(w, id);
    var cells := Spread(w.board.n, w.board.m, w.agents[id].pos, 0);
    var a := w.agents[id];
    LaidKeeps(w, w', Slots(w.board.m, cells), Marker(id, cells, FullStrength), a.(waiting := true, pheromone := Some(|w.markers|)), id);
  }

  /** Laying a fresh pheromone on some cells and setting an agent's flags keeps the invariant and every object. */
  lemma LaidKeeps(w: World, w': World, s: set<int>, m: Marker, a: Agent, id: nat)
    requires Inv(w) && SameFrame(w, w') && id < |w.agents| && Grounded(a, w.agents[id])
    requires forall c | 0 <= c < |w.board.cells| :: w'.board.cells[c] == w.board.cells[c] + (if c in s then [Mark(|w.markers|)] else [])
    requires w'.agents == w.agents[id := a] && w'.markers == w.markers + [m] && m.strength == FullStrength
    ensures Kept(w, Ok(w'))
  {
    MarkedQuietly(w.board.cells, w'.board.cells, s, |w.markers|);
    forall j | 0 <= j < |w.agents|
      ensures Grounded(w'.agents[j], w.agents[j])
    {
    }
    forall k | 0 <= k < |w'.markers|
      ensures w'.markers[k].strength <= FullStrength
    {
      if k < |w.markers| {
        assert w'.markers[k] == w.markers[k];
      }
    }
    QuietKeeps(w, w');
  }

  /** Adding a pheromone to some cells leaves each object and each agent as often in each cell as before. */
  lemma MarkedQuietly(cells: seq<seq<Occupant>>, cells': seq<seq<Occupant>>, s: set<int>, mk: nat)
    requires |cells'| == |cells|
    requires forall c | 0 <= c < |cells| :: cells'[c] == cells[c] + (if c in s then [Mark(mk)] else [])
    ensures forall c, x: Occupant | 0 <= c < |cells| && !x.Mark? :: multiset(cells'[c])[x] == multiset(cells[c])[x]
  {
    forall c, x: Occupant | 0 <= c < |cells| && !x.Mark?
      ensures multiset(cells'[c])[x] == multiset(cells[c])[x]
    {
      var extra := if c in s then [Mark(mk)] else [];
      assert multiset(cells'[c]) == multiset(cells[c]) + multiset(extra);
    }
  }

  /** Destroying a pheromone keeps the invariant and every object. */
  lemma DestroyKeeps(w: World, mk: nat)
    requires Inv(w) && mk < |w.markers|
    ensures Kept(w, Destroy(w, mk))
  {
    if Destroy(w, mk).Ok? {
      var w' := Destroy(w, mk).value;
      forall c, x: Occupant | 0 <= c < |w.board.cells| && !x.Mark?
        ensures multiset(w'.board.cells[c])[x] == multiset(w.board.cells[c])[x]
      {
        Seqs.RemoveFirstOthers(w.board.cells[c], Mark(mk), x);
      }
      QuietKeeps(w, w');
    }
  }

  /** Weakening a pheromone keeps the invariant and every object. */
  lemma WeakenKeeps(w: World, mk: nat)
    requires Inv(w) && mk < |w.markers|
    ensures Kept(w, Ok(Weaken(w, mk)))
  {
    var w' := Weaken(w, mk);
    forall j | 0 <= j < |w.agents|
      ensures Grounded(w'.agents[j], w.agents[j])
    {
    }
    QuietKeeps(w, w');
  }

  /** Moving occupant `y` from cell `kp` to the end of cell `kt` changes only the counts of `y`, by one in each of the two cells. */
  lemma ShiftCounts(cells: seq<seq<Occupant>>, cells': seq<seq<Occupant>>, kp: nat, kt: nat, y: Occupant)
    requires kp < |cells| && kt < |cells| && y in cells[kp]
    requires var left := cells[kp := Seqs.RemoveFirst(cells[kp], y)];
      cells' == left[kt := left[kt] + [y]]
    ensures |cells'| == |cells|
    ensures forall c, x | 0 <= c < |cells| && x != y :: multiset(cells'[c])[x] == multiset(cells[c])[x]
    ensures forall c | 0 <= c < |cells| ::
      multiset(cells'[c])[y] == multiset(cells[c])[y] - (if c == kp then 1 else 0) + (if c == kt then 1 else 0)
  {
    var left := cells[kp := Seqs.RemoveFirst(cells[kp], y)];
    Seqs.RemoveFirstCount(cells[kp], y);
    forall c, x | 0 <= c < |cells| && x != y
      ensures multiset(cells'[c])[x] == multiset(cells[c])[x]
    {
      Seqs.RemoveFirstOthers(cells[kp], y, x);
      assert multiset(left[kt] + [y]) == multiset(left[kt]) + multiset{y};
    }
    assert multiset(left[kt] + [y]) == multiset(left[kt]) + multiset{y};
  }

  /** An agent that leaves its cell for the end of cell `t` keeps the invariant and every object in place. */
  lemma MovedKeeps(w: World, w': World, id: nat, t: Pos)
    requires Inv(w) && SameFrame(w, w') && id < |w.agents| && w.board.InBounds(t)
    requires Ant(id) in w.board.At(w.agents[id].pos)
    requires w'.markers == w.markers && w'.agents == w.agents[id := w.agents[id].(pos := t)]
    requires
      var g, p := w.board, w.agents[id].pos;
      var left := g.cells[g.Index(p) := Seqs.RemoveFirst(g.At(p), Ant(id))];
      w'.board.cells == left[g.Index(t) := left[g.Index(t)] + [Ant(id)]]
    ensures Kept(w, Ok(w'))
  {
    var g, g', p := w.board, w'.board, w.agents[id].pos;
    ShiftCounts(g.cells, g'.cells, g.Index(p), g.Index(t), Ant(id));
    MovedLocated(w, w', id, t);
    SettledKeeps(w, w');
  }

  /**
   * A located world whose cells hold each object kind as often as before,
   * whose agents keep their memories and backpacks, and whose pheromones
   * are no stronger than fresh ones, keeps the invariant and every object.
   */
  lemma SettledKeeps(w: World, w': World)
    requires Inv(w) && SameFrame(w, w') && Located(w') && Bounded(w')
    requires forall c, it: Item | 0 <= c < |w.board.cells| :: multiset(w'.board.cells[c])[Obj(it)] == multiset(w.board.cells[c])[Obj(it)]
    requires forall j | 0 <= j < |w.agents| :: w'.agents[j].memory == w.agents[j].memory && w'.agents[j].backpack == w.agents[j].backpack
    ensures Kept(w, Ok(w'))
  {
    var g, g' := w.board, w'.board;
    forall c, x: Item | 0 <= c < |g'.cells| && Obj(x) in g'.cells[c]
      ensures Obj(x) in g.cells[c]
    {
      assert multiset(g'.cells[c])[Obj(x)] == multiset(g.cells[c])[Obj(x)];
    }
    forall it
      ensures Stock(w', it) == Stock(w, it)
    {
      TallySame(g.cells, g'.cells, Obj(it));
      CarriedSame(w.agents, w'.agents, it);
    }
  }

  /** After a move every agent still stands once in the cell its position names. */
  lemma MovedLocated(w: World, w': World, id: nat, t: Pos)
    requires Shaped(w) && Located(w) && SameFrame(w, w') && id < |w.agents| && w.board.InBounds(t)
    requires w'.agents == w.agents[id := w.agents[id].(pos := t)]
    requires
      var g, kp := w.board, w.board.Index(w.agents[id].pos);
      && (forall c, x | 0 <= c < |g.cells| && x != Ant(id) :: multiset(w'.board.cells[c])[x] == multiset(g.cells[c])[x])
      && (forall c | 0 <= c < |g.cells| ::
            multiset(w'.board.cells[c])[Ant(id)] == multiset(g.cells[c])[Ant(id)] - (if c == kp then 1 else 0) + (if c == g.Index(t) then 1 else 0))
    ensures Located(w')
  {
    var g, g' := w.board, w'.board;
    assert g'.Index(t) == g.Index(t);
    forall c, j | 0 <= c < |g'.cells| && 0 <= j < |w'.agents|
      ensures multiset(g'.cells[c])[Ant(j)] == if c == g'.Index(w'.agents[j].pos) then 1 else 0
    {
      assert multiset(g.cells[c])[Ant(j)] == if c == g.Index(w.agents[j].pos) then 1 else 0;
    }
  }

  /** A move that succeeds keeps the invariant and every object in place. */
  lemma MoveToKeeps(w: World, id: nat, t: Pos)
    requires Inv(w) && id < |w.agents| && w.board.InBounds(t)
    ensures Kept(w, MoveTo(w, id, t))
  {
    if MoveTo(w, id, t).Ok? {
      MovedKeeps(w, MoveTo(w, id, t).value, id, t);
    }
  }

  /**
   * Replacing the agent's cell and its backpack together keeps the
   * invariant and every object, when agents and pheromones stay where they
   * were, the new cell holds one kind of object at most, and each object
   * that leaves the cell enters the backpack or the other way round.
   */
  lemma ExchangedKeeps(w: World, w': World, id: nat, cell: seq<Occupant>, b: Option<Item>)
    requires Inv(w) && SameFrame(w, w') && id < |w.agents|
    requires var k := w.board.Index(w.agents[id].pos);
      && w'.board.cells == w.board.cells[k := cell]
      && (forall x: Occupant | !x.Obj? :: multiset(cell)[x] == multiset(w.board.cells[k])[x])
      && (forall it: Item :: multiset(cell)[Obj(it)] + (if b == Some(it) then 1 else 0)
            == multiset(w.board.cells[k])[Obj(it)] + (if w.agents[id].backpack == Some(it) then 1 else 0))
    requires forall x: Item, y: Item | Obj(x) in cell && Obj(y) in cell :: x == y
    requires w'.markers == w.markers && w'.agents == w.agents[id := w.agents[id].(backpack := b)]
    ensures Kept(w, Ok(w'))
  {
    var g, g' := w.board, w'.board;
    var k := g.Index(w.agents[id].pos);
    forall c, j | 0 <= c < |g'.cells| && 0 <= j < |w'.agents|
      ensures multiset(g'.cells[c])[Ant(j)] == if c == g'.Index(w'.agents[j].pos) then 1 else 0
    {
      assert multiset(g.cells[c])[Ant(j)] == if c == g.Index(w.agents[j].pos) then 1 else 0;
    }
    forall c, x: Item, y: Item | 0 <= c < |g'.cells| && Obj(x) in g'.cells[c] && Obj(y) in g'.cells[c]
      ensures x == y
    {
      if c != k {
        assert Obj(x) in g.cells[c] && Obj(y) in g.cells[c];
      }
    }
    forall it
      ensures Stock(w', it) == Stock(w, it)
    {
      TallyUpdate(g.cells, k, cell, Obj(it));
      CarriedUpdate(w.agents, id, w'.agents[id], it);
    }
  }

  /** Picking up with an empty backpack keeps the invariant: the object moves from the cell to the backpack. */
  lemma PickUpKeeps(w: World, id: nat)
    requires Inv(w) && id < |w.agents| && w.agents[id].backpack.None?
    requires |w.agents[id].memory| > 0 && w.agents[id].memory[0].Saw?
    ensures Kept(w, PickUp(w, id))
  {
    if PickUp(w, id).Ok? {
      var a, g := w.agents[id], w.board;
      var k, it := g.Index(a.pos), a.memory[0].item;
      var cell := Seqs.RemoveFirst(g.cells[k], Obj(it));
      Seqs.RemoveFirstCount(g.cells[k], Obj(it));
      forall x: Occupant | x != Obj(it)
        ensures multiset(cell)[x] == multiset(g.cells[k])[x]
      {
        Seqs.RemoveFirstOthers(g.cells[k], Obj(it), x);
      }
      forall x: Item, y: Item | Obj(x) in cell && Obj(y) in cell
        ensures x == y
      {
        Seqs.RemoveFirstSubset(g.cells[k], Obj(it));
      }
      ExchangedKeeps(w, PickUp(w, id).value, id, cell, Some(it));
    }
  }

  /** Dropping onto a cell without objects keeps the invariant: the object moves from the backpack to the cell. */
  lemma DropKeeps(w: World, id: nat)
    requires Inv(w) && id < |w.agents| && w.agents[id].backpack.Some?
    requires forall it: Item :: Obj(it) !in w.board.At(w.agents[id].pos)
    ensures Kept(w, Ok(Drop(w, id)))
  {
    var a, g := w.agents[id], w.board;
    var k, it := g.Index(a.pos), a.backpack.value;
    var cell := g.cells[k] + [Obj(it)];
    assert multiset(cell) == multiset(g.cells[k]) + multiset{Obj(it)};
    forall x: Item | Obj(x) in cell
      ensures x == it
    {
      assert Obj(x) !in g.cells[k];
    }
    ExchangedKeeps(w, Drop(w, id), id, cell, None);
  }

  /** A step in one direction keeps the invariant and every object. */
  lemma MoveInDirectionKeeps(w: World, id: nat, d: Pos)
    requires Inv(w) && id < |w.agents| && d in Directions
    ensures var r := MoveInDirection(w, id, d);
      r.Ok? ==> Kept(w, Ok(r.value.0))
  {
    var t := Shift(w.agents[id].pos, d);
    if w.board.InBounds(t) {
      MoveToKeeps(w, id, t);
    }
  }

  /** The walk loop from the `k`-th drawn direction on keeps the invariant and every object. */
  lemma {:induction false} WalkFromKeeps(w: World, id: nat, order: seq<Pos>, k: nat)
    requires Inv(w) && id < |w.agents| && IsShuffle(order)
    decreases |order| - k
    ensures var r := WalkFrom(w, id, order, k);
      r.Ok? ==> Kept(w, Ok(r.value.0))
  {
    if k < |order| {
      assert order[k] in Directions;
      MoveInDirectionKeeps(w, id, order[k]);
      var step := MoveInDirection(w, id, order[k]);
      if step.Err? {
        assert WalkFrom(w, id, order, k).Err?;
      } else if step.value.1 {
        assert WalkFrom(w, id, order, k) == Ok((step.value.0, order[k]));
      } else {
        assert step.value.0 == w;
        WalkFromKeeps(w, id, order, k + 1);
        assert WalkFrom(w, id, order, k) == WalkFrom(w, id, order, k + 1);
      }
    }
  }

  /** `random_movement`, the partner dragged along or not, keeps the invariant and every object. */
  lemma RandomWalkKeeps(w: World, id: nat, order: seq<Pos>)
    requires Inv(w) && id < |w.agents| && IsShuffle(order)
    ensures Kept(w, RandomWalk(w, id, order))
  {
    WalkFromKeeps(w, id, order, 0);
    var step := WalkFrom(w, id, order, 0);
    if step.Ok? {
      var w1 := step.value.0;
      var a := w1.agents[id];
      if a.linked.Some? && a.backpack == Some(C) {
        MoveInDirectionKeeps(w1, a.linked.value, step.value.1);
      }
    }
  }

  /** The pick-up chance of a free agent keeps the invariant and every object. */
  lemma ChanceToPickUpKeeps(w: World, id: nat, u: real)
    requires Inv(w) && id < |w.agents| && |w.agents[id].memory| > 0 && w.agents[id].backpack.None?
    ensures Kept(w, ChanceToPickUp(w, id, u))
  {
    if w.agents[id].memory[0].Saw? {
      PickUpKeeps(w, id);
    }
  }

  /** The drop chance on a cell without objects keeps the invariant and every object. */
  lemma ChanceToDropKeeps(w: World, id: nat, u: real)
    requires Inv(w) && id < |w.agents| && |w.agents[id].memory| > 0
    requires forall it: Item :: Obj(it) !in w.board.At(w.agents[id].pos)
    ensures Kept(w, Ok(ChanceToDrop(w, id, u)))
  {
    if w.agents[id].backpack.Some? {
      DropKeeps(w, id);
    }
  }

  /** Answering a pheromone keeps the invariant and every object: flags, a destroyed pheromone and one move. */
  lemma LinkKeeps(w: World, id: nat, mk: nat)
    requires Inv(w) && id < |w.agents| && mk < |w.markers| && w.markers[mk].owner != id
    ensures Kept(w, Link(w, id, mk))
  {
    TransportLaws.LinkSteps(w, id, mk);
    var a, o := w.agents[id], w.markers[mk].owner;
    assert MarkerShaped(ScopeOf(w), w.markers[mk]);
    FlagsKeep(w, id, a.(linked := Some(o)));
    var w1 := SetAgent(w, id, a.(linked := Some(o)));
    DestroyKeeps(w1, mk);
    KeptTrans(w, w1, Destroy(w1, mk));
    if Destroy(w1, mk).Ok? {
      var w2 := Destroy(w1, mk).value;
      MoveToKeeps(w2, id, w2.agents[o].pos);
      KeptTrans(w, w2, MoveTo(w2, id, w2.agents[o].pos));
      if MoveTo(w2, id, w2.agents[o].pos).Ok? {
        var w3 := MoveTo(w2, id, w2.agents[o].pos).value;
        FlagsKeep(w3, o, w3.agents[o].(pheromone := None));
        KeptTrans(w, w3, Link(w, id, mk));
      }
    }
  }

  /** A free agent's answer to a pheromone keeps the invariant and every object. */
  lemma AnswerKeeps(w: World, id: nat, mk: nat, order: seq<Pos>)
    requires Inv(w) && id < |w.agents| && mk < |w.markers| && IsShuffle(order)
    ensures Kept(w, Answer(w, id, mk, order))
  {
    var o := w.markers[mk].owner;
    var d := Chebyshev(w.agents[id].pos, w.agents[o].pos);
    if d > 0 {
      if Attracted(w.markers[mk].strength, d) {
        LinkKeeps(w, id, mk);
      } else {
        RandomWalkKeeps(w, id, order);
      }
    }
  }

  /** The first step on C keeps the invariant and every object. */
  lemma SettleKeeps(w: World, id: nat, order: seq<Pos>)
    requires Inv(w) && id < |w.agents| && IsShuffle(order)
    ensures Kept(w, Settle(w, id, order))
  {
    if Free(w.agents[id]) {
      if !IsAgentWaiting(w, w.agents[id].pos) {
        CallForHelpKeeps(w, id);
      } else {
        RandomWalkKeeps(w, id, order);
      }
    }
  }

  /** The decay of a waiting agent's pheromone keeps the invariant and every object. */
  lemma DecayKeeps(w: World, id: nat, coin: real, order: seq<Pos>)
    requires Inv(w) && id < |w.agents| && IsShuffle(order)
    ensures Kept(w, Decay(w, id, coin, order))
  {
    var a := w.agents[id];
    if a.waiting && a.pheromone.Some? {
      var mk := a.pheromone.value;
      assert AgentShaped(ScopeOf(w), a);
      WeakenKeeps(w, mk);
      var w1 := Weaken(w, mk);
      if w1.markers[mk].strength == 0 {
        DestroyKeeps(w1, mk);
        KeptTrans(w, w1, Destroy(w1, mk));
        if Destroy(w1, mk).Ok? {
          var w2 := Destroy(w1, mk).value;
          if coin < GiveUp {
            var a' := a.(waiting := false, pheromone := None);
            FlagsKeep(w2, id, a');
            var w3 := SetAgent(w2, id, a');
            KeptTrans(w, w2, Ok(w3));
            RandomWalkKeeps(w3, id, order);
            KeptTrans(w, w3, RandomWalk(w3, id, order));
          } else {
            CallForHelpKeeps(w2, id);
            KeptTrans(w, w2, Ok(CallForHelp(w2, id)));
          }
        }
      }
    }
  }

  /** Lifting a C with a partner keeps the invariant and every object. */
  lemma LiftKeeps(w: World, id: nat, order: seq<Pos>)
    requires Inv(w) && id < |w.agents| && IsShuffle(order)
    requires |w.agents[id].memory| > 0 && w.agents[id].memory[0].Saw?
    ensures Kept(w, Lift(w, id, order))
  {
    var a := w.agents[id];
    if a.linked.Some? && a.backpack.None? {
      PickUpKeeps(w, id);
      if PickUp(w, id).Ok? {
        var w1 := PickUp(w, id).value;
        RandomWalkKeeps(w1, id, order);
        KeptTrans(w, w1, RandomWalk(w1, id, order));
      }
    }
  }

  /** `action` on A or B keeps the invariant and every object. */
  lemma OnLightKeeps(w: World, id: nat, dr: Draws)
    requires Inv(w) && id < |w.agents| && Drawable(dr) && |w.agents[id].memory| > 0
    ensures Kept(w, OnLight(w, id, dr))
  {
    var a := w.agents[id];
    if Free(a) {
      ChanceToPickUpKeeps(w, id, dr.pick);
      if ChanceToPickUp(w, id, dr.pick).Ok? {
        var w1 := ChanceToPickUp(w, id, dr.pick).value;
        RandomWalkKeeps(w1, id, dr.walks[0]);
        KeptTrans(w, w1, RandomWalk(w1, id, dr.walks[0]));
      }
    } else if !a.waiting {
      RandomWalkKeeps(w, id, dr.walks[0]);
    }
  }

  /** `action` on a pheromone keeps the invariant and every object. */
  lemma OnScentKeeps(w: World, id: nat, mk: nat, dr: Draws)
    requires Inv(w) && id < |w.agents| && mk < |w.markers| && Drawable(dr)
    ensures Kept(w, OnScent(w, id, mk, dr))
  {
    var r1 := if Free(w.agents[id]) then Answer(w, id, mk, dr.walks[0]) else Ok(w);
    if Free(w.agents[id]) {
      AnswerKeeps(w, id, mk, dr.walks[0]);
    }
    if r1.Ok? {
      var w1 := r1.value;
      if w1.agents[id].backpack.Some? {
        RandomWalkKeeps(w1, id, dr.walks[1]);
        KeptTrans(w, w1, RandomWalk(w1, id, dr.walks[1]));
      }
    }
  }

  /** `action` on C keeps the invariant and every object, through its four steps. */
  lemma OnHeavyKeeps(w: World, id: nat, dr: Draws)
    requires Inv(w) && id < |w.agents| && Drawable(dr)
    requires |w.agents[id].memory| > 0 && w.agents[id].memory[0] == Saw(C)
    ensures Kept(w, OnHeavy(w, id, dr))
  {
    SettleKeeps(w, id, dr.walks[0]);
    var r1 := Settle(w, id, dr.walks[0]);
    if r1.Ok? {
      var w1 := r1.value;
      DecayKeeps(w1, id, dr.coin, dr.walks[1]);
      KeptTrans(w, w1, Decay(w1, id, dr.coin, dr.walks[1]));
      var r2 := Decay(w1, id, dr.coin, dr.walks[1]);
      if r2.Ok? {
        var w2 := r2.value;
        LiftKeeps(w2, id, dr.walks[2]);
        KeptTrans(w, w2, Lift(w2, id, dr.walks[2]));
        var r3 := Lift(w2, id, dr.walks[2]);
        if r3.Ok? {
          var w3 := r3.value;
          RandomWalkKeeps(w3, id, dr.walks[3]);
          KeptTrans(w, w3, RandomWalk(w3, id, dr.walks[3]));
        }
      }
    }
  }

  /** Releasing the partner keeps the invariant and every object. */
  lemma ReleaseKeeps(w: World, id: nat, order: seq<Pos>)
    requires Inv(w) && id < |w.agents| && IsShuffle(order)
    ensures Kept(w, Release(w, id, order))
  {
    var a := w.agents[id];
    if a.linked.Some? {
      var q := a.linked.value;
      assert AgentShaped(ScopeOf(w), a);
      FlagsKeep(w, q, w.agents[q].(waiting := false));
      var w1 := SetAgent(w, q, w.agents[q].(waiting := false));
      RandomWalkKeeps(w1, q, order);
      KeptTrans(w, w1, RandomWalk(w1, q, order));
      if RandomWalk(w1, q, order).Ok? {
        var w2 := RandomWalk(w1, q, order).value;
        FlagsKeep(w2, id, w2.agents[id].(linked := None));
        KeptTrans(w, w2, Release(w, id, order));
      }
    }
  }

  /** `action` on a cell without objects keeps the invariant and every object. */
  lemma OnBareKeeps(w: World, id: nat, dr: Draws)
    requires Inv(w) && id < |w.agents| && Drawable(dr) && |w.agents[id].memory| > 0
    requires forall it: Item :: Obj(it) !in w.board.At(w.agents[id].pos)
    ensures Kept(w, OnBare(w, id, dr))
  {
    var a := w.agents[id];
    if a.backpack == Some(C) {
      var r2 := DropReleaseKeeps(w, id, dr);
      if r2.Ok? {
        RandomWalkKeeps(r2.value, id, dr.walks[0]);
        KeptTrans(w, r2.value, RandomWalk(r2.value, id, dr.walks[0]));
        assert OnBare(w, id, dr) == RandomWalk(r2.value, id, dr.walks[0]);
      } else {
        assert OnBare(w, id, dr).Err?;
      }
    } else if a.backpack.Some? {
      assert a.backpack == Some(a.backpack.value) && a.backpack.value != C;
      assert a.backpack == Some(A) || a.backpack == Some(B);
      ChanceToDropKeeps(w, id, dr.drop);
      var w1 := ChanceToDrop(w, id, dr.drop);
      RandomWalkKeeps(w1, id, dr.walks[0]);
      KeptTrans(w, w1, RandomWalk(w1, id, dr.walks[0]));
      assert OnBare(w, id, dr) == RandomWalk(w1, id, dr.walks[0]);
    } else if !a.waiting {
      RandomWalkKeeps(w, id, dr.walks[0]);
      assert OnBare(w, id, dr) == RandomWalk(w, id, dr.walks[0]);
    } else {
      assert OnBare(w, id, dr) == Ok(w);
    }
  }

  /** A carrier of C on a cell without objects may drop it and release its partner, keeping the invariant and every object. */
  lemma DropReleaseKeeps(w: World, id: nat, dr: Draws) returns (r2: Result<World>)
    requires Inv(w) && id < |w.agents| && Drawable(dr) && |w.agents[id].memory| > 0
    requires forall it: Item :: Obj(it) !in w.board.At(w.agents[id].pos)
    ensures var w1 := ChanceToDrop(w, id, dr.drop);
      r2 == if w1.agents[id].backpack.None? then Release(w1, id, dr.walks[1]) else Ok(w1)
    ensures Kept(w, r2) && (r2.Ok? ==> SameFrame(w, r2.value))
  {
    ChanceToDropKeeps(w, id, dr.drop);
    var w1 := ChanceToDrop(w, id, dr.drop);
    if w1.agents[id].backpack.None? {
      ReleaseKeeps(w1, id, dr.walks[1]);
      KeptTrans(w, w1, Release(w1, id, dr.walks[1]));
      r2 := Release(w1, id, dr.walks[1]);
    } else {
      r2 := Ok(w1);
    }
  }

  /**
   * `action` keeps the invariant and every object, when a most recent
   * reading of '0' means the agent's cell holds no object, as it does
   * right after `perceive`.
   */
  lemma ActionKeeps(w: World, id: nat, dr: Draws)
    requires Inv(w) && id < |w.agents| && Drawable(dr)
    requires |w.agents[id].memory| > 0 && w.agents[id].memory[0] == Bare ==>
      forall it: Item :: Obj(it) !in w.board.At(w.agents[id].pos)
    ensures Kept(w, Action(w, id, dr))
  {
    var a := w.agents[id];
    if |a.memory| > 0 {
      match a.memory[0]
      case Saw(it) =>
        if it == C {
          OnHeavyKeeps(w, id, dr);
        } else {
          OnLightKeeps(w, id, dr);
        }
      case Scent(mk) =>
        assert AgentShaped(ScopeOf(w), a) && a.memory[0] in a.memory;
        OnScentKeeps(w, id, mk, dr);
      case Bare =>
        OnBareKeeps(w, id, dr);
    }
  }

  /**
   * `perceive` never raises on a world keeping the invariant, keeps it and
   * every object, and leaves a most recent reading of '0' only on a cell
   * without objects.
   */
  lemma PerceiveKeeps(w: World, id: nat)
    requires Inv(w) && id < |w.agents|
    ensures Perceive(w, id).Ok?
    ensures Kept(w, Perceive(w, id))
    ensures var a := Perceive(w, id).value.agents[id];
      && |a.memory| > 0
      && (a.memory[0] == Bare ==> forall it: Item :: Obj(it) !in w.board.At(a.pos))
  {
    var a, cell := w.agents[id], w.board.At(w.agents[id].pos);
    assert !(exists x: Item, y: Item :: x != y && Obj(x) in cell && Obj(y) in cell);
    var w' := Perceive(w, id).value;
    assert multiset(cell)[Ant(id)] == 1;
    TransportLaws.PerceiveBounded(w, id);
    forall c, j | 0 <= c < |w'.board.cells| && 0 <= j < |w'.agents|
      ensures multiset(w'.board.cells[c])[Ant(j)] == if c == w'.board.Index(w'.agents[j].pos) then 1 else 0
    {
      assert w'.agents[j].pos == w.agents[j].pos;
    }
    forall it
      ensures Stock(w', it) == Stock(w, it)
    {
      CarriedSame(w.agents, w'.agents, it);
    }
  }

  /**
   * One agent's turn keeps the invariant and every object: `perceive`
   * never raises, and when `action` completes the world it leaves keeps
   * the invariant and holds as many objects of each kind.
   */
  lemma TickKeeps(w: World, id: nat, dr: Draws)
    requires Inv(w) && id < |w.agents| && Drawable(dr)
    ensures Perceive(w, id).Ok?
    ensures Kept(w, Tick(w, id, dr))
  {
    PerceiveKeeps(w, id);
    var w1 := Perceive(w, id).value;
    ActionKeeps(w1, id, dr);
    KeptTrans(w, w1, Action(w1, id, dr));
  }

  /** The rest of a `step` keeps the invariant and every object. */
  lemma {:induction false} RunKeeps(w: World, draws: seq<Draws>, k: nat)
    requires Inv(w) && |draws| == |w.agents|
    requires forall j | 0 <= j < |draws| :: Drawable(draws[j])
    decreases |w.agents| - k
    ensures Kept(w, Run(w, draws, k))
  {
    if k < |w.agents| {
      var r1 := Tick(w, k, draws[k]);
      TickKeeps(w, k, draws[k]);
      RunUnfold(w, draws, k, r1);
      if r1.Ok? {
        RunKeeps(r1.value, draws, k + 1);
        KeptChain(w, r1, Run(w, draws, k), Run(r1.value, draws, k + 1));
      } else {
        KeptChain(w, r1, Run(w, draws, k), r1);
      }
    }
  }

  /** A failed first step fails the run; a kept first step followed by a kept rest keeps. */
  lemma KeptChain(w: World, r1: Result<World>, r: Result<World>, rest: Result<World>)
    requires Kept(w, r1)
    requires r1.Ok? ==> r == rest && Kept(r1.value, rest)
    requires r1.Err? ==> r.Err?
    ensures Kept(w, r)
  {
  }

  /** `Run` at an agent still to move is that agent's tick followed by the rest. */
  lemma RunUnfold(w: World, draws: seq<Draws>, k: nat, r1: Result<World>)
    requires Shaped(w) && |draws| == |w.agents| && k < |w.agents|
    requires forall j | 0 <= j < |draws| :: Drawable(draws[j])
    requires r1 == Tick(w, k, draws[k])
    ensures r1.Ok? ==> |draws| == |r1.value.agents| && Run(w, draws, k) == Run(r1.value, draws, k + 1)
    ensures r1.Err? ==> Run(w, draws, k).Err?
  {
  }

  /**
   * A whole `step` of the transport simulation: when it completes, every
   * agent stands once in its cell, no cell holds two kinds of object, every
   * memory stays within 25 entries, no pheromone is stronger than a fresh
   * one, and the objects of each kind on the board and in backpacks stay as
   * many as before.
   */
  lemma StepKeeps(w: World, draws: seq<Draws>)
    requires Inv(w) && |draws| == |w.agents|
    requires forall j | 0 <= j < |draws| :: Drawable(draws[j])
    ensures Kept(w, Step(w, draws))
  {
    RunKeeps(w, draws, 0);
  }

  /**
   * In every world keeping the invariant, an agent one or two cells from a
   * pheromone's owner answers only from two cells away and only while the
   * pheromone's strength is at least 75.
   */
  lemma AnswerRange(w: World, mk: nat, d: nat)
    requires Inv(w) && mk < |w.markers| && 0 < d <= Diffusion
    ensures Attracted(w.markers[mk].strength, d) <==> d == Diffusion && w.markers[mk].strength >= 75
  {
    TransportLaws.AttractionRange(w.markers[mk].strength, d);
  }

  /**
   * `is_agent_waiting` on a world keeping the invariant: some agent in the
   * cell waits exactly when some waiting agent's recorded position is that
   * cell.
   */
  lemma WaitingHere(w: World, p: Pos)
    requires Inv(w) && w.board.InBounds(p)
    ensures IsAgentWaiting(w, p) <==> exists id | 0 <= id < |w.agents| :: w.agents[id].pos == p && w.agents[id].waiting
  {
    var c := w.board.Index(p);
    NamedAt(w, p);
    if IsAgentWaiting(w, p) {
      var x :| x in w.board.At(p) && x.Ant? && w.agents[x.id].waiting;
      assert multiset(w.board.cells[c])[Ant(x.id)] > 0;
      var q := w.agents[x.id].pos;
      assert c == w.board.Index(q);
      Grids.IndexInjective(w.board.m, p, q);
    }
    if exists id | 0 <= id < |w.agents| :: w.agents[id].pos == p && w.agents[id].waiting {
      var id :| 0 <= id < |w.agents| && w.agents[id].pos == p && w.agents[id].waiting;
      assert multiset(w.board.cells[c])[Ant(id)] == 1;
      assert Ant(id) in w.board.At(p);
    }
  }
}
