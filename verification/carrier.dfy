/**
 * The cooperative-transport variant, agent side: `perceive`, `action` and
 * the helpers `action` calls, and one pass of `step` over all agents.
 *
 * Randomness enters as draws. Each `random()` comparison reads a real of
 * `Draws`, and each `random_movement` call site draws its directions in an
 * order taken from `Draws.walks`: call sites that can run in the same
 * action read different orders, alternatives of one `if` may share one.
 */
module Carrier {
  import opened Results
  import opened Grids
  import opened Walks
  import opened Response
  import opened Transport
  import Seqs

  /** Agents keep the 25 most recent entries. */
  const MemoryCap: nat := 25
  /** `random() < 0.5`: a waiting agent whose pheromone has faded gives up with even chance. */
  const GiveUp: real := 0.5
  /** The pull of a pheromone is its strength less `Reach` over the distance to its owner. */
  const Reach: real := 100.0
  /** An agent answers a pheromone whose pull is at least this much. */
  const Threshold: real := 25.0

  /** The random draws of one `action`. */
  datatype Draws = Draws(pick: real, drop: real, coin: real, walks: seq<seq<Pos>>)

  /** Four orders, each a shuffle of the eight directions. */
  predicate Drawable(dr: Draws)
  {
    |dr.walks| == 4 && forall k | 0 <= k < 4 :: IsShuffle(dr.walks[k])
  }

  /** Neither carrying, nor linked, nor waiting: free to pick up, answer or call. */
  predicate Free(a: Agent)
  {
    a.backpack.None? && a.linked.None? && !a.waiting
  }

  /** An agent's record stays well-shaped when pheromones are added. */
  lemma Widen(s: Scope, s': Scope, a: Agent)
    requires AgentShaped(s, a)
    requires s'.n == s.n && s'.m == s.m && s'.agents == s.agents && s.markers <= s'.markers
    ensures AgentShaped(s', a)
  {
  }

  /** Every pheromone read off a cell lies in that cell. */
  lemma ContentNamed(w: World, p: Pos, content: seq<Sense>)
    requires Shaped(w) && w.board.InBounds(p) && TileContent(w.board.At(p)) == Ok(content)
    ensures forall e | e in content :: e.Scent? ==> e.mark < |w.markers|
  {
    NamedAt(w, p);
    forall e | e in content && e.Scent?
      ensures e.mark < |w.markers|
    {
      assert multiset(content)[Scent(e.mark)] > 0;
      assert Mark(e.mark) in multiset(w.board.At(p));
      assert Names(ScopeOf(w), Mark(e.mark));
    }
  }

  /**
   * `perceive`: prepends what the agent's cell reads as to its memory and
   * keeps the first 25 entries. It raises when two object kinds share the cell.
   */
  function Perceive(w: World, id: nat): (r: Result<World>)
    requires Shaped(w) && id < |w.agents|
    ensures r.Err? <==> TileContent(w.board.At(w.agents[id].pos)).Err?
    ensures r.Ok? ==>
      var a, content := w.agents[id], TileContent(w.board.At(w.agents[id].pos)).value;
      && SameFrame(w, r.value) && r.value.board == w.board && r.value.markers == w.markers
      && r.value.agents == w.agents[id := a.(memory := Seqs.Take(content + a.memory, MemoryCap))]
  {
    var a := w.agents[id];
    var content :- TileContent(w.board.At(a.pos));
    ContentNamed(w, a.pos, content);
    var memory := Seqs.Take(content + a.memory, MemoryCap);
    assert forall e | e in memory :: e in content + a.memory;
    Ok(SetAgent(w, id, a.(memory := memory)))
  }

  /** `compute_f(self.memory[0])`: the share of the memory equal to its most recent entry. */
  function Density(memory: seq<Sense>): (f: real)
    requires |memory| > 0
    ensures 0.0 < f <= 1.0
    ensures f * (|memory| as real) == multiset(memory)[memory[0]] as real
  {
    assert memory[0] in multiset(memory);
    Share(multiset(memory)[memory[0]], |memory|)
  }

  /** The density is one exactly when every entry of the memory equals the most recent one. */
  lemma DensityFull(memory: seq<Sense>)
    requires |memory| > 0
    ensures Density(memory) == 1.0 <==> forall e | e in memory :: e == memory[0]
  {
    Seqs.CountFull(memory, memory[0]);
    assert Density(memory) == 1.0 <==> multiset(memory)[memory[0]] == |memory|;
  }

  /**
   * `chance_to_pick_up_AB`: on a cell read as A, or as B with an empty
   * backpack, the agent picks up with probability `PickUpChance`.
   */
  function ChanceToPickUp(w: World, id: nat, u: real): (r: Result<World>)
    requires Shaped(w) && id < |w.agents| && |w.agents[id].memory| > 0
    ensures
      var a := w.agents[id];
      var taken := (a.memory[0] == Saw(A) || (a.memory[0] == Saw(B) && a.backpack.None?))
        && u < PickUpChance(Density(a.memory));
      && (!taken ==> r == Ok(w))
      && (taken ==> r == PickUp(w, id))
    ensures r.Ok? ==> SameFrame(w, r.value) && r.value.markers == w.markers
  {
    var a := w.agents[id];
    var f := Density(a.memory);
    if (a.memory[0] == Saw(A) || (a.memory[0] == Saw(B) && a.backpack.None?)) && u < PickUpChance(f) then
      PickUp(w, id)
    else
      Ok(w)
  }

  /**
   * `chance_to_drop`: with something in the backpack on a cell read as '0',
   * the agent drops it with probability `DropChance`.
   */
  function ChanceToDrop(w: World, id: nat, u: real): (r: World)
    requires Shaped(w) && id < |w.agents| && |w.agents[id].memory| > 0
    ensures
      var a := w.agents[id];
      var dropped := a.backpack.Some? && a.memory[0] == Bare && u < DropChance(Density(a.memory));
      && (!dropped ==> r == w)
      && (dropped ==> r == Drop(w, id))
    ensures SameFrame(w, r) && r.markers == w.markers
  {
    var a := w.agents[id];
    var f := Density(a.memory);
    if a.backpack.Some? && a.memory[0] == Bare && u < DropChance(f) then Drop(w, id) else w
  }

  /**
   * The loop of `random_movement` from the `k`-th drawn direction on: the
   * agent steps in the first direction that stays on the board, which is
   * returned with the new world.
   */
  function WalkFrom(w: World, id: nat, order: seq<Pos>, k: nat): (r: Result<(World, Pos)>)
    requires Shaped(w) && id < |w.agents| && IsShuffle(order)
    decreases |order| - k
    ensures r.Ok? ==> SameFrame(w, r.value.0) && r.value.0.markers == w.markers
    ensures r.Ok? ==>
      var a, ff := w.agents[id], FirstFit(w.board, w.agents[id].pos, order, k);
      && ff.Some? && r.value.1 == order[ff.value] && r.value.1 in Directions
      && r.value.0.agents == w.agents[id := a.(pos := Shift(a.pos, r.value.1))]
  {
    if k >= |order| then Err(NoDirectionLeft)
    else
      assert order[k] in Directions;
      var step :- MoveInDirection(w, id, order[k]);
      if step.1 then Ok((step.0, order[k])) else WalkFrom(w, id, order, k + 1)
  }

  /**
   * `random_movement`: the agent walks one step; when it is linked and
   * carries a C, its partner is then moved in the same direction, and
   * whether that move succeeds is ignored.
   */
  function RandomWalk(w: World, id: nat, order: seq<Pos>): (r: Result<World>)
    requires Shaped(w) && id < |w.agents| && IsShuffle(order)
    ensures r.Ok? ==> SameFrame(w, r.value) && r.value.markers == w.markers && OnlyMoves(w, r.value)
  {
    var step :- WalkFrom(w, id, order, 0);
    var w1 := step.0;
    var a := w1.agents[id];
    if a.linked.Some? && a.backpack == Some(C) then
      var dragged :- MoveInDirection(w1, a.linked.value, step.1);
      OnlyMovesTrans(w, w1, dragged.0);
      Ok(dragged.0)
    else
      Ok(w1)
  }

  /** The test of `action` on a pheromone: its strength less 100 over the distance to its owner is at least 25. */
  predicate Attracted(strength: int, d: nat)
    requires d > 0
  {
    (strength as real) - Reach / (d as real) >= Threshold
  }

  /**
   * Answering pheromone `mk`: the agent links to the pheromone's owner,
   * destroys the pheromone, moves onto the owner's cell, and clears the
   * owner's pheromone.
   */
  function Link(w: World, id: nat, mk: nat): (r: Result<World>)
    requires Shaped(w) && id < |w.agents| && mk < |w.markers|
    requires w.markers[mk].owner != id
    ensures r.Ok? ==> SameFrame(w, r.value) && r.value.markers == w.markers
    ensures r.Ok? ==>
      var o := w.markers[mk].owner;
      var a, b := w.agents[id], w.agents[o];
      r.value.agents == w.agents[id := a.(linked := Some(o), pos := b.pos)][o := b.(pheromone := None)]
  {
    var o := w.markers[mk].owner;
    var w1 := SetAgent(w, id, w.agents[id].(linked := Some(o)));
    var w2 :- Destroy(w1, mk);
    assert w2.agents[o] == w.agents[o] && w2.agents[id] == w.agents[id].(linked := Some(o));
    assert w2.agents[id := w.agents[id].(linked := Some(o), pos := w.agents[o].pos)] == w.agents[id := w.agents[id].(linked := Some(o), pos := w.agents[o].pos)];
    Join(w2, id, o)
  }

  /** The end of answering: agent `id` moves onto agent `o`'s cell, and `o`'s pheromone reference is cleared. */
  function Join(w: World, id: nat, o: nat): (r: Result<World>)
    requires Shaped(w) && id < |w.agents| && o < |w.agents| && id != o
    ensures r.Ok? <==> Ant(id) in w.board.At(w.agents[id].pos)
    ensures r.Ok? ==> SameFrame(w, r.value) && r.value.markers == w.markers
    ensures r.Ok? ==>
      var a, b := w.agents[id], w.agents[o];
      r.value.agents == w.agents[id := a.(pos := b.pos)][o := b.(pheromone := None)]
  {
    var w3 :- MoveTo(w, id, w.agents[o].pos);
    Ok(SetAgent(w3, o, w3.agents[o].(pheromone := None)))
  }

  /**
   * What a free agent does on reading pheromone `mk`: at distance zero from
   * the owner the division raises; a strong enough pheromone is answered;
   * otherwise the agent walks on, drawing directions in `order`.
   */
  function Answer(w: World, id: nat, mk: nat, order: seq<Pos>): (r: Result<World>)
    requires Shaped(w) && id < |w.agents| && mk < |w.markers| && IsShuffle(order)
    ensures r.Ok? ==> SameFrame(w, r.value) && r.value.agents[id].backpack == w.agents[id].backpack
  {
    var o := w.markers[mk].owner;
    var d := Chebyshev(w.agents[id].pos, w.agents[o].pos);
    assert d > 0 ==> o != id;
    if d == 0 then Err(ZeroDistance)
    else if Attracted(w.markers[mk].strength, d) then
      Link(w, id, mk)
    else
      RandomWalk(w, id, order)
  }

  /**
   * The agent starts calling for help: it waits and lays a fresh pheromone
   * around itself.
   */
  function CallForHelp(w: World, id: nat): (r: World)
    requires Shaped(w) && id < |w.agents|
    ensures SameFrame(w, r)
    ensures r.markers == w.markers + [Marker(id, Spread(w.board.n, w.board.m, w.agents[id].pos, 0), FullStrength)]
    ensures r.agents == w.agents[id := w.agents[id].(waiting := true, pheromone := Some(|w.markers|))]
    ensures forall c | 0 <= c < |w.board.cells| ::
      r.board.cells[c] == w.board.cells[c] +
        (if c in Slots(w.board.m, Spread(w.board.n, w.board.m, w.agents[id].pos, 0)) then [Mark(|w.markers|)] else [])
  {
    var a := w.agents[id];
    var e := Emit(w, id);
    Widen(ScopeOf(w), ScopeOf(e.0), a);
    SetAgent(e.0, id, a.(waiting := true, pheromone := Some(e.1)))
  }

  /**
   * First step of `action` on C: a free agent calls for help unless some
   * agent already waits on its cell, in which case it walks on.
   */
  function Settle(w: World, id: nat, order: seq<Pos>): (r: Result<World>)
    requires Shaped(w) && id < |w.agents| && IsShuffle(order)
    ensures r.Ok? ==> SameFrame(w, r.value) && r.value.agents[id].memory == w.agents[id].memory
  {
    var a := w.agents[id];
    if Free(a) then
      if !IsAgentWaiting(w, a.pos) then Ok(CallForHelp(w, id))
      else RandomWalk(w, id, order)
    else
      Ok(w)
  }

  /**
   * Second step of `action` on C: a waiting agent's pheromone weakens by
   * one; once it reaches zero the agent either gives up (when `coin` is
   * below one half) and walks away, or lays a fresh pheromone.
   */
  function Decay(w: World, id: nat, coin: real, order: seq<Pos>): (r: Result<World>)
    requires Shaped(w) && id < |w.agents| && IsShuffle(order)
    ensures r.Ok? ==> SameFrame(w, r.value) && r.value.agents[id].memory == w.agents[id].memory
  {
    var a := w.agents[id];
    if a.waiting && a.pheromone.Some? then
      var mk := a.pheromone.value;
      var w1 := Weaken(w, mk);
      if w1.markers[mk].strength == 0 then
        var w2 :- Destroy(w1, mk);
        if coin < GiveUp then
          RandomWalk(SetAgent(w2, id, a.(waiting := false, pheromone := None)), id, order)
        else
          Ok(CallForHelp(w2, id))
      else
        Ok(w1)
    else
      Ok(w)
  }

  /**
   * Third step of `action` on C: a linked agent with an empty backpack
   * lifts the C it reads and walks on with its partner.
   */
  function Lift(w: World, id: nat, order: seq<Pos>): (r: Result<World>)
    requires Shaped(w) && id < |w.agents| && IsShuffle(order)
    requires |w.agents[id].memory| > 0 && w.agents[id].memory[0].Saw?
    ensures r.Ok? ==> SameFrame(w, r.value)
  {
    var a := w.agents[id];
    if a.linked.Some? && a.backpack.None? then
      var w1 :- PickUp(w, id);
      RandomWalk(w1, id, order)
    else
      Ok(w)
  }

  /** `action` on a cell read as A or B. */
  function OnLight(w: World, id: nat, dr: Draws): (r: Result<World>)
    requires Shaped(w) && id < |w.agents| && Drawable(dr) && |w.agents[id].memory| > 0
    ensures r.Ok? ==> SameFrame(w, r.value)
  {
    var a := w.agents[id];
    if Free(a) then
      var w1 :- ChanceToPickUp(w, id, dr.pick);
      RandomWalk(w1, id, dr.walks[0])
    else if !a.waiting then
      RandomWalk(w, id, dr.walks[0])
    else
      Ok(w)
  }

  /**
   * `action` on pheromone `mk`: a free agent answers it or walks on; an
   * agent with something in its backpack walks on.
   */
  function OnScent(w: World, id: nat, mk: nat, dr: Draws): (r: Result<World>)
    requires Shaped(w) && id < |w.agents| && mk < |w.markers| && Drawable(dr)
    ensures r.Ok? ==> SameFrame(w, r.value)
  {
    var a := w.agents[id];
    var w1 :- if Free(a) then Answer(w, id, mk, dr.walks[0]) else Ok(w);
    if w1.agents[id].backpack.Some? then RandomWalk(w1, id, dr.walks[1]) else Ok(w1)
  }

  /**
   * `action` on a cell read as C: calling for help, the pheromone's decay,
   * lifting the C, and the extra step of a carrier without a pheromone, in
   * that order.
   */
  function OnHeavy(w: World, id: nat, dr: Draws): (r: Result<World>)
    requires Shaped(w) && id < |w.agents| && Drawable(dr)
    requires |w.agents[id].memory| > 0 && w.agents[id].memory[0] == Saw(C)
    ensures r.Ok? ==> SameFrame(w, r.value)
  {
    var w1 :- Settle(w, id, dr.walks[0]);
    var w2 :- Decay(w1, id, dr.coin, dr.walks[1]);
    var w3 :- Lift(w2, id, dr.walks[2]);
    var a3 := w3.agents[id];
    if a3.backpack.Some? && a3.pheromone.None? then RandomWalk(w3, id, dr.walks[3]) else Ok(w3)
  }

  /**
   * Dropping a C ends the transport: the partner stops waiting and walks
   * away on its own, and the link is cleared. Without a partner the source
   * raises.
   */
  function Release(w: World, id: nat, order: seq<Pos>): (r: Result<World>)
    requires Shaped(w) && id < |w.agents| && IsShuffle(order)
    ensures w.agents[id].linked.None? ==> r == Err(NoPartner)
    ensures r.Ok? ==> SameFrame(w, r.value) && r.value.markers == w.markers
    ensures r.Ok? && w.agents[id].linked.value != id ==>
      var a, q := w.agents[id], w.agents[id].linked.value;
      && r.value.agents[id] == a.(linked := None, pos := r.value.agents[id].pos)
      && r.value.agents[q] == w.agents[q].(waiting := false, pos := r.value.agents[q].pos)
  {
    var a := w.agents[id];
    match a.linked
    case None => Err(NoPartner)
    case Some(q) =>
      var w1 := SetAgent(w, q, w.agents[q].(waiting := false));
      var w2 :- RandomWalk(w1, q, order);
      Ok(SetAgent(w2, id, w2.agents[id].(linked := None)))
  }

  /**
   * `action` on a cell read as '0': a carrier of A or B may drop it and
   * walks on; a carrier of C may drop it, releasing its partner, and walks
   * on; an empty-handed agent walks on unless it waits.
   */
  function OnBare(w: World, id: nat, dr: Draws): (r: Result<World>)
    requires Shaped(w) && id < |w.agents| && Drawable(dr) && |w.agents[id].memory| > 0
    ensures r.Ok? ==> SameFrame(w, r.value)
  {
    var a := w.agents[id];
    if a.backpack == Some(A) || a.backpack == Some(B) then
      RandomWalk(ChanceToDrop(w, id, dr.drop), id, dr.walks[0])
    else if a.backpack == Some(C) then
      var w1 := ChanceToDrop(w, id, dr.drop);
      var w2 :- if w1.agents[id].backpack.None? then Release(w1, id, dr.walks[1]) else Ok(w1);
      RandomWalk(w2, id, dr.walks[0])
    else if !a.waiting then
      RandomWalk(w, id, dr.walks[0])
    else
      Ok(w)
  }

  /** `action`: dispatches on the most recent memory entry. An empty memory raises. */
  function Action(w: World, id: nat, dr: Draws): (r: Result<World>)
    requires Shaped(w) && id < |w.agents| && Drawable(dr)
    ensures |w.agents[id].memory| == 0 ==> r == Err(EmptyMemory)
    ensures r.Ok? ==> SameFrame(w, r.value)
  {
    var a := w.agents[id];
    if |a.memory| == 0 then Err(EmptyMemory)
    else
      match a.memory[0]
      case Saw(it) => if it == C then OnHeavy(w, id, dr) else OnLight(w, id, dr)
      case Scent(mk) => OnScent(w, id, mk, dr)
      case Bare => OnBare(w, id, dr)
  }

  /** One agent's turn of `step`: `perceive` then `action`. */
  function Tick(w: World, id: nat, dr: Draws): (r: Result<World>)
    requires Shaped(w) && id < |w.agents| && Drawable(dr)
    ensures r.Ok? ==> SameFrame(w, r.value)
  {
    var w1 :- Perceive(w, id);
    Action(w1, id, dr)
  }

  /** `step` from agent `k` on, agent `j` drawing `draws[j]`. */
  function Run(w: World, draws: seq<Draws>, k: nat): (r: Result<World>)
    requires Shaped(w) && |draws| == |w.agents|
    requires forall j | 0 <= j < |draws| :: Drawable(draws[j])
    decreases |w.agents| - k
    ensures r.Ok? ==> SameFrame(w, r.value)
  {
    if k >= |w.agents| then Ok(w)
    else
      var w1 :- Tick(w, k, draws[k]);
      Run(w1, draws, k + 1)
  }

  /** `step`: every agent in creation order perceives and acts. */
  function Step(w: World, draws: seq<Draws>): (r: Result<World>)
    requires Shaped(w) && |draws| == |w.agents|
    requires forall j | 0 <= j < |draws| :: Drawable(draws[j])
    ensures r.Ok? ==> SameFrame(w, r.value)
  {
    Run(w, draws, 0)
  }
}
