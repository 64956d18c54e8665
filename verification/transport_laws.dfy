/**
 * Laws of the cooperative-transport variant: what one agent's `action`
 * does in each phase of a transport (calling for help, waiting, giving up,
 * answering, lifting, carrying and dropping), and the range of distances
 * at which an agent answers a call at all.
 */
module TransportLaws {
  import opened Results
  import opened Grids
  import opened Walks
  import opened Response
  import opened Transport
  import opened Carrier
  import Seqs

  /**
   * Pheromones never grow stronger than at birth, so the pull test passes
   * only two cells from the owner and only above strength 75: an agent
   * right next to a waiting agent never links with it.
   */
  lemma AttractionRange(strength: int, d: nat)
    requires 0 < d <= Diffusion && strength <= FullStrength
    ensures Attracted(strength, d) <==> d == Diffusion && strength >= 75
  {
    if d == 1 {
      assert Reach / (d as real) == 100.0;
    } else {
      assert Reach / (d as real) == 50.0;
    }
  }

  /**
   * `perceive` keeps at most 25 entries, newest first: the new memory is a
   * prefix of what the cell reads as followed by the old memory, and on an
   * occupied cell it starts with that cell's reading, a pheromone exactly
   * when the cell's first occupant is one.
   */
  lemma PerceiveBounded(w: World, id: nat)
    requires Shaped(w) && id < |w.agents|
    ensures Perceive(w, id).Ok? ==>
      var a, cell := w.agents[id], w.board.At(w.agents[id].pos);
      var content := TileContent(cell).value;
      var memory := Perceive(w, id).value.agents[id].memory;
      && |memory| <= MemoryCap
      && |memory| == (if |content| + |a.memory| <= MemoryCap then |content| + |a.memory| else MemoryCap)
      && memory <= content + a.memory
      && (|cell| > 0 ==> |memory| > 0 && memory[0] == content[0] && (memory[0].Scent? <==> cell[0].Mark?))
  {
    if Perceive(w, id).Ok? {
      var a, cell := w.agents[id], w.board.At(w.agents[id].pos);
      var content := TileContent(cell).value;
      Seqs.TakeIsCappedPrefix(content + a.memory, MemoryCap);
      if |cell| > 0 {
        assert Label(cell) in content by {
          assert multiset(content)[Label(cell)] == |cell|;
        }
        var memory := Perceive(w, id).value.agents[id].memory;
        assert memory[0] == (content + a.memory)[0];
      }
    }
  }

  /** `action` hands each kind of reading to its own branch. */
  lemma Dispatch(w: World, id: nat, dr: Draws)
    requires Shaped(w) && id < |w.agents| && Drawable(dr) && |w.agents[id].memory| > 0
    ensures
      var a := w.agents[id];
      && (a.memory[0] == Saw(C) ==> Action(w, id, dr) == OnHeavy(w, id, dr))
      && (a.memory[0] == Saw(A) || a.memory[0] == Saw(B) ==> Action(w, id, dr) == OnLight(w, id, dr))
      && (a.memory[0] == Bare ==> Action(w, id, dr) == OnBare(w, id, dr))
      && (a.memory[0].Scent? ==>
        a.memory[0].mark < |w.markers| && Action(w, id, dr) == OnScent(w, id, a.memory[0].mark, dr))
  {
    var a := w.agents[id];
    assert a.memory[0] in a.memory;
    assert AgentShaped(ScopeOf(w), a);
  }

  /** The four steps on C run one after the other, each on the world the previous one left. */
  lemma HeavySteps(w: World, id: nat, dr: Draws, w1: World, w2: World, w3: World)
    requires Shaped(w) && id < |w.agents| && Drawable(dr)
    requires |w.agents[id].memory| > 0 && w.agents[id].memory[0] == Saw(C)
    requires Settle(w, id, dr.walks[0]) == Ok(w1)
    requires Shaped(w1) && id < |w1.agents| && Decay(w1, id, dr.coin, dr.walks[1]) == Ok(w2)
    requires Shaped(w2) && id < |w2.agents| && |w2.agents[id].memory| > 0 && w2.agents[id].memory[0].Saw?
    requires Lift(w2, id, dr.walks[2]) == Ok(w3)
    requires Shaped(w3) && id < |w3.agents|
    ensures
      var a3 := w3.agents[id];
      OnHeavy(w, id, dr) == if a3.backpack.Some? && a3.pheromone.None? then RandomWalk(w3, id, dr.walks[3]) else Ok(w3)
  {
  }

  /** The first step on C, for a free agent on a cell where no one waits: it calls for help. */
  lemma SettleCalls(w: World, id: nat, order: seq<Pos>)
    requires Shaped(w) && id < |w.agents| && IsShuffle(order)
    requires Free(w.agents[id]) && !IsAgentWaiting(w, w.agents[id].pos)
    ensures Settle(w, id, order) == Ok(CallForHelp(w, id))
  {
  }

  /** The second step on C, while the pheromone has more than one unit left: it weakens and nothing else happens. */
  lemma DecayWeakens(w: World, id: nat, coin: real, order: seq<Pos>)
    requires Shaped(w) && id < |w.agents| && IsShuffle(order)
    requires
      var a := w.agents[id];
      a.waiting && a.pheromone.Some? && a.pheromone.value < |w.markers| && w.markers[a.pheromone.value].strength > 1
    ensures Decay(w, id, coin, order) == Ok(Weaken(w, w.agents[id].pheromone.value))
  {
  }

  /** The third step on C does nothing for an agent that is not linked. */
  lemma LiftIdle(w: World, id: nat, order: seq<Pos>)
    requires Shaped(w) && id < |w.agents| && IsShuffle(order)
    requires |w.agents[id].memory| > 0 && w.agents[id].memory[0].Saw?
    requires w.agents[id].linked.None?
    ensures Lift(w, id, order) == Ok(w)
  {
  }

  /** The steps of `action` that a free agent reading C takes when no one waits on its cell yet. */
  lemma CallsAndWeakens(w: World, id: nat, dr: Draws)
    requires Shaped(w) && id < |w.agents| && Drawable(dr)
    requires |w.agents[id].memory| > 0 && w.agents[id].memory[0] == Saw(C)
    requires Free(w.agents[id]) && !IsAgentWaiting(w, w.agents[id].pos)
    ensures Action(w, id, dr) == Ok(Weaken(CallForHelp(w, id), |w.markers|))
  {
    var mk := |w.markers|;
    var w1 := CallForHelp(w, id);
    SettleCalls(w, id, dr.walks[0]);
    assert w1.agents[id] == w.agents[id].(waiting := true, pheromone := Some(mk));
    assert w1.markers[mk].strength == FullStrength;
    DecayWeakens(w1, id, dr.coin, dr.walks[1]);
    var w2 := Weaken(w1, mk);
    assert w2.agents == w1.agents;
    LiftIdle(w2, id, dr.walks[2]);
    HeavySteps(w, id, dr, w1, w2, w2);
    Dispatch(w, id, dr);
  }

  /** What a call for help followed by one unit of decay leaves behind. */
  lemma CalledAndWeakened(w: World, id: nat)
    requires Shaped(w) && id < |w.agents|
    ensures
      var a, mk := w.agents[id], |w.markers|;
      var cover := Spread(w.board.n, w.board.m, a.pos, 0);
      var r := Weaken(CallForHelp(w, id), mk);
      && r.agents == w.agents[id := a.(waiting := true, pheromone := Some(mk))]
      && r.markers == w.markers + [Marker(id, cover, FullStrength - 1)]
      && forall c | 0 <= c < |w.board.cells| ::
        r.board.cells[c] == w.board.cells[c] + (if c in Slots(w.board.m, cover) then [Mark(mk)] else [])
  {
  }

  /**
   * A free agent reading C on a cell where no one waits yet calls for help:
   * it waits, and a pheromone named by the next free index, owned by it and
   * covering the cells at distance one or two, lies on the board. The
   * pheromone has already lost one unit of strength in the same action.
   */
  lemma WaitBegins(w: World, id: nat, dr: Draws)
    requires Shaped(w) && id < |w.agents| && Drawable(dr)
    requires |w.agents[id].memory| > 0 && w.agents[id].memory[0] == Saw(C)
    requires Free(w.agents[id]) && !IsAgentWaiting(w, w.agents[id].pos)
    ensures
      var r, a, mk := Action(w, id, dr), w.agents[id], |w.markers|;
      var cover := Spread(w.board.n, w.board.m, a.pos, 0);
      && r.Ok?
      && r.value.agents == w.agents[id := a.(waiting := true, pheromone := Some(mk))]
      && r.value.markers == w.markers + [Marker(id, cover, FullStrength - 1)]
      && forall c | 0 <= c < |w.board.cells| ::
        r.value.board.cells[c] == w.board.cells[c] + (if c in Slots(w.board.m, cover) then [Mark(mk)] else [])
  {
    CallsAndWeakens(w, id, dr);
    CalledAndWeakened(w, id);
    var r := Action(w, id, dr);
    assert r.value == Weaken(CallForHelp(w, id), |w.markers|);
  }

  /**
   * While its pheromone is above strength one, a waiting agent reading C
   * stays put: the only change is that its pheromone loses one unit.
   */
  lemma WaitDecays(w: World, id: nat, dr: Draws)
    requires Shaped(w) && id < |w.agents| && Drawable(dr)
    requires |w.agents[id].memory| > 0 && w.agents[id].memory[0] == Saw(C)
    requires
      var a := w.agents[id];
      && a.waiting && a.linked.None? && a.backpack.None?
      && a.pheromone.Some? && a.pheromone.value < |w.markers|
      && w.markers[a.pheromone.value].strength > 1
    ensures
      var mk := w.agents[id].pheromone.value;
      Action(w, id, dr) == Ok(w.(markers := w.markers[mk := w.markers[mk].(strength := w.markers[mk].strength - 1)]))
  {
    var mk := w.agents[id].pheromone.value;
    var w2 := Weaken(w, mk);
    assert Settle(w, id, dr.walks[0]) == Ok(w);
    assert Decay(w, id, dr.coin, dr.walks[1]) == Ok(w2);
    assert Lift(w2, id, dr.walks[2]) == Ok(w2);
  }

  /** The second step on C when the pheromone's last unit goes: the pheromone is destroyed, then the agent gives up or calls anew. */
  lemma DecayFades(w: World, id: nat, coin: real, order: seq<Pos>)
    requires Shaped(w) && id < |w.agents| && IsShuffle(order)
    requires
      var a := w.agents[id];
      a.waiting && a.pheromone.Some? && a.pheromone.value < |w.markers| && w.markers[a.pheromone.value].strength == 1
    ensures
      var a := w.agents[id];
      var mk := a.pheromone.value;
      var d := Destroy(Weaken(w, mk), mk);
      && (d.Ok? <==> forall q | q in w.markers[mk].cells :: Mark(mk) in w.board.At(q))
      && Decay(w, id, coin, order) ==
        if d.Err? then Err(d.fault)
        else if coin < GiveUp then
          RandomWalk(SetAgent(d.value, id, a.(waiting := false, pheromone := None)), id, order)
        else Ok(CallForHelp(d.value, id))
  {
    var mk := w.agents[id].pheromone.value;
    var w1 := Weaken(w, mk);
    assert w1.markers[mk].strength == 0;
    assert w1.markers[mk].cells == w.markers[mk].cells;
  }

  /** A step taken alone leads to a neighbouring cell. */
  lemma WalkAloneNeighbour(w: World, id: nat, order: seq<Pos>)
    requires Shaped(w) && id < |w.agents| && IsShuffle(order)
    requires w.agents[id].linked.None? || w.agents[id].backpack != Some(C)
    ensures
      var r, a := RandomWalk(w, id, order), w.agents[id];
      r.Ok? ==>
        && r.value.agents[id] == a.(pos := r.value.agents[id].pos)
        && Chebyshev(a.pos, r.value.agents[id].pos) == 1
  {
    WalkAlone(w, id, order);
    var a := w.agents[id];
    var ff := FirstFit(w.board, a.pos, order, 0);
    if RandomWalk(w, id, order).Ok? {
      DirectionsAreNeighbours(order[ff.value]);
    }
  }

  /**
   * When its pheromone fades out, a waiting agent reading C either gives
   * up, with even chance, and steps away without a pheromone, or lays a
   * fresh pheromone of full strength around the same cell and waits on.
   * Either way the faded pheromone must still lie on all its cells.
   */
  lemma WaitEnds(w: World, id: nat, dr: Draws)
    requires Shaped(w) && id < |w.agents| && Drawable(dr)
    requires |w.agents[id].memory| > 0 && w.agents[id].memory[0] == Saw(C)
    requires
      var a := w.agents[id];
      && a.waiting && a.linked.None? && a.backpack.None?
      && a.pheromone.Some? && a.pheromone.value < |w.markers|
      && w.markers[a.pheromone.value].strength == 1
    ensures
      var r, a := Action(w, id, dr), w.agents[id];
      var mk := a.pheromone.value;
      r.Ok? ==> forall q | q in w.markers[mk].cells :: Mark(mk) in w.board.At(q)
    ensures
      var r, a := Action(w, id, dr), w.agents[id];
      dr.coin < GiveUp && r.Ok? ==>
        var b := r.value.agents[id];
        && b == a.(waiting := false, pheromone := None, pos := b.pos)
        && Chebyshev(a.pos, b.pos) == 1
    ensures
      var r, a := Action(w, id, dr), w.agents[id];
      var mk := a.pheromone.value;
      dr.coin >= GiveUp ==>
        && (r.Ok? <==> forall q | q in w.markers[mk].cells :: Mark(mk) in w.board.At(q))
        && (r.Ok? ==>
          && r.value.agents == w.agents[id := a.(pheromone := Some(|w.markers|))]
          && r.value.markers ==
            w.markers[mk := w.markers[mk].(strength := 0)] + [Marker(id, Spread(w.board.n, w.board.m, a.pos, 0), FullStrength)])
  {
    var a := w.agents[id];
    var mk := a.pheromone.value;
    Dispatch(w, id, dr);
    assert Settle(w, id, dr.walks[0]) == Ok(w);
    DecayFades(w, id, dr.coin, dr.walks[1]);
    var d := Destroy(Weaken(w, mk), mk);
    if d.Ok? {
      var w2 := d.value;
      if dr.coin < GiveUp {
        var w3 := SetAgent(w2, id, a.(waiting := false, pheromone := None));
        var r3 := RandomWalk(w3, id, dr.walks[1]);
        WalkAloneNeighbour(w3, id, dr.walks[1]);
        if r3.Ok? {
          var w4 := r3.value;
          LiftIdle(w4, id, dr.walks[2]);
          HeavySteps(w, id, dr, w, w4, w4);
        }
      } else {
        var w3 := CallForHelp(w2, id);
        LiftIdle(w3, id, dr.walks[2]);
        HeavySteps(w, id, dr, w, w3, w3);
      }
    }
  }

  /** On a pheromone, a free agent's whole action is its answer; a busy agent walks on only if it carries something. */
  lemma ScentSteps(w: World, id: nat, mk: nat, dr: Draws)
    requires Shaped(w) && id < |w.agents| && mk < |w.markers| && Drawable(dr)
    ensures Free(w.agents[id]) ==> OnScent(w, id, mk, dr) == Answer(w, id, mk, dr.walks[0])
    ensures !Free(w.agents[id]) ==>
      OnScent(w, id, mk, dr) == if w.agents[id].backpack.Some? then RandomWalk(w, id, dr.walks[1]) else Ok(w)
  {
  }

  /**
   * A free agent reading pheromone `mk` answers by linking when the pull
   * test passes, walks on when it fails, and fails with a division by zero
   * when it stands on the owner's cell. An agent that is not free ignores
   * the pheromone, and walks on if it carries something.
   */
  lemma AnswerRule(w: World, id: nat, dr: Draws)
    requires Shaped(w) && id < |w.agents| && Drawable(dr)
    requires |w.agents[id].memory| > 0 && w.agents[id].memory[0].Scent?
    ensures
      var r, a := Action(w, id, dr), w.agents[id];
      var mk := a.memory[0].mark;
      mk < |w.markers| &&
      var o := w.markers[mk].owner;
      var d := Chebyshev(a.pos, w.agents[o].pos);
      && (Free(a) && d == 0 ==> r == Err(ZeroDistance))
      && (Free(a) && d > 0 && Attracted(w.markers[mk].strength, d) ==> o != id && r == Link(w, id, mk))
      && (Free(a) && d > 0 && !Attracted(w.markers[mk].strength, d) ==> r == RandomWalk(w, id, dr.walks[0]))
      && (a.backpack.Some? ==> r == RandomWalk(w, id, dr.walks[1]))
      && (!Free(a) && a.backpack.None? ==> r == Ok(w))
  {
    Dispatch(w, id, dr);
    var mk := w.agents[id].memory[0].mark;
    ScentSteps(w, id, mk, dr);
  }

  /**
   * A walk without a partner in tow: the agent alone steps, in the first
   * drawn direction that stays on the board, and nothing else changes.
   */
  lemma WalkAlone(w: World, id: nat, order: seq<Pos>)
    requires Shaped(w) && id < |w.agents| && IsShuffle(order)
    requires w.agents[id].linked.None? || w.agents[id].backpack != Some(C)
    ensures
      var r, a := RandomWalk(w, id, order), w.agents[id];
      var ff := FirstFit(w.board, a.pos, order, 0);
      r.Ok? ==>
        && ff.Some?
        && r.value.agents == w.agents[id := a.(pos := Shift(a.pos, order[ff.value]))]
        && r.value.markers == w.markers
  {
  }

  /**
   * A carrier of C drags its partner: the partner takes the step the
   * carrier took when that step keeps it on the board, and stays put
   * otherwise.
   */
  lemma WalkDrags(w: World, id: nat, order: seq<Pos>)
    requires Shaped(w) && id < |w.agents| && IsShuffle(order)
    requires w.agents[id].linked.Some? && w.agents[id].linked.value != id && w.agents[id].backpack == Some(C)
    ensures
      var r, a := RandomWalk(w, id, order), w.agents[id];
      var q := a.linked.value;
      var b := w.agents[q];
      var ff := FirstFit(w.board, a.pos, order, 0);
      r.Ok? ==>
        && ff.Some?
        && r.value.agents[id] == a.(pos := Shift(a.pos, order[ff.value]))
        && r.value.agents[q] ==
          b.(pos := if w.board.InBounds(Shift(b.pos, order[ff.value])) then Shift(b.pos, order[ff.value]) else b.pos)
  {
    var a := w.agents[id];
    var q := a.linked.value;
    assert AgentShaped(ScopeOf(w), a);
    var s := WalkFrom(w, id, order, 0);
    if s.Ok? {
      var w1, d := s.value.0, s.value.1;
      assert w1.agents[q] == w.agents[q];
      assert w1.agents[id].linked == Some(q) && w1.agents[id].backpack == Some(C);
      var m := MoveInDirection(w1, q, d);
      if m.Ok? && w.board.InBounds(Shift(w.agents[q].pos, d)) {
        var w2 := MoveTo(w1, q, Shift(w.agents[q].pos, d)).value;
        assert m.value.0 == w2;
      }
    }
  }

  /**
   * A linked agent reading C with nothing in its backpack lifts it and,
   * in the same action, walks twice with its partner in tow: once after
   * lifting and once more as a carrier without a pheromone. No random
   * number other than the two walks' orders plays a part.
   */
  lemma LiftAndCarry(w: World, id: nat, dr: Draws)
    requires Shaped(w) && id < |w.agents| && Drawable(dr)
    requires |w.agents[id].memory| > 0 && w.agents[id].memory[0] == Saw(C)
    requires
      var a := w.agents[id];
      a.linked.Some? && a.backpack.None? && !a.waiting && a.pheromone.None?
    ensures
      Action(w, id, dr) ==
        match PickUp(w, id)
        case Err(f) => Err(f)
        case Ok(w1) =>
          match RandomWalk(w1, id, dr.walks[2])
          case Err(f) => Err(f)
          case Ok(w2) => RandomWalk(w2, id, dr.walks[3])
    ensures
      var r, a := Action(w, id, dr), w.agents[id];
      r.Ok? ==> r.value.agents[id] == a.(backpack := Some(C), pos := r.value.agents[id].pos)
  {
    var a := w.agents[id];
    Dispatch(w, id, dr);
    assert Settle(w, id, dr.walks[0]) == Ok(w);
    assert Decay(w, id, dr.coin, dr.walks[1]) == Ok(w);
    var p := PickUp(w, id);
    if p.Ok? {
      var w1 := p.value;
      assert w1.agents[id] == a.(backpack := Some(C));
      var l := RandomWalk(w1, id, dr.walks[2]);
      assert Lift(w, id, dr.walks[2]) == l;
      if l.Ok? {
        var w3 := l.value;
        assert OnlyMoves(w1, w3);
        assert w3.agents[id] == a.(backpack := Some(C), pos := w3.agents[id].pos);
        HeavySteps(w, id, dr, w, w, w3);
        var r := RandomWalk(w3, id, dr.walks[3]);
        if r.Ok? {
          assert OnlyMoves(w3, r.value);
        }
      } else {
        HeavyFails(w, id, dr, w, w, l.fault);
      }
    } else {
      assert Lift(w, id, dr.walks[2]) == Err(p.fault);
      HeavyFails(w, id, dr, w, w, p.fault);
    }
  }

  /** When the third step on C fails, the whole action fails with it. */
  lemma HeavyFails(w: World, id: nat, dr: Draws, w1: World, w2: World, f: Fault)
    requires Shaped(w) && id < |w.agents| && Drawable(dr)
    requires |w.agents[id].memory| > 0 && w.agents[id].memory[0] == Saw(C)
    requires Settle(w, id, dr.walks[0]) == Ok(w1)
    requires Shaped(w1) && id < |w1.agents| && Decay(w1, id, dr.coin, dr.walks[1]) == Ok(w2)
    requires Shaped(w2) && id < |w2.agents| && |w2.agents[id].memory| > 0 && w2.agents[id].memory[0].Saw?
    requires Lift(w2, id, dr.walks[2]) == Err(f)
    ensures OnHeavy(w, id, dr) == Err(f)
  {
  }

  /**
   * On an empty cell a carrier of C drops it with the response function's
   * probability. When it does, the transport ends: it holds nothing and is
   * linked to no one, and its partner no longer waits.
   */
  lemma ReleaseOnDrop(w: World, id: nat, dr: Draws)
    requires Shaped(w) && id < |w.agents| && Drawable(dr)
    requires |w.agents[id].memory| > 0 && w.agents[id].memory[0] == Bare
    requires
      var a := w.agents[id];
      a.backpack == Some(C) && a.linked.Some? && a.linked.value != id
    ensures
      var r, a := Action(w, id, dr), w.agents[id];
      var q := a.linked.value;
      dr.drop < DropChance(Density(a.memory)) && r.Ok? ==>
        && r.value.agents[id] == a.(backpack := None, linked := None, pos := r.value.agents[id].pos)
        && r.value.agents[q] == w.agents[q].(waiting := false, pos := r.value.agents[q].pos)
  {
    var a := w.agents[id];
    Dispatch(w, id, dr);
    if dr.drop < DropChance(Density(a.memory)) {
      var w1 := DropsC(w, id, dr);
      var rel := Release(w1, id, dr.walks[1]);
      if rel.Ok? {
        var r := RandomWalk(rel.value, id, dr.walks[0]);
        if r.Ok? {
          assert OnlyMoves(rel.value, r.value);
        }
      }
    }
  }

  /** A carrier of C on a bare cell that does not drop it walks on, its partner in tow. */
  lemma KeepsC(w: World, id: nat, dr: Draws)
    requires Shaped(w) && id < |w.agents| && Drawable(dr)
    requires |w.agents[id].memory| > 0 && w.agents[id].memory[0] == Bare && w.agents[id].backpack == Some(C)
    ensures dr.drop >= DropChance(Density(w.agents[id].memory)) ==> Action(w, id, dr) == RandomWalk(w, id, dr.walks[0])
  {
    Dispatch(w, id, dr);
  }

  /** A carrier of C that drops it is empty-handed afterwards, and `action` goes on with the release. */
  lemma DropsC(w: World, id: nat, dr: Draws) returns (w1: World)
    requires Shaped(w) && id < |w.agents| && Drawable(dr)
    requires |w.agents[id].memory| > 0 && w.agents[id].memory[0] == Bare
    requires w.agents[id].backpack == Some(C) && dr.drop < DropChance(Density(w.agents[id].memory))
    ensures Shaped(w1) && |w1.agents| == |w.agents| && w1 == ChanceToDrop(w, id, dr.drop)
    ensures w1.agents == w.agents[id := w.agents[id].(backpack := None)]
    ensures OnBare(w, id, dr) == match Release(w1, id, dr.walks[1])
      case Err(f) => Err(f)
      case Ok(w2) => RandomWalk(w2, id, dr.walks[0])
  {
    w1 := ChanceToDrop(w, id, dr.drop);
    ReleaseFollows(w, id, dr, w1);
  }

  /** On a bare cell, a carrier of C left empty-handed by the drop releases its partner, then walks. */
  lemma ReleaseFollows(w: World, id: nat, dr: Draws, w1: World)
    requires Shaped(w) && id < |w.agents| && Drawable(dr)
    requires |w.agents[id].memory| > 0 && w.agents[id].backpack == Some(C)
    requires w1 == ChanceToDrop(w, id, dr.drop) && w1.agents[id].backpack.None?
    ensures OnBare(w, id, dr) == match Release(w1, id, dr.walks[1])
      case Err(f) => Err(f)
      case Ok(w2) => RandomWalk(w2, id, dr.walks[0])
  {
  }

  /** A move takes the agent off its cell and onto the target; every other occupant stays where it was. */
  lemma MoveKeepsAt(w: World, id: nat, t: Pos, x: Occupant, p: Pos)
    requires Shaped(w) && id < |w.agents| && w.board.InBounds(t) && x != Ant(id)
    requires MoveTo(w, id, t).Ok? && w.board.InBounds(p)
    ensures multiset(MoveTo(w, id, t).value.board.At(p))[x] == multiset(w.board.At(p))[x]
  {
    var g, g' := w.board, MoveTo(w, id, t).value.board;
    var s := w.agents[id].pos;
    var c := g.Index(p);
    var left := g.cells[g.Index(s) := Seqs.RemoveFirst(g.At(s), Ant(id))];
    Seqs.RemoveFirstOthers(g.At(s), Ant(id), x);
    assert multiset(left[c])[x] == multiset(g.cells[c])[x];
    if c == g.Index(t) {
      assert multiset(left[c] + [Ant(id)]) == multiset(left[c]) + multiset{Ant(id)};
    }
    assert g'.At(p) == g'.cells[c];
  }

  /** Destroying pheromone `mk` leaves every other occupant where it was. */
  lemma DestroyKeepsAt(w: World, mk: nat, x: Occupant, p: Pos)
    requires Shaped(w) && mk < |w.markers| && x != Mark(mk) && Destroy(w, mk).Ok? && w.board.InBounds(p)
    ensures x in Destroy(w, mk).value.board.At(p) <==> x in w.board.At(p)
  {
    var g' := Destroy(w, mk).value.board;
    assert g'.Valid() && g'.n == w.board.n && g'.m == w.board.m;
    WithdrawnElsewhere(w.board, g', Slots(w.board.m, w.markers[mk].cells), Mark(mk), x, p);
  }

  /** Removing first copies of `x` from some cells keeps every other occupant's presence in each cell. */
  lemma WithdrawnElsewhere(g: Grid<Occupant>, g': Grid<Occupant>, s: set<int>, x: Occupant, y: Occupant, p: Pos)
    requires g.Valid() && g'.Valid() && g'.n == g.n && g'.m == g.m && g.InBounds(p) && y != x
    requires forall c | 0 <= c < |g.cells| :: g'.cells[c] == if c in s then Seqs.RemoveFirst(g.cells[c], x) else g.cells[c]
    ensures y in g'.At(p) <==> y in g.At(p)
  {
    var c := g.Index(p);
    Seqs.RemoveFirstMembers(g.cells[c], x, y);
    assert g'.At(p) == g'.cells[c];
  }

  /** On each cell it covers, destroying pheromone `mk` removes the first copy of it. */
  lemma DestroyAt(w: World, mk: nat, q: Pos)
    requires Shaped(w) && mk < |w.markers| && Destroy(w, mk).Ok? && q in w.markers[mk].cells
    ensures w.board.InBounds(q)
    ensures
      var c := w.board.Index(q);
      && Mark(mk) in w.board.cells[c]
      && Destroy(w, mk).value.board.cells[c] == Seqs.RemoveFirst(w.board.cells[c], Mark(mk))
  {
    assert MarkerShaped(ScopeOf(w), w.markers[mk]);
    assert w.board.At(q) == w.board.cells[w.board.Index(q)];
    SlotsMember(w.board, w.markers[mk].cells, q);
  }

  /** Destroying pheromone `mk` takes one copy of it off each cell it covers. */
  lemma DestroyLowersAt(w: World, mk: nat, q: Pos)
    requires Shaped(w) && mk < |w.markers| && Destroy(w, mk).Ok? && q in w.markers[mk].cells
    ensures w.board.InBounds(q)
    ensures multiset(Destroy(w, mk).value.board.At(q))[Mark(mk)] == multiset(w.board.At(q))[Mark(mk)] - 1
  {
    DestroyAt(w, mk, q);
    CellLosesOne(w.board, Destroy(w, mk).value.board, q, Mark(mk));
  }

  /** A cell whose list lost the first copy of `x` holds one copy of `x` fewer. */
  lemma CellLosesOne(g: Grid<Occupant>, g': Grid<Occupant>, q: Pos, x: Occupant)
    requires g.Valid() && g'.Valid() && g'.n == g.n && g'.m == g.m && g.InBounds(q)
    requires x in g.cells[g.Index(q)]
    requires g'.cells[g.Index(q)] == Seqs.RemoveFirst(g.cells[g.Index(q)], x)
    ensures multiset(g'.At(q))[x] == multiset(g.At(q))[x] - 1
  {
    Seqs.RemoveFirstCount(g.cells[g.Index(q)], x);
  }

  /** After a move the agent stands on the target cell. */
  lemma MoveLands(w: World, id: nat, t: Pos)
    requires Shaped(w) && id < |w.agents| && w.board.InBounds(t) && MoveTo(w, id, t).Ok?
    ensures Ant(id) in MoveTo(w, id, t).value.board.At(t)
  {
    var g, g' := w.board, MoveTo(w, id, t).value.board;
    var p := w.agents[id].pos;
    var left := g.cells[g.Index(p) := Seqs.RemoveFirst(g.At(p), Ant(id))];
    assert g'.cells[g.Index(t)] == left[g.Index(t)] + [Ant(id)];
    assert g'.At(t) == g'.cells[g.Index(t)];
  }

  /** Answering pheromone `mk`, step by step: link, destroy the pheromone, move onto the partner's cell, clear the partner's pheromone. */
  lemma LinkSteps(w: World, id: nat, mk: nat)
    requires Shaped(w) && id < |w.agents| && mk < |w.markers| && w.markers[mk].owner != id
    ensures
      var a, o := w.agents[id], w.markers[mk].owner;
      var w1 := SetAgent(w, id, a.(linked := Some(o)));
      Link(w, id, mk) ==
        match Destroy(w1, mk)
        case Err(f) => Err(f)
        case Ok(w2) =>
          match MoveTo(w2, id, w2.agents[o].pos)
          case Err(f) => Err(f)
          case Ok(w3) => Ok(SetAgent(w3, o, w3.agents[o].(pheromone := None)))
  {
  }

  /**
   * Answering pheromone `mk` succeeds exactly when the pheromone still lies
   * on all its cells and the agent stands on its own cell.
   */
  lemma LinkSucceeds(w: World, id: nat, mk: nat)
    requires Shaped(w) && id < |w.agents| && mk < |w.markers| && w.markers[mk].owner != id
    ensures
      var a := w.agents[id];
      Link(w, id, mk).Ok? <==>
        (forall q | q in w.markers[mk].cells :: Mark(mk) in w.board.At(q)) && Ant(id) in w.board.At(a.pos)
  {
    LinkSteps(w, id, mk);
    var a, o := w.agents[id], w.markers[mk].owner;
    var w1 := SetAgent(w, id, a.(linked := Some(o)));
    if Destroy(w1, mk).Ok? {
      DestroyKeepsAt(w1, mk, Ant(id), a.pos);
    }
  }

  /**
   * Once pheromone `mk` is answered, it has left each of its cells once,
   * and the agent stands on its partner's cell.
   */
  lemma LinkLands(w: World, id: nat, mk: nat)
    requires Shaped(w) && id < |w.agents| && mk < |w.markers| && w.markers[mk].owner != id
    ensures
      var r, o := Link(w, id, mk), w.markers[mk].owner;
      r.Ok? ==>
        && Ant(id) in r.value.board.At(w.agents[o].pos)
        && forall q | q in w.markers[mk].cells ::
          multiset(r.value.board.At(q))[Mark(mk)] == multiset(w.board.At(q))[Mark(mk)] - 1
  {
    LinkSteps(w, id, mk);
    var a, o := w.agents[id], w.markers[mk].owner;
    var w1 := SetAgent(w, id, a.(linked := Some(o)));
    var d := Destroy(w1, mk);
    if d.Ok? {
      var w2 := d.value;
      var t := w2.agents[o].pos;
      var m := MoveTo(w2, id, t);
      if m.Ok? {
        var w3 := m.value;
        MoveLands(w2, id, t);
        forall q | q in w.markers[mk].cells
          ensures multiset(w3.board.At(q))[Mark(mk)] == multiset(w.board.At(q))[Mark(mk)] - 1
        {
          DestroyLowersAt(w1, mk, q);
          MoveKeepsAt(w2, id, t, Mark(mk), q);
        }
      }
    }
  }
}
