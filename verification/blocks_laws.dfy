/**
 * What the blocks' perception and action amount to on a well-formed board,
 * and when the main loop stops: exactly when the board is the goal tower.
 */
module BlocksLaws {
  import opened Results
  import opened Blocks
  import Seqs

  /** The search for the block beneath `nm` finds its real neighbour from any earlier column on. */
  lemma {:induction false} UnderFromAt(b: Board, k: nat, i: nat, from: nat)
    requires WellFormed(b) && from <= k < 3 && i < |b.columns[k]|
    ensures UnderFrom(b.columns, b.columns[k][i], from) == if i == 0 then None else Some(b.columns[k][i - 1])
    decreases k - from
  {
    var cols, nm := b.columns, b.columns[k][i];
    if from == k {
      var j := Seqs.IndexOf(cols[k], nm);
      Unique(b, k, j, k, i);
    } else {
      assert nm !in cols[from] by {
        if nm in cols[from] {
          var j := Seqs.IndexOf(cols[from], nm);
          Unique(b, from, j, k, i);
        }
      }
      UnderFromAt(b, k, i, from + 1);
    }
  }

  /** `find_under` on a well-formed board: the block right beneath, None at the bottom. */
  lemma FindUnderAt(b: Board, k: nat, i: nat)
    requires WellFormed(b) && k < 3 && i < |b.columns[k]|
    ensures FindUnder(b, b.columns[k][i]) == if i == 0 then None else Some(b.columns[k][i - 1])
  {
    UnderFromAt(b, k, i, 0);
  }

  /**
   * A block is content exactly when it is D on the floor, or stands on its
   * goal block and that block is not pushing.
   */
  lemma ContentAt(b: Board, k: nat, i: nat)
    requires WellFormed(b) && k < 3 && i < |b.columns[k]|
    ensures
      var nm := b.columns[k][i];
      Content(b, nm) <==>
        if i == 0 then nm == D
        else GoalUnder(nm) == Some(b.columns[k][i - 1]) && b.columns[k][i - 1] !in b.pushing
  {
    FindUnderAt(b, k, i);
  }

  /** `perceive` on a well-formed board: satisfied as `ContentAt` says, free exactly on top. */
  lemma PerceiveAt(b: Board, k: nat, i: nat)
    requires WellFormed(b) && k < 3 && i < |b.columns[k]|
    ensures
      var nm := b.columns[k][i];
      var r := Perceive(b, nm);
      && (nm in r.satisfied <==>
            if i == 0 then nm == D
            else GoalUnder(nm) == Some(b.columns[k][i - 1]) && b.columns[k][i - 1] !in b.pushing)
      && (nm in r.free <==> i == |b.columns[k]| - 1)
  {
    ContentAt(b, k, i);
    FreeAt(b, k, i);
  }

  /** On a well-formed board a block can move exactly when it tops its column. */
  lemma FreeAt(b: Board, k: nat, i: nat)
    requires WellFormed(b) && k < 3 && i < |b.columns[k]|
    ensures CanMove(b, b.columns[k][i]) <==> i == |b.columns[k]| - 1
  {
    OnceInStock(b, b.columns[k][i]);
    TopApart(b, k, i);
  }

  /** A block that the columns hold once can move exactly when it tops its column. */
  lemma TopApart(b: Board, k: nat, i: nat)
    requires |b.columns| == 3 && k < 3 && i < |b.columns[k]|
    requires
      var cols, nm := b.columns, b.columns[k][i];
      multiset(cols[0])[nm] + multiset(cols[1])[nm] + multiset(cols[2])[nm] == 1
    ensures CanMove(b, b.columns[k][i]) <==> i == |b.columns[k]| - 1
  {
    var nm := b.columns[k][i];
    if CanMove(b, nm) {
      var c := Column(b, nm).value;
      OnceApart(b.columns, c, |b.columns[c]| - 1, k, i);
    } else {
      assert !OnTop(b.columns[k], nm);
    }
  }

  /** A content block's turn changes nothing but its own flags. */
  lemma TurnContent(b: Board, nm: Name, pick: nat)
    requires Content(b, nm)
    ensures Turn(b, nm, pick) == Ok(Perceive(b, nm))
  {
  }

  /** A discontented block with another block on it raises its `pushing` flag and moves nothing. */
  lemma TurnPushes(b: Board, k: nat, i: nat, pick: nat)
    requires WellFormed(b) && k < 3 && i < |b.columns[k]| - 1 && !Content(b, b.columns[k][i])
    ensures
      var nm := b.columns[k][i];
      Turn(b, nm, pick) == Ok(Push(Perceive(b, nm), nm))
  {
    PerceiveAt(b, k, i);
  }

  /**
   * A discontented top block leaves its column for one of the two others,
   * stops pushing, and the board stays well formed.
   */
  lemma TurnMoves(b: Board, k: nat, i: nat, pick: nat)
    requires WellFormed(b) && k < 3 && i == |b.columns[k]| - 1 && !Content(b, b.columns[k][i])
    ensures
      var nm := b.columns[k][i];
      var r := Turn(b, nm, pick);
      && r.Ok? && WellFormed(r.value) && nm !in r.value.pushing
      && r.value.columns[k] == b.columns[k][..i]
      && exists x | 0 <= x < 3 && x != k ::
           && r.value.columns[x] == b.columns[x] + [nm]
           && forall j | 0 <= j < 3 && j != k && j != x :: r.value.columns[j] == b.columns[j]
  {
    var nm := b.columns[k][i];
    PerceiveAt(b, k, i);
    var r := ActionMoves(Perceive(b, nm), k, pick);
  }

  /** The move half of `action`, for the top block of column `k`. */
  lemma ActionMoves(b: Board, k: nat, pick: nat) returns (r: Board)
    requires WellFormed(b) && k < 3 && |b.columns[k]| > 0
    requires var nm := b.columns[k][|b.columns[k]| - 1]; nm !in b.satisfied && nm in b.free
    ensures Action(b, b.columns[k][|b.columns[k]| - 1], pick) == Ok(r)
    ensures WellFormed(r) && b.columns[k][|b.columns[k]| - 1] !in r.pushing
    ensures r.columns[k] == b.columns[k][..|b.columns[k]| - 1]
    ensures exists x | 0 <= x < 3 && x != k ::
      && r.columns[x] == b.columns[x] + [b.columns[k][|b.columns[k]| - 1]]
      && forall j | 0 <= j < 3 && j != k && j != x :: r.columns[j] == b.columns[j]
  {
    var i := |b.columns[k]| - 1;
    var nm := b.columns[k][i];
    TopIsUnique(b, k, nm);
    var x := MoveChoice(b, nm, k, pick);
    MoveTop(b, k, x);
    var moved := Move(b, nm, x).value;
    r := moved.(pushing := moved.pushing - {nm});
    TwoUpdates(b.columns, k, x, b.columns[k][..i], b.columns[x] + [nm]);
  }

  /** Updating two different columns leaves the third as it was. */
  lemma TwoUpdates(cols: seq<seq<Name>>, k: nat, x: nat, a: seq<Name>, c: seq<Name>)
    requires |cols| == 3 && k < 3 && x < 3 && k != x
    ensures var u := cols[k := a][x := c];
      && u[k] == a && u[x] == c
      && forall j | 0 <= j < 3 && j != k && j != x :: u[j] == cols[j]
  {
  }

  /** Contentment of one block depends only on the columns and the `pushing` flags. */
  lemma SameContentAt(b: Board, b': Board, nm: Name)
    requires b'.columns == b.columns && b'.pushing == b.pushing
    ensures Content(b', nm) <==> Content(b, nm)
  {
  }

  /** Contentment depends only on the columns and the `pushing` flags. */
  lemma SameContent(b: Board, b': Board)
    requires b'.columns == b.columns && b'.pushing == b.pushing
    ensures forall nm: Name :: Content(b', nm) <==> Content(b, nm)
  {
  }

  /**
   * The goal test: every block is content exactly when the board is the
   * tower D, C, B, A and none of B, C, D is pushing.
   */
  lemma GoalExactly(b: Board)
    requires WellFormed(b)
    ensures (forall nm: Name :: Content(b, nm)) <==> Stacked(b) && B !in b.pushing && C !in b.pushing && D !in b.pushing
  {
    if forall nm: Name :: Content(b, nm) {
      AllContentStacked(b);
    }
    if Stacked(b) && B !in b.pushing && C !in b.pushing && D !in b.pushing {
      StackedAllContent(b);
    }
  }

  /** Contentment of all four blocks forces the tower. */
  lemma AllContentStacked(b: Board)
    requires WellFormed(b) && forall nm: Name :: Content(b, nm)
    ensures Stacked(b) && B !in b.pushing && C !in b.pushing && D !in b.pushing
  {
    var kd, id := Present(b, D);
    ContentAt(b, kd, id);
    var kc, ic := Present(b, C);
    ContentAt(b, kc, ic);
    var kb, ib := Present(b, B);
    ContentAt(b, kb, ib);
    var ka, ia := Present(b, A);
    ContentAt(b, ka, ia);
    Chain(b, kd, id, kc, ic, kb, ib, ka, ia);
  }

  /** D on the floor with C, B, A each right above the one before is the whole tower. */
  lemma Chain(b: Board, kd: nat, id: nat, kc: nat, ic: nat, kb: nat, ib: nat, ka: nat, ia: nat)
    requires WellFormed(b) && kd < 3 && kc < 3 && kb < 3 && ka < 3
    requires id < |b.columns[kd]| && b.columns[kd][id] == D && id == 0
    requires 0 < ic < |b.columns[kc]| && b.columns[kc][ic] == C && b.columns[kc][ic - 1] == D
    requires 0 < ib < |b.columns[kb]| && b.columns[kb][ib] == B && b.columns[kb][ib - 1] == C
    requires 0 < ia < |b.columns[ka]| && b.columns[ka][ia] == A && b.columns[ka][ia - 1] == B
    ensures Stacked(b)
  {
    Unique(b, kc, ic - 1, kd, id);
    Unique(b, kb, ib - 1, kc, ic);
    Unique(b, ka, ia - 1, kb, ib);
    TowerColumn(b, kd);
  }

  /** A column starting D, C, B, A holds the whole tower, and the other columns are empty. */
  lemma TowerColumn(b: Board, k: nat)
    requires WellFormed(b) && k < 3 && 4 <= |b.columns[k]|
    requires b.columns[k][0] == D && b.columns[k][1] == C && b.columns[k][2] == B && b.columns[k][3] == A
    ensures Stacked(b)
  {
    var cols := b.columns;
    assert |multiset{A, B, C, D}| == 4;
    assert |cols[0]| + |cols[1]| + |cols[2]| == 4 by {
      assert |Stock(cols)| == |multiset(cols[0])| + |multiset(cols[1])| + |multiset(cols[2])|;
    }
    forall j | 0 <= j < 3 && j != k
      ensures cols[j] == []
    {
    }
    assert cols[k] == [D, C, B, A];
  }

  /** The tower with no pusher beneath the top block leaves every block content. */
  lemma StackedAllContent(b: Board)
    requires WellFormed(b) && Stacked(b) && B !in b.pushing && C !in b.pushing && D !in b.pushing
    ensures forall nm: Name :: Content(b, nm)
  {
    var k :| 0 <= k < 3 && b.columns[k] == [D, C, B, A] && forall j | 0 <= j < 3 && j != k :: b.columns[j] == [];
    forall nm: Name
      ensures Content(b, nm)
    {
      var i := match nm case D => 0 case C => 1 case B => 2 case A => 3;
      TowerContent(b, k, i);
    }
  }

  /** Each block of the goal tower, with no pusher in it below the top, is content. */
  lemma TowerContent(b: Board, k: nat, i: nat)
    requires WellFormed(b) && k < 3 && b.columns[k] == [D, C, B, A] && i < 4
    requires B !in b.pushing && C !in b.pushing && D !in b.pushing
    ensures Content(b, b.columns[k][i])
  {
    ContentAt(b, k, i);
  }

  /** A turn keeps or drops the block's `satisfied` flag as its perception decides. */
  lemma TurnSatisfied(b: Board, nm: Name, pick: nat)
    requires Turn(b, nm, pick).Ok?
    ensures nm in Turn(b, nm, pick).value.satisfied <==> Content(b, nm)
  {
    assert Turn(b, nm, pick) == Action(Perceive(b, nm), nm, pick);
  }

  /** One step of a pass: block `i` of column `k` takes its turn, then the pass goes on. */
  lemma PassUnfolds(b: Board, k: nat, i: nat, draws: nat -> nat, t: nat)
    requires WellFormed(b) && k < 3 && i < |b.columns[k]|
    ensures
      var nm := b.columns[k][i];
      var next := Turn(b, nm, draws(t));
      && next.Ok? && WellFormed(next.value)
      && var rest := Pass(next.value, k, i + 1, draws, t + 1);
         Pass(b, k, i, draws, t) == (rest.0, nm in next.value.satisfied && rest.1)
  {
    TurnKeeps(b, k, i, draws(t));
  }

  /** At the end of a column a pass goes on with the next one. */
  lemma PassSkips(b: Board, k: nat, i: nat, draws: nat -> nat, t: nat)
    requires WellFormed(b) && k < 3 && |b.columns[k]| <= i
    ensures Pass(b, k, i, draws, t) == Pass(b, k + 1, 0, draws, t)
  {
  }

  /** A pass that reports success moved no block and raised no `pushing` flag. */
  lemma {:induction false} PassReportsStill(b: Board, k: nat, i: nat, draws: nat -> nat, t: nat)
    requires WellFormed(b) && k <= 3 && Pass(b, k, i, draws, t).1
    ensures Pass(b, k, i, draws, t).0.columns == b.columns
    ensures Pass(b, k, i, draws, t).0.pushing == b.pushing
    decreases 3 - k, if k < 3 && i < |b.columns[k]| then |b.columns[k]| - i else 0
  {
    if k < 3 {
      if i >= |b.columns[k]| {
        PassSkips(b, k, i, draws, t);
        PassReportsStill(b, k + 1, 0, draws, t);
      } else {
        var nm := b.columns[k][i];
        PassUnfolds(b, k, i, draws, t);
        TurnSatisfied(b, nm, draws(t));
        TurnContent(b, nm, draws(t));
        PassReportsStill(Perceive(b, nm), k, i + 1, draws, t + 1);
      }
    }
  }

  /**
   * When a pass reports success, the block it is at was content, so its turn
   * only perceived, and the rest of the pass reports success too.
   */
  lemma PassContinues(b: Board, k: nat, i: nat, draws: nat -> nat, t: nat)
    requires WellFormed(b) && k < 3 && i < |b.columns[k]| && Pass(b, k, i, draws, t).1
    ensures Content(b, b.columns[k][i])
    ensures var next := Perceive(b, b.columns[k][i]); WellFormed(next) && Pass(next, k, i + 1, draws, t + 1).1
  {
    var nm := b.columns[k][i];
    PassUnfolds(b, k, i, draws, t);
    TurnSatisfied(b, nm, draws(t));
    TurnContent(b, nm, draws(t));
  }

  /** Contentment of the blocks from `i` on carries over to a board with the same columns and pushers. */
  lemma ContentCarries(b: Board, next: Board, k: nat, i: nat)
    requires WellFormed(b) && k < 3 && i < |b.columns[k]| && next.columns == b.columns && next.pushing == b.pushing
    requires Content(b, b.columns[k][i])
    requires forall j, l | k <= j < 3 && 0 <= l < |next.columns[j]| && (j > k || l >= i + 1) :: Content(next, next.columns[j][l])
    ensures forall j, l | k <= j < 3 && 0 <= l < |b.columns[j]| && (j > k || l >= i) :: Content(b, b.columns[j][l])
  {
    forall j, l | k <= j < 3 && 0 <= l < |b.columns[j]| && (j > k || l > i)
      ensures Content(b, b.columns[j][l])
    {
      SameContentAt(b, next, b.columns[j][l]);
    }
  }

  /** Every block met by a pass that reports success was content with the board the pass started from. */
  lemma {:induction false} PassReportsContent(b: Board, k: nat, i: nat, draws: nat -> nat, t: nat)
    requires WellFormed(b) && k <= 3 && Pass(b, k, i, draws, t).1
    ensures forall j, l | k <= j < 3 && 0 <= l < |b.columns[j]| && (j > k || l >= i) :: Content(b, b.columns[j][l])
    decreases 3 - k, if k < 3 && i < |b.columns[k]| then |b.columns[k]| - i else 0
  {
    if k < 3 {
      if i >= |b.columns[k]| {
        PassSkips(b, k, i, draws, t);
        PassReportsContent(b, k + 1, 0, draws, t);
      } else {
        var nm := b.columns[k][i];
        PassContinues(b, k, i, draws, t);
        var next := Perceive(b, nm);
        PassReportsContent(next, k, i + 1, draws, t + 1);
        ContentCarries(b, next, k, i);
      }
    }
  }

  /** On a board where every block is content, a pass moves nothing and reports success. */
  lemma {:induction false} PassSettled(b: Board, k: nat, i: nat, draws: nat -> nat, t: nat)
    requires WellFormed(b) && k <= 3 && forall nm: Name :: Content(b, nm)
    ensures Pass(b, k, i, draws, t).1
    ensures Pass(b, k, i, draws, t).0.columns == b.columns
    decreases 3 - k, if k < 3 && i < |b.columns[k]| then |b.columns[k]| - i else 0
  {
    if k < 3 {
      if i >= |b.columns[k]| {
        PassSkips(b, k, i, draws, t);
        PassSettled(b, k + 1, 0, draws, t);
      } else {
        var nm := b.columns[k][i];
        PassUnfolds(b, k, i, draws, t);
        TurnContent(b, nm, draws(t));
        var next := Perceive(b, nm);
        SameContent(b, next);
        PassSettled(next, k, i + 1, draws, t + 1);
      }
    }
  }

  /**
   * The main loop stops after a pass exactly when the board, as the pass
   * found it, is the goal tower with none of B, C, D pushing; the pass then
   * leaves the tower standing.
   */
  lemma SweepStops(b: Board, draws: nat -> nat)
    requires WellFormed(b)
    ensures Sweep(b, draws).1 <==> Stacked(b) && B !in b.pushing && C !in b.pushing && D !in b.pushing
    ensures Sweep(b, draws).1 ==> Stacked(Sweep(b, draws).0)
  {
    GoalExactly(b);
    if Sweep(b, draws).1 {
      PassReportsStill(b, 0, 0, draws, 0);
      PassReportsContent(b, 0, 0, draws, 0);
      forall nm: Name
        ensures Content(b, nm)
      {
        var k, i := Present(b, nm);
      }
    }
    if Stacked(b) && B !in b.pushing && C !in b.pushing && D !in b.pushing {
      PassSettled(b, 0, 0, draws, 0);
    }
  }
}
