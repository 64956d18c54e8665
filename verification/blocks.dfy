/**
 * The blocks world: four named blocks on three columns. Each block is an
 * agent that perceives the block beneath it and then stays, pushes or moves;
 * the goal is the single tower D, C, B, A, listed from bottom to top.
 * Blocks compare by name, so a block is its `Name` here and its three flags
 * are kept as the sets of names for which they are set.
 */
module Blocks {
  import opened Results
  import Seqs

  datatype Name = A | B | C | D

  /**
   * The columns, each listed from bottom to top, and the flags `satisfied`,
   * `pushing` and `free` of every block.
   */
  datatype Board = Board(columns: seq<seq<Name>>, satisfied: set<Name>, pushing: set<Name>, free: set<Name>)

  /** The blocks standing on three columns, as a bag. */
  function Stock(cols: seq<seq<Name>>): multiset<Name>
    requires |cols| == 3
  {
    multiset(cols[0]) + multiset(cols[1]) + multiset(cols[2])
  }

  /** Three columns holding each of the four blocks exactly once. */
  predicate WellFormed(b: Board) {
    |b.columns| == 3 && Stock(b.columns) == multiset{A, B, C, D}
  }

  /** The starting board: B, D, A, C on the first column, the others empty, no flag set. */
  function Initial(): (b: Board)
    ensures WellFormed(b)
    ensures b.satisfied == b.pushing == b.free == {}
  {
    Board([[B, D, A, C], [], []], {}, {}, {})
  }

  /** The goal: the tower D, C, B, A (bottom to top) on one column, the other two empty. */
  predicate Stacked(b: Board) {
    |b.columns| == 3 &&
    exists k | 0 <= k < 3 :: b.columns[k] == [D, C, B, A] && forall j | 0 <= j < 3 && j != k :: b.columns[j] == []
  }

  /** `nm` is the top block of `col`. */
  predicate OnTop(col: seq<Name>, nm: Name) {
    |col| > 0 && col[|col| - 1] == nm
  }

  /** The first column from `from` on whose top is `nm`. */
  function FirstTop(cols: seq<seq<Name>>, nm: Name, from: nat): (r: Option<nat>)
    requires from <= |cols|
    ensures r.Some? <==> exists k | from <= k < |cols| :: OnTop(cols[k], nm)
    ensures r.Some? ==> from <= r.value < |cols| && OnTop(cols[r.value], nm)
    ensures r.Some? ==> forall k | from <= k < r.value :: !OnTop(cols[k], nm)
    decreases |cols| - from
  {
    if from == |cols| then None
    else if OnTop(cols[from], nm) then Some(from)
    else FirstTop(cols, nm, from + 1)
  }

  /** `column`: the index of the first column topped by `nm`, None when none is. */
  function Column(b: Board, nm: Name): (r: Option<nat>)
    ensures r.Some? <==> exists k | 0 <= k < |b.columns| :: OnTop(b.columns[k], nm)
    ensures r.Some? ==> r.value < |b.columns| && OnTop(b.columns[r.value], nm)
    ensures r.Some? ==> forall k | 0 <= k < r.value :: !OnTop(b.columns[k], nm)
  {
    FirstTop(b.columns, nm, 0)
  }

  /** `can_move`: some column is topped by `nm`. */
  function CanMove(b: Board, nm: Name): (r: bool)
    ensures r <==> exists k | 0 <= k < |b.columns| :: OnTop(b.columns[k], nm)
  {
    Column(b, nm).Some?
  }

  /** The block directly beneath `nm` in the first column from `from` that holds `nm`. */
  function UnderFrom(cols: seq<seq<Name>>, nm: Name, from: nat): (r: Option<Name>)
    requires from <= |cols|
    ensures r.Some? ==>
      exists k, i | from <= k < |cols| && 0 < i < |cols[k]| :: cols[k][i] == nm && cols[k][i - 1] == r.value
    decreases |cols| - from
  {
    if from == |cols| then None
    else if nm in cols[from] then
      var i := Seqs.IndexOf(cols[from], nm);
      if i == 0 then None else Some(cols[from][i - 1])
    else UnderFrom(cols, nm, from + 1)
  }

  /**
   * `find_under`: the block directly beneath `nm`; None when `nm` stands at
   * the bottom of its column or on no column at all.
   */
  function FindUnder(b: Board, nm: Name): (r: Option<Name>)
    ensures r.Some? ==>
      exists k, i | 0 <= k < |b.columns| && 0 < i < |b.columns[k]| :: b.columns[k][i] == nm && b.columns[k][i - 1] == r.value
  {
    UnderFrom(b.columns, nm, 0)
  }

  /** `goal_over`: the block each block should stand on; D belongs on the floor. */
  function GoalUnder(nm: Name): (r: Option<Name>)
    ensures r.None? <==> nm == D
  {
    match nm
    case A => Some(B)
    case B => Some(C)
    case C => Some(D)
    case D => None
  }

  /**
   * What `perceive` sets `satisfied` to: `nm` stands on its goal block (or
   * on the floor, for D), and that block is not pushing.
   */
  predicate Content(b: Board, nm: Name) {
    var under := FindUnder(b, nm);
    under == GoalUnder(nm) && (under.None? || under.value !in b.pushing)
  }

  /** `push`: the block raises its `pushing` flag. */
  function Push(b: Board, nm: Name): (r: Board)
    ensures nm in r.pushing
    ensures r == b.(pushing := r.pushing) && r.pushing - {nm} == b.pushing - {nm}
  {
    b.(pushing := b.pushing + {nm})
  }

  /** `perceive`: `nm` recomputes its `satisfied` and `free` flags; nothing else changes. */
  function Perceive(b: Board, nm: Name): (r: Board)
    ensures r.columns == b.columns && r.pushing == b.pushing
    ensures r.satisfied - {nm} == b.satisfied - {nm} && r.free - {nm} == b.free - {nm}
    ensures nm in r.satisfied <==> Content(b, nm)
    ensures nm in r.free <==> CanMove(b, nm)
  {
    b.(satisfied := if Content(b, nm) then b.satisfied + {nm} else b.satisfied - {nm},
       free := if CanMove(b, nm) then b.free + {nm} else b.free - {nm})
  }

  /** The column `col` without its top block when that block is `nm`. */
  function Pop(col: seq<Name>, nm: Name): (r: seq<Name>)
    ensures OnTop(col, nm) ==> r + [nm] == col
    ensures !OnTop(col, nm) ==> r == col
  {
    if OnTop(col, nm) then col[..|col| - 1] else col
  }

  /** Every column with its top taken off when that top is `nm`. */
  function PopAll(cols: seq<seq<Name>>, nm: Name): (r: seq<seq<Name>>)
    ensures |r| == |cols|
    ensures forall k | 0 <= k < |cols| :: r[k] == Pop(cols[k], nm)
  {
    seq(|cols|, k requires 0 <= k < |cols| => Pop(cols[k], nm))
  }

  /**
   * `move`: every column topped by `nm` loses its top, then `nm` goes on top
   * of column `x`; an `x` past the last column fails.
   */
  function Move(b: Board, nm: Name, x: nat): (r: Result<Board>)
    ensures r.Ok? <==> x < |b.columns|
    ensures r.Ok? ==> |r.value.columns| == |b.columns| && OnTop(r.value.columns[x], nm)
    ensures r.Ok? ==> r.value == b.(columns := r.value.columns)
  {
    if x < |b.columns| then
      var popped := PopAll(b.columns, nm);
      Ok(b.(columns := popped[x := popped[x] + [nm]]))
    else Err(NoColumn)
  }

  /** `list({0, 1, 2} - {c})`: the columns other than `c`, in increasing order. */
  function Others(c: Option<nat>): (r: seq<nat>)
    ensures forall x | x in r :: x < 3 && c != Some(x)
    ensures forall x: nat | x < 3 && c != Some(x) :: x in r
    ensures 2 <= |r|
  {
    (if c == Some(0) then [] else [0]) + (if c == Some(1) then [] else [1]) + (if c == Some(2) then [] else [2])
  }

  /**
   * `action`: a satisfied block stays; a free one moves to one of the other
   * columns, `pick` standing for `random.choice`'s choice among them, and
   * stops pushing; any other block pushes.
   */
  function Action(b: Board, nm: Name, pick: nat): (r: Result<Board>)
    ensures nm in b.satisfied ==> r == Ok(b)
    ensures nm !in b.satisfied && nm !in b.free ==> r == Ok(Push(b, nm))
    ensures nm !in b.satisfied && nm in b.free && r.Ok? ==> nm !in r.value.pushing
    ensures r.Ok? ==> r.value.satisfied == b.satisfied && r.value.free == b.free
    ensures r.Ok? ==> |r.value.columns| == |b.columns|
  {
    if nm in b.satisfied then Ok(b)
    else if nm in b.free then
      var others := Others(Column(b, nm));
      var moved :- Move(b, nm, others[pick % |others|]);
      Ok(moved.(pushing := moved.pushing - {nm}))
    else Ok(Push(b, nm))
  }

  /** One turn of block `nm` in the main loop: it perceives, then acts. */
  function Turn(b: Board, nm: Name, pick: nat): (r: Result<Board>)
    ensures r.Ok? ==> (nm in r.value.satisfied <==> Content(b, nm))
    ensures Content(b, nm) ==> r == Ok(Perceive(b, nm))
    ensures !Content(b, nm) && !CanMove(b, nm) ==> r == Ok(Push(Perceive(b, nm), nm))
  {
    Action(Perceive(b, nm), nm, pick)
  }

  /** A value found at two positions of a list occurs in it at least twice. */
  lemma TwiceAt(s: seq<Name>, i: nat, j: nat)
    requires i < j < |s| && s[i] == s[j]
    ensures multiset(s)[s[i]] >= 2
  {
    assert s == s[..j] + [s[j]] + s[j + 1..];
    assert s[..j][i] == s[i];
    assert multiset(s) == multiset(s[..j]) + multiset{s[j]} + multiset(s[j + 1..]);
  }

  /** On a well-formed board every block stands in one place only. */
  lemma Unique(b: Board, k: nat, i: nat, k': nat, i': nat)
    requires WellFormed(b) && k < 3 && k' < 3 && i < |b.columns[k]| && i' < |b.columns[k']|
    requires b.columns[k][i] == b.columns[k'][i']
    ensures k == k' && i == i'
  {
    OnceInStock(b, b.columns[k][i]);
    OnceApart(b.columns, k, i, k', i');
  }

  /** A name that the three columns hold once between them stands in one place only. */
  lemma OnceApart(cols: seq<seq<Name>>, k: nat, i: nat, k': nat, i': nat)
    requires |cols| == 3 && k < 3 && k' < 3 && i < |cols[k]| && i' < |cols[k']|
    requires cols[k][i] == cols[k'][i']
    requires multiset(cols[0])[cols[k][i]] + multiset(cols[1])[cols[k][i]] + multiset(cols[2])[cols[k][i]] == 1
    ensures k == k' && i == i'
  {
    if k == k' {
      if i < i' {
        TwiceAt(cols[k], i, i');
      } else if i' < i {
        TwiceAt(cols[k], i', i);
      }
    }
  }

  /** On a well-formed board the three columns hold each block once between them. */
  lemma OnceInStock(b: Board, x: Name)
    requires WellFormed(b)
    ensures multiset(b.columns[0])[x] + multiset(b.columns[1])[x] + multiset(b.columns[2])[x] == 1
  {
    assert Stock(b.columns)[x] == 1 by {
      match x
      case A =>
      case B =>
      case C =>
      case D =>
    }
  }

  /** On a well-formed board every block stands somewhere. */
  lemma Present(b: Board, nm: Name) returns (k: nat, i: nat)
    requires WellFormed(b)
    ensures k < 3 && i < |b.columns[k]| && b.columns[k][i] == nm
  {
    assert nm in Stock(b.columns);
    if nm in b.columns[0] {
      k := 0;
    } else if nm in b.columns[1] {
      k := 1;
    } else {
      k := 2;
    }
    i := Seqs.IndexOf(b.columns[k], nm);
  }

  /** Only the column a block tops has it on top. */
  lemma TopIsUnique(b: Board, k: nat, nm: Name)
    requires WellFormed(b) && k < 3 && OnTop(b.columns[k], nm)
    ensures forall j | 0 <= j < 3 && j != k :: !OnTop(b.columns[j], nm)
    ensures Column(b, nm) == Some(k)
  {
    forall j | 0 <= j < 3 && OnTop(b.columns[j], nm)
      ensures j == k
    {
      Unique(b, j, |b.columns[j]| - 1, k, |b.columns[k]| - 1);
    }
  }

  /**
   * Moving the top block of column `k` onto column `x` takes it off `k` and
   * stacks it on `x`; the board stays well formed.
   */
  lemma MoveTop(b: Board, k: nat, x: nat)
    requires WellFormed(b) && k < 3 && x < 3 && |b.columns[k]| > 0
    ensures
      var cols := b.columns;
      var nm := cols[k][|cols[k]| - 1];
      var r := Move(b, nm, x);
      && r.Ok? && WellFormed(r.value)
      && r.value.columns == if k == x then cols else cols[k := cols[k][..|cols[k]| - 1]][x := cols[x] + [nm]]
  {
    var cols := b.columns;
    var n := |cols[k]| - 1;
    var nm := cols[k][n];
    PopTop(b, k);
    var popped := cols[k := cols[k][..n]];
    assert Move(b, nm, x) == Ok(b.(columns := popped[x := popped[x] + [nm]]));
    assert cols[k] == cols[k][..n] + [nm];
    if k != x {
      assert popped[x] == cols[x];
      StockShift(cols, k, x, cols[k][..n], nm);
    } else {
      assert popped[x := popped[x] + [nm]] == cols;
    }
  }

  /** On a well-formed board, taking off every column's top that is `nm`, the top of column `k`, only shortens column `k`. */
  lemma PopTop(b: Board, k: nat)
    requires WellFormed(b) && k < 3 && |b.columns[k]| > 0
    ensures var cols := b.columns;
      PopAll(cols, cols[k][|cols[k]| - 1]) == cols[k := cols[k][..|cols[k]| - 1]]
  {
    var cols := b.columns;
    var n := |cols[k]| - 1;
    var nm := cols[k][n];
    TopIsUnique(b, k, nm);
    forall j | 0 <= j < 3
      ensures PopAll(cols, nm)[j] == cols[k := cols[k][..n]][j]
    {
    }
  }

  /** Taking the top off one column and stacking it on another keeps the bag of blocks. */
  lemma StockShift(cols: seq<seq<Name>>, k: nat, x: nat, rest: seq<Name>, nm: Name)
    requires |cols| == 3 && k < 3 && x < 3 && k != x && cols[k] == rest + [nm]
    ensures Stock(cols[k := rest][x := cols[x] + [nm]]) == Stock(cols)
  {
    var cols' := cols[k := rest][x := cols[x] + [nm]];
    assert multiset(cols[k]) == multiset(rest) + multiset{nm};
    assert multiset(cols'[x]) == multiset(cols[x]) + multiset{nm};
    assert multiset(cols'[k]) == multiset(rest);
  }

  /**
   * A turn of a block on a well-formed board succeeds, keeps the board well
   * formed, and never lengthens the block's own column.
   */
  lemma TurnKeeps(b: Board, k: nat, i: nat, pick: nat)
    requires WellFormed(b) && k < 3 && i < |b.columns[k]|
    ensures
      var r := Turn(b, b.columns[k][i], pick);
      r.Ok? && WellFormed(r.value) && |r.value.columns[k]| <= |b.columns[k]|
  {
    var nm := b.columns[k][i];
    var p := Perceive(b, nm);
    if nm in p.free {
      var c := Column(b, nm).value;
      Unique(b, c, |b.columns[c]| - 1, k, i);
    }
    ActionKeeps(p, k, i, pick);
    assert Turn(b, nm, pick) == Action(p, nm, pick);
  }

  /** An action by a block that is free only when on top keeps the board well formed. */
  lemma ActionKeeps(b: Board, k: nat, i: nat, pick: nat)
    requires WellFormed(b) && k < 3 && i < |b.columns[k]|
    requires b.columns[k][i] in b.free ==> i == |b.columns[k]| - 1
    ensures
      var r := Action(b, b.columns[k][i], pick);
      r.Ok? && WellFormed(r.value) && |r.value.columns[k]| <= |b.columns[k]|
  {
    var nm := b.columns[k][i];
    if nm !in b.satisfied && nm in b.free {
      TopIsUnique(b, k, nm);
      var x := MoveChoice(b, nm, k, pick);
      MoveTop(b, k, x);
    }
  }

  /** A free, unsatisfied block acts by moving from its column `k` to another column `x`, and stops pushing. */
  lemma MoveChoice(b: Board, nm: Name, k: nat, pick: nat) returns (x: nat)
    requires |b.columns| == 3 && nm !in b.satisfied && nm in b.free && Column(b, nm) == Some(k)
    ensures x < 3 && x != k && Move(b, nm, x).Ok?
    ensures Action(b, nm, pick) == Ok(Move(b, nm, x).value.(pushing := Move(b, nm, x).value.pushing - {nm}))
  {
    var others := Others(Some(k));
    x := others[pick % |others|];
    assert x in others;
  }


  /**
   * The rest of one pass of the main loop, from block `i` of column `k` on:
   * each block met, column by column and bottom to top, takes its turn with
   * `draws(t)` as its random choice, `t` counting turns. Columns are walked by
   * position, as Python's list iterator walks them, so a column that loses
   * its top under the walk ends one step early. The flag reports whether
   * every block met was satisfied.
   */
  function Pass(b: Board, k: nat, i: nat, draws: nat -> nat, t: nat): (r: (Board, bool))
    requires WellFormed(b) && k <= 3
    ensures WellFormed(r.0)
    decreases 3 - k, if k < 3 && i < |b.columns[k]| then |b.columns[k]| - i else 0
  {
    if k == 3 then (b, true)
    else if i >= |b.columns[k]| then Pass(b, k + 1, 0, draws, t)
    else
      var nm := b.columns[k][i];
      TurnKeeps(b, k, i, draws(t));
      var next := Turn(b, nm, draws(t)).value;
      var rest := Pass(next, k, i + 1, draws, t + 1);
      (rest.0, nm in next.satisfied && rest.1)
  }

  /** One pass of the main loop over the whole board; the loop stops after a pass that reports true. */
  function Sweep(b: Board, draws: nat -> nat): (r: (Board, bool))
    requires WellFormed(b)
    ensures WellFormed(r.0)
  {
    Pass(b, 0, 0, draws, 0)
  }
}
