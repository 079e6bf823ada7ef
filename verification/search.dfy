/** The minimax evaluator of the computer player, and the plain minimax it
    is measured against. Scores are from X's point of view: 1 when X wins
    under best play, -1 when O does, 0 for a draw. */
module Search {
  import opened GameBoard

  predicate IsScore(v: int) {
    -1 <= v <= 1
  }

  /** The value of a finished board: 1 for an X win, -1 for an O win,
      0 when nobody has won. */
  function Score(w: Option<Win>): (v: int)
    ensures v == 1 <==> w.Some? && w.value.symbol == X
    ensures v == -1 <==> w.Some? && w.value.symbol == O
    ensures v == 0 <==> w.None?
  {
    match w
    case None => 0
    case Some(win) => if win.symbol == X then 1 else -1
  }

  /** The best score the side to move can reach: X maximises, O minimises. */
  function Goal(team: Symbol): int {
    if team == X then 1 else -1
  }

  /** The bound a search for `team` starts from: the worst score for it. */
  function Bound(team: Symbol): int {
    -Goal(team)
  }

  /** `a` strictly improves on `v` for `team`. */
  predicate Better(team: Symbol, a: int, v: int) {
    if team == X then a > v else a < v
  }

  /** minimax(boardCopy, team). A finished board is scored directly;
      otherwise the free positions are tried in ascending order. */
  function Minimax(b: Board, team: Symbol): (r: int)
    ensures IsScore(r)
    ensures Terminal(b) ==> (r == 1 <==> Winner(b).Some? && Winner(b).value.symbol == X)
    ensures Terminal(b) ==> (r == -1 <==> Winner(b).Some? && Winner(b).value.symbol == O)
    ensures Terminal(b) ==> (r == 0 <==> Winner(b).None?)
    decreases |FreeSpaces(b)|, 1, 0
  {
    if Terminal(b) then Score(Winner(b))
    else Scan(b, team, FreeSpaces(b), 0, Bound(team))
  }

  /** The loop of minimax from free position number `i` on, with running
      best `value`: it stops at the first child worth the goal of `team`. */
  function Scan(b: Board, team: Symbol, fs: seq<Index>, i: nat, value: int): (r: int)
    requires fs == FreeSpaces(b) && i <= |fs| && IsScore(value)
    ensures IsScore(r)
    decreases |FreeSpaces(b)|, 0, |fs| - i
  {
    if i == |fs| then value
    else
      var moveValue := Minimax(MoveResult(b, team, fs[i]), Other(team));
      if moveValue == Goal(team) then Goal(team)
      else Scan(b, team, fs, i + 1, if Better(team, moveValue, value) then moveValue else value)
  }

  /** The value of playing `team` at `index`, with the opponent to move next. */
  function ChildValue(b: Board, team: Symbol, index: int): int {
    Minimax(MoveResult(b, team, index), Other(team))
  }

  /** The values of all moveResult children, in ascending order of the
      free positions they play. */
  function ChildValues(b: Board, team: Symbol): (vs: seq<int>)
    ensures |vs| == |FreeSpaces(b)|
  {
    var fs := FreeSpaces(b);
    seq(|fs|, k requires 0 <= k < |fs| => ChildValue(b, team, fs[k]))
  }

  lemma ChildValueAt(b: Board, team: Symbol, k: nat)
    requires k < |FreeSpaces(b)|
    ensures ChildValues(b, team)[k] == ChildValue(b, team, FreeSpaces(b)[k])
  {
  }

  // ---------------------------------------------- the plain minimax reference

  /** The better of two scores for `team`. */
  function Pick(team: Symbol, a: int, c: int): int {
    if team == X then (if a >= c then a else c) else (if a <= c then a else c)
  }

  /** Textbook minimax without the early exit: every child is evaluated. */
  function Value(b: Board, team: Symbol): (r: int)
    ensures IsScore(r)
    decreases |FreeSpaces(b)|, 1, 0
  {
    if Terminal(b) then Score(Winner(b))
    else Extreme(b, team, FreeSpaces(b), 0)
  }

  /** The best child value for `team` among free positions `i` on, or the
      starting bound when there are none. */
  function Extreme(b: Board, team: Symbol, fs: seq<Index>, i: nat): (r: int)
    requires fs == FreeSpaces(b) && i <= |fs|
    ensures IsScore(r)
    decreases |FreeSpaces(b)|, 0, |fs| - i
  {
    if i == |fs| then Bound(team)
    else Pick(team, Value(MoveResult(b, team, fs[i]), Other(team)), Extreme(b, team, fs, i + 1))
  }

  /** The early exit changes nothing: minimax equals plain minimax on
      every board and for either side to move. */
  lemma {:induction false} MinimaxIsPlainMinimax(b: Board, team: Symbol)
    ensures Minimax(b, team) == Value(b, team)
    decreases |FreeSpaces(b)|, 1, 0
  {
    if !Terminal(b) {
      ScanIsExtreme(b, team, FreeSpaces(b), 0, Bound(team));
    }
  }

  lemma {:induction false} ScanIsExtreme(b: Board, team: Symbol, fs: seq<Index>, i: nat, value: int)
    requires fs == FreeSpaces(b) && i <= |fs| && IsScore(value)
    ensures Scan(b, team, fs, i, value) == Pick(team, value, Extreme(b, team, fs, i))
    decreases |FreeSpaces(b)|, 0, |fs| - i
  {
    if i < |fs| {
      var child := MoveResult(b, team, fs[i]);
      MinimaxIsPlainMinimax(child, Other(team));
      var moveValue := Minimax(child, Other(team));
      if moveValue != Goal(team) {
        ScanIsExtreme(b, team, fs, i + 1, if Better(team, moveValue, value) then moveValue else value);
      }
    }
  }

  // ------------------------------------------ minimax picks the best child

  /** What the loop of minimax returns from position number `i` on: nothing
      it skipped beats the result, and the result is the running best or
      the value of a child it visited. */
  lemma {:induction false} ScanIsBest(b: Board, team: Symbol, fs: seq<Index>, i: nat, value: int)
    requires fs == FreeSpaces(b) && i <= |fs| && IsScore(value)
    ensures forall k :: i <= k < |fs| ==> !Better(team, ChildValue(b, team, fs[k]), Scan(b, team, fs, i, value))
    ensures !Better(team, value, Scan(b, team, fs, i, value))
    ensures Scan(b, team, fs, i, value) == value
            || exists k :: i <= k < |fs| && ChildValue(b, team, fs[k]) == Scan(b, team, fs, i, value)
    decreases |fs| - i
  {
    if i < |fs| {
      var moveValue := ChildValue(b, team, fs[i]);
      if moveValue != Goal(team) {
        ScanIsBest(b, team, fs, i + 1, if Better(team, moveValue, value) then moveValue else value);
      } else {
        forall k | i <= k < |fs|
          ensures !Better(team, ChildValue(b, team, fs[k]), Scan(b, team, fs, i, value))
        {
          assert IsScore(ChildValue(b, team, fs[k]));
        }
      }
    }
  }

  /** Minimax on a board in play against the value of each child. */
  lemma MinimaxAgainstChildren(b: Board, team: Symbol)
    requires !Terminal(b)
    ensures forall k :: 0 <= k < |FreeSpaces(b)| ==>
              !Better(team, ChildValue(b, team, FreeSpaces(b)[k]), Minimax(b, team))
    ensures exists k :: 0 <= k < |FreeSpaces(b)| && ChildValue(b, team, FreeSpaces(b)[k]) == Minimax(b, team)
  {
    var fs := FreeSpaces(b);
    ScanIsBest(b, team, fs, 0, Bound(team));
    if Minimax(b, team) == Bound(team) {
      assert IsScore(ChildValue(b, team, fs[0]));
      assert ChildValue(b, team, fs[0]) == Minimax(b, team);
    }
  }

  /** On a board still in play, minimax is the maximum (X to move) or the
      minimum (O to move) of the values of its moveResult children. */
  lemma MinimaxIsBestChild(b: Board, team: Symbol)
    requires !Terminal(b)
    ensures forall k :: 0 <= k < |ChildValues(b, team)| ==> !Better(team, ChildValues(b, team)[k], Minimax(b, team))
    ensures exists k :: 0 <= k < |ChildValues(b, team)| && ChildValues(b, team)[k] == Minimax(b, team)
  {
    var fs := FreeSpaces(b);
    var vs := ChildValues(b, team);
    var m := Minimax(b, team);
    MinimaxAgainstChildren(b, team);
    forall k | 0 <= k < |vs|
      ensures !Better(team, vs[k], m)
    {
      ChildValueAt(b, team, k);
    }
    var k :| 0 <= k < |fs| && ChildValue(b, team, fs[k]) == m;
    ChildValueAt(b, team, k);
  }

  // ------------------------------------------------------ immediate wins

  /** Playing `team` at the blank `i` completes a line through `i`. */
  predicate CompletesLine(b: Board, team: Symbol, i: Index) {
    b[i] == Empty && exists l :: l in Lines && OnLine(l, i) && Completed(b[i := team], l)
  }

  /** After a winning move on a board nobody has won yet, the winner is the
      side that moved. */
  lemma WinningMoveWins(b: Board, team: Symbol, i: Index)
    requires Winner(b).None? && CompletesLine(b, team, i)
    ensures Winner(MoveResult(b, team, i)).Some?
    ensures Winner(MoveResult(b, team, i)).value.symbol == team
  {
    var child := MoveResult(b, team, i);
    assert child == b[i := team];
    var l :| l in Lines && OnLine(l, i) && Completed(child, l);
    assert Winner(child).Some?;
    var line := Winner(child).value.line;
    assert !Completed(b, line);
    assert OnLine(line, i);
  }

  /** When the side to move can complete a line, minimax returns its goal:
      1 with X to move, -1 with O to move. */
  lemma ImmediateWin(b: Board, team: Symbol, i: Index)
    requires !Terminal(b) && CompletesLine(b, team, i)
    ensures Minimax(b, team) == Goal(team)
  {
    WinningMoveWins(b, team, i);
    var fs := FreeSpaces(b);
    var k :| 0 <= k < |fs| && fs[k] == i;
    assert ChildValues(b, team)[k] == Goal(team);
    MinimaxIsBestChild(b, team);
  }
}
