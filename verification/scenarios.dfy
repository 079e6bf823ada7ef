/** Concrete positions: the threat X must take, a drawn full board, each
    line detected on its own, and the scan order deciding between two
    completed lines. Lemmas about a fixed board take it as a parameter `b`
    equal to the constant, so the verifier reasons about `b` step by step
    instead of unfolding the whole literal board in every fact. */
module Scenarios {
  import opened GameBoard
  import opened Search
  import opened Players

  /** X X _ / O O _ / _ _ _ : either side to move can complete its row. */
  const RowThreat: Board := [X, X, Empty, O, O, Empty, Empty, Empty, Empty]

  /** X O X / X O O / O X X : full, and no line completed. */
  const DrawnBoard: Board := [X, O, X, X, O, O, O, X, X]

  /** X X X / X O O / X O O : row 0 and column 0 are both completed. */
  const DoubleLine: Board := [X, X, X, X, O, O, X, O, O]

  /** The empty board with the three cells of `l` set to `s`. */
  function LineBoard(l: Line, s: Symbol): (b: Board)
    ensures forall i :: 0 <= i < 9 ==> b[i] == if OnLine(l, i) then s else Empty
  {
    EmptyBoard[l.a := s][l.b := s][l.c := s]
  }

  /** The row threat is still in play; its free positions are 2, 5, 6, 7
      and 8, in that order. */
  lemma RowThreatInPlay(b: Board)
    requires b == RowThreat
    ensures !Terminal(b)
    ensures FreeSpaces(b) == [2, 5, 6, 7, 8]
  {
    assert forall l :: l in Lines ==> !Completed(b, l);
  }

  /** X completes row 0 by playing 2; O completes row 1 by playing 5. */
  lemma RowThreatCompletions(b: Board)
    requires b == RowThreat
    ensures CompletesLine(b, X, 2) && CompletesLine(b, O, 5)
  {
    var row0, row1 := Line(0, 1, 2), Line(3, 4, 5);
    assert row0 == Lines[0] && row1 == Lines[2];
    assert OnLine(row0, 2) && Completed(b[2 := X], row0);
    assert OnLine(row1, 5) && Completed(b[5 := O], row1);
  }

  /** X to move on the row threat: the value is 1. */
  lemma RowThreatWonForX(b: Board)
    requires b == RowThreat
    ensures Minimax(b, X) == 1
  {
    RowThreatInPlay(b);
    RowThreatCompletions(b);
    ImmediateWin(b, X, 2);
  }

  /** O to move on the row threat: the value is -1. */
  lemma RowThreatWonForO(b: Board)
    requires b == RowThreat
    ensures Minimax(b, O) == -1
  {
    RowThreatInPlay(b);
    RowThreatCompletions(b);
    ImmediateWin(b, O, 5);
  }

  /** Playing X at 2 on the row threat is worth 1. */
  lemma RowThreatFirstChild(b: Board)
    requires b == RowThreat
    ensures FreeSpaces(b)[0] == 2 && ChildValues(b, X)[0] == 1
  {
    RowThreatInPlay(b);
    RowThreatCompletions(b);
    WinningMoveWins(b, X, 2);
    ChildValueAt(b, X, 0);
  }

  /** On the row threat, the computer on "impossible" plays X at 2,
      whatever the two draws are. */
  method ImpossibleTakesTheRow(r: real, u: real) returns (after: Board)
    requires 0.0 <= r < 1.0 && 0.0 <= u < 1.0
    ensures after == RowThreat[2 := X]
  {
    var b := RowThreat;
    var p := CreatePlayer("computer", "c", X, "impossible");
    RowThreatInPlay(b);
    RowThreatFirstChild(b);
    var q;
    q, after := ComputerPlay(p, b, r, u);
  }

  /** The drawn board is over, nobody has won, and it is worth 0. */
  lemma DrawnBoardIsADraw()
    ensures Terminal(DrawnBoard) && Winner(DrawnBoard).None?
    ensures FreeSpaces(DrawnBoard) == []
    ensures Minimax(DrawnBoard, X) == 0 && Minimax(DrawnBoard, O) == 0
  {
  }

  /** On a new board positions 5 to 8 are free. */
  lemma EmptyBoardTail(b: Board)
    requires b == EmptyBoard
    ensures FreeFrom(b, 5) == [5, 6, 7, 8]
  {
  }

  /** No line of a new board is completed. */
  lemma EmptyBoardHasNoWinner(b: Board)
    requires b == EmptyBoard
    ensures Winner(b).None?
  {
    assert forall l :: l in Lines ==> !Completed(b, l);
  }

  /** The scan of a new board lists every position. */
  lemma EmptyBoardScan(b: Board)
    requires b == EmptyBoard
    ensures FreeFrom(b, 0) == [0, 1, 2, 3, 4, 5, 6, 7, 8]
  {
    EmptyBoardTail(b);
  }

  /** A new board is in play with all nine positions free. */
  lemma EmptyBoardInPlay(b: Board)
    requires b == EmptyBoard
    ensures FreeSpaces(b) == [0, 1, 2, 3, 4, 5, 6, 7, 8]
    ensures !Terminal(b)
  {
    EmptyBoardHasNoWinner(b);
    EmptyBoardScan(b);
  }

  /** Two different lines share at most one position, so a line filled
      alone leaves every other line with a blank. */
  lemma LoneLineOnly(j: nat, s: Symbol)
    requires j < |Lines|
    ensures Completed(LineBoard(Lines[j], s), Lines[j])
    ensures forall m :: 0 <= m < |Lines| && m != j ==> !Completed(LineBoard(Lines[j], s), Lines[m])
  {
    var b := LineBoard(Lines[j], s);
    forall m | 0 <= m < |Lines| && m != j
      ensures !Completed(b, Lines[m])
    {
      var l := Lines[m];
      assert !OnLine(Lines[j], l.a) || !OnLine(Lines[j], l.b) || !OnLine(Lines[j], l.c);
    }
  }

  /** Each of the eight lines, filled alone with one marker, is found with
      that marker and recorded as the win line. */
  lemma LoneLineWins(j: nat, s: Symbol)
    requires j < |Lines|
    ensures Winner(LineBoard(Lines[j], s)) == Some(Win(s, Lines[j]))
  {
    LoneLineOnly(j, s);
  }

  /** With row 0 and column 0 both completed, the scan records row 0. */
  lemma ScanOrderPicksRowFirst()
    ensures Winner(DoubleLine) == Some(Win(X, Line(0, 1, 2)))
    ensures Completed(DoubleLine, Line(0, 3, 6))
  {
  }

  /** A rejected human move: the cell is taken, so the flag stays. */
  method HumanRejected() returns (ok: bool, turn: bool)
    ensures !ok && turn
  {
    var p := CreatePlayer("human", "h", X, "");
    var q, after;
    q, after, ok := HumanPlay(p, RowThreat, 0);
    turn := IsPlayerTurn(q);
  }

  // ------------------------------------------- every move loses: fallback

  /** O O _ / O X X / _ X _ with X to move: O threatens row 0 and column 0
      at once, so whatever X plays, O completes a line next. */
  const DoubleThreat: Board := [O, O, Empty, O, X, X, Empty, X, Empty]

  /** The double threat is in play with free positions 2, 6 and 8. */
  lemma DoubleThreatInPlay(b: Board)
    requires b == DoubleThreat
    ensures !Terminal(b)
    ensures FreeSpaces(b) == [2, 6, 8]
  {
    assert forall l :: l in Lines ==> !Completed(b, l);
  }

  /** After X plays 2, 6 or 8 nobody has won yet and a blank is left. */
  lemma DoubleThreatChildInPlay(b: Board, x: Index)
    requires b == DoubleThreat && (x == 2 || x == 6 || x == 8)
    ensures !Terminal(b[x := X])
  {
    var c := b[x := X];
    assert c[2] == Empty || c[6] == Empty;
    assert forall l :: l in Lines ==> !Completed(c, l);
  }

  /** After X plays 2, O completes column 0 at 6; after X plays 6 or 8,
      O completes row 0 at 2. */
  lemma DoubleThreatChildLost(b: Board, x: Index)
    requires b == DoubleThreat && (x == 2 || x == 6 || x == 8)
    ensures ChildValue(b, X, x) == -1
  {
    DoubleThreatChildInPlay(b, x);
    var c := MoveResult(b, X, x);
    assert c == b[x := X];
    var o, l := if x == 2 then 6 else 2, if x == 2 then Line(0, 3, 6) else Line(0, 1, 2);
    assert l in Lines && OnLine(l, o) && Completed(c[o := O], l);
    ImmediateWin(c, O, o);
  }

  /** Every move of X on the double threat is worth -1. */
  lemma DoubleThreatChildValues(b: Board)
    requires b == DoubleThreat
    ensures ChildValues(b, X) == [-1, -1, -1]
  {
    DoubleThreatInPlay(b);
    DoubleThreatChildLost(b, 2);
    DoubleThreatChildLost(b, 6);
    DoubleThreatChildLost(b, 8);
    ChildValueAt(b, X, 0);
    ChildValueAt(b, X, 1);
    ChildValueAt(b, X, 2);
  }

  /** No value improves on the starting bound, so the smart move has no
      best move, and the board itself is worth -1. */
  lemma DoubleThreatLost(b: Board)
    requires b == DoubleThreat
    ensures NoImprovement(X, ChildValues(b, X))
    ensures Minimax(b, X) == -1
  {
    DoubleThreatInPlay(b);
    DoubleThreatChildValues(b);
    MinimaxIsBestChild(b, X);
  }

  /** So even on "impossible" the computer falls back to the random free
      position drawn from `u`. */
  method ImpossibleFallsBackToRandom(r: real, u: real) returns (after: Board)
    requires 0.0 <= r < 1.0 && 0.0 <= u < 1.0
    ensures after == DoubleThreat[[2, 6, 8][RandomIndex(u, 3)] := X]
  {
    var b := DoubleThreat;
    var p := CreatePlayer("computer", "c", X, "impossible");
    DoubleThreatInPlay(b);
    DoubleThreatLost(b);
    DoubleThreatChildValues(b);
    var q;
    q, after := ComputerPlay(p, b, r, u);
  }
}
