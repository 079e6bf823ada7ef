/** The 3×3 board: move validation, free cells, win detection and the
    copy-with-move used by the search. */
module GameBoard {

  /** A cell of the grid: the blank " ", or one of the two markers. */
  datatype Cell = Empty | X | O

  /** A marker a player places; the board never receives a blank. */
  type Symbol = c: Cell | c != Empty witness X

  /** A cell position, row-major: rows 0-2, 3-5, 6-8. */
  type Index = i: int | 0 <= i < 9

  /** Nine cells in row-major order. */
  type Board = b: seq<Cell> | |b| == 9
    witness [Empty, Empty, Empty, Empty, Empty, Empty, Empty, Empty, Empty]

  datatype Option<T> = None | Some(value: T)

  /** Three cell positions forming a row, a column or a diagonal. */
  datatype Line = Line(a: Index, b: Index, c: Index)

  /** A winner together with the line recorded for it. */
  datatype Win = Win(symbol: Symbol, line: Line)

  /** What a move attempt leaves behind: the board and the status code
      1 (placed) or 0 (rejected). */
  datatype Attempt = Attempt(board: Board, status: int)

  /** The board a new match starts from. */
  const EmptyBoard: Board := [Empty, Empty, Empty, Empty, Empty, Empty, Empty, Empty, Empty]

  /** The marker of the other side. */
  function Other(s: Symbol): (r: Symbol)
    ensures r != s
  {
    if s == X then O else X
  }

  /** Cells that hold a marker keep it in `after`: no cell is ever overwritten. */
  predicate Extends(before: Board, after: Board) {
    forall i :: 0 <= i < 9 && before[i] != Empty ==> after[i] == before[i]
  }

  // ---------------------------------------------------------------- makeMove

  /** Places `s` at `index` when that cell is blank. Any other index,
      including one outside 0..8, is rejected with the board unchanged. */
  function MakeMove(b: Board, s: Symbol, index: int): (r: Attempt)
    ensures r.status == 1 || r.status == 0
    ensures r.status == 1 <==> 0 <= index < 9 && b[index] == Empty
    ensures r.status == 1 ==> r.board[index] == s
    ensures forall i :: 0 <= i < 9 && i != index ==> r.board[i] == b[i]
    ensures r.status == 0 ==> r.board == b
    ensures Extends(b, r.board)
  {
    if 0 <= index < 9 && b[index] == Empty then Attempt(b[index := s], 1)
    else Attempt(b, 0)
  }

  // ----------------------------------------------------------- getFreeSpaces

  /** The blank positions among `i`..8, ascending. */
  function FreeFrom(b: Board, i: nat): seq<Index>
    requires i <= 9
    decreases 9 - i
  {
    if i == 9 then []
    else if b[i] == Empty then [i] + FreeFrom(b, i + 1)
    else FreeFrom(b, i + 1)
  }

  /** The scan from `i` lists exactly the blank positions from `i` on, each
      once, in strictly ascending order. */
  lemma {:induction false} FreeFromFacts(b: Board, i: nat)
    requires i <= 9
    ensures |FreeFrom(b, i)| <= 9 - i
    ensures forall k :: 0 <= k < |FreeFrom(b, i)| ==> i <= FreeFrom(b, i)[k] && b[FreeFrom(b, i)[k]] == Empty
    ensures forall j :: i <= j < 9 && b[j] == Empty ==> j in FreeFrom(b, i)
    ensures forall k, l :: 0 <= k < l < |FreeFrom(b, i)| ==> FreeFrom(b, i)[k] < FreeFrom(b, i)[l]
    decreases 9 - i
  {
    if i < 9 {
      FreeFromFacts(b, i + 1);
    }
  }

  /** getFreeSpaces: the blank positions of the board in ascending order. */
  function FreeSpaces(b: Board): (r: seq<Index>)
    ensures |r| <= 9
    ensures forall j :: 0 <= j < 9 ==> (b[j] == Empty <==> j in r)
    ensures forall k, l :: 0 <= k < l < |r| ==> r[k] < r[l]
  {
    FreeFromFacts(b, 0);
    FreeFrom(b, 0)
  }

  /** Filling one blank cell removes exactly one position from the free list
      of every suffix that contains it, and none from the others. */
  lemma {:induction false} FreeFromAfterFill(b: Board, k: Index, s: Symbol, i: nat)
    requires i <= 9 && b[k] == Empty
    ensures |FreeFrom(b[k := s], i)| == if i <= k then |FreeFrom(b, i)| - 1 else |FreeFrom(b, i)|
    decreases 9 - i
  {
    if i < 9 {
      FreeFromAfterFill(b, k, s, i + 1);
    }
  }

  // --------------------------------------------------------------- getWinner

  /** The eight lines in the order the source scans them: the loop visits
      row 0, column 0, row 1, column 1, row 2, column 2, then the diagonal
      `\` and finally the diagonal `/`. */
  const Lines: seq<Line> := [
    Line(0, 1, 2), Line(0, 3, 6),
    Line(3, 4, 5), Line(1, 4, 7),
    Line(6, 7, 8), Line(2, 5, 8),
    Line(0, 4, 8), Line(2, 4, 6)
  ]

  /** All three cells of `l` hold the same marker. */
  predicate Completed(b: Board, l: Line) {
    b[l.a] != Empty && b[l.a] == b[l.b] && b[l.b] == b[l.c]
  }

  /** Position `i` lies on line `l`. */
  predicate OnLine(l: Line, i: int) {
    l.a == i || l.b == i || l.c == i
  }

  /** Line number `j` is completed and none of the lines `k`..`j-1` is. */
  predicate FirstCompletedFrom(b: Board, k: nat, j: nat)
    requires j < |Lines|
  {
    k <= j && Completed(b, Lines[j]) && forall m :: k <= m < j ==> !Completed(b, Lines[m])
  }

  /** The scan of getWinner, started at line number `k`. */
  function WinnerFrom(b: Board, k: nat): Option<Win>
    requires k <= |Lines|
    decreases |Lines| - k
  {
    if k == |Lines| then None
    else if Completed(b, Lines[k]) then Some(Win(b[Lines[k].a], Lines[k]))
    else WinnerFrom(b, k + 1)
  }

  /** The scan from line number `k` reports the first completed line from
      `k` on, with the marker on it, and reports nothing exactly when no
      line from `k` on is completed. */
  lemma {:induction false} WinnerFromFacts(b: Board, k: nat)
    requires k <= |Lines|
    ensures WinnerFrom(b, k).Some? ==>
              exists j :: k <= j < |Lines| && FirstCompletedFrom(b, k, j) && Lines[j] == WinnerFrom(b, k).value.line
    ensures WinnerFrom(b, k).Some? ==> b[WinnerFrom(b, k).value.line.a] == WinnerFrom(b, k).value.symbol
    ensures WinnerFrom(b, k).None? <==> forall j :: k <= j < |Lines| ==> !Completed(b, Lines[j])
    decreases |Lines| - k
  {
    if k < |Lines| && !Completed(b, Lines[k]) {
      WinnerFromFacts(b, k + 1);
    }
  }

  /** getWinner: the marker of the first completed line in scan order,
      together with that line; None when no line is completed. */
  function Winner(b: Board): (r: Option<Win>)
    ensures r.Some? ==> r.value.line in Lines && Completed(b, r.value.line)
    ensures r.Some? ==> b[r.value.line.a] == r.value.symbol && b[r.value.line.b] == r.value.symbol
                        && b[r.value.line.c] == r.value.symbol
    ensures r.Some? ==> exists j :: 0 <= j < |Lines| && FirstCompletedFrom(b, 0, j) && Lines[j] == r.value.line
    ensures r.None? <==> forall l :: l in Lines ==> !Completed(b, l)
  {
    WinnerFromFacts(b, 0);
    WinnerFrom(b, 0)
  }

  // ---------------------------------------------------------------- terminal

  /** The game is over: someone has won or no blank cell is left. */
  function Terminal(b: Board): (t: bool)
    ensures t <==> (exists l :: l in Lines && Completed(b, l)) || (forall i :: 0 <= i < 9 ==> b[i] != Empty)
  {
    Winner(b).Some? || |FreeSpaces(b)| == 0
  }

  // -------------------------------------------------------------- moveResult

  /** A copy of the board with the move applied; the source board is a value
      and is not affected. Playing a free position uses up exactly one free
      position. */
  function MoveResult(b: Board, s: Symbol, index: int): (r: Board)
    ensures forall i :: 0 <= i < 9 && i != index ==> r[i] == b[i]
    ensures 0 <= index < 9 ==> r[index] == (if b[index] == Empty then s else b[index])
    ensures index in FreeSpaces(b) ==> |FreeSpaces(r)| == |FreeSpaces(b)| - 1
    ensures Extends(b, r)
  {
    if index in FreeSpaces(b) then FreeFromAfterFill(b, index, s, 0); MakeMove(b, s, index).board
    else MakeMove(b, s, index).board
  }
}
