# Tic-tac-toe decision core in Dafny

This project models the game logic of a browser tic-tac-toe game (`script.js`):

- the 3×3 `Board` with `makeMove`, `getFreeSpaces`, `getWinner`, `terminal` and `moveResult`;
- the `minimax` evaluator that the computer player uses;
- the computer's move policy, with its difficulty labels;
- the human move and the per-player turn flag.

Everything is written as immutable values and pure functions. A board is a `seq<Cell>` of length 9 in row-major order. A move returns a new board instead of writing in place.

Modules:

- `GameBoard` (`board.dfy`): cells, boards and lines, plus the five board operations. `getWinner` scans the eight lines in the order the source's loop visits them. That order is row 0, column 0, row 1, column 1, row 2, column 2, the `\` diagonal, then the `/` diagonal.
- `Search` (`search.dfy`): `Minimax` and its loop `Scan`, including the early exit. `Value` is a plain minimax without the early exit, used as an independent reference. The proofs show that `Minimax` equals `Value` on every board, that it picks the best child, and that a side able to complete a line is valued at its goal. Termination uses the number of free cells, which each move lowers by exactly one.
- `Players` (`players.dfy`): the difficulty table, `createPlayer`, `changeTurn`/`resetPlayerTurn`/`isPlayerTurn`, the human `play(move)` and the computer `play()`. The computer's smart move is split in two: every child is evaluated (`ChildValues`), then a loop keeps the first value that strictly improves on the running best (`SelectFirstBest`).
- `Scenarios` (`scenarios.dfy`): concrete boards. They cover a row that either side can complete, a drawn full board, each line filled on its own, two completed lines resolved by scan order, a rejected human move, and a double threat where every move loses.

Randomness comes in as parameters. `r` is the draw compared with the skill probability. `u` is the second draw, which picks the random free cell as the floor of `u * |free|`, with the product taken in exact real arithmetic (see `Players.RandomIndex` under "## Left out"). Both lie in [0, 1), the range of `Math.random`.

The smart move's "no best move" fallback is reachable: when every move of the computer loses, no child value beats the starting bound. `Scenarios.DoubleThreatLost` shows one such position, and `Scenarios.ImpossibleFallsBackToRandom` shows that even the "impossible" level then plays the random cell.

Two behaviours of the code worth noting:

- `makeMove` returns 0 for an index outside 0..8, because `board[index]` is then `undefined` and not `" "`. `MakeMove` does the same for every integer index.
- A difficulty label that is `undefined` or a non-numeric string other than the four known labels is left unchanged by the switch. In `difficulty >= probability` it then converts to `NaN`, so the comparison is false and the computer always plays a random free cell. The model gives such a label no probability (`Skill` returns `None`), and `Smart` is false for it.

## Model

| member | source | states |
|---|---|---|
| GameBoard.MakeMove | script.js:8-15 | status is 1 exactly when the index is in 0..8 and that cell is blank; then only that cell changes, to the symbol; otherwise (status 0) the board is unchanged; no marked cell is ever overwritten |
| GameBoard.FreeFromFacts | script.js:18-28 | the scan from position i lists exactly the blank positions from i on, strictly ascending, at most 9 - i of them |
| GameBoard.FreeSpaces | script.js:18-28 | the result is strictly ascending, has at most 9 entries, and contains position j exactly when cell j is blank |
| GameBoard.WinnerFromFacts | script.js:31-85 | the line scan from line k reports the first completed line from k on and the marker on it, and reports nothing exactly when no later line is completed |
| GameBoard.Winner | script.js:31-85 | a reported winner's line is one of the eight lines, all three of its cells hold the reported marker, and it is the first completed line in scan order; no winner exactly when no line is completed |
| GameBoard.Terminal | script.js:88-92 | the game is over exactly when some line is completed or no cell is blank |
| GameBoard.FreeFromAfterFill | script.js:95-101 | filling a blank cell removes exactly one position from every free-list suffix that contains it and leaves the others the same length |
| GameBoard.MoveResult | script.js:95-101 | the copy differs from the source only at the played index, which gets the symbol if it was blank; playing a free position leaves one free position fewer |
| Search.Minimax | script.js:371-421 | the value is always -1, 0 or 1; on a finished board it is 1, -1 or 0 according to whether the winner is X, O or nobody |
| Search.MinimaxIsPlainMinimax | script.js:371-421 | the early exit changes nothing: minimax equals plain minimax without early exit on every board, for either side to move |
| Search.ScanIsExtreme | script.js:386-420 | from any point, the loop's result is the better of the running value and the best value of the remaining children |
| Search.ScanIsBest | script.js:386-420 | the loop's result is never beaten by a remaining child or by the running value, and it is either the running value or the value of a visited child |
| Search.MinimaxAgainstChildren | script.js:384-420 | on a board in play, no child's value beats minimax for the side to move, and some child attains it |
| Search.MinimaxIsBestChild | script.js:384-420 | on a board in play, minimax is the maximum (X to move) or minimum (O to move) of the child values, and is attained by one of them |
| Search.WinningMoveWins | script.js:31-101 | on a board with no winner, a move completing a line makes the mover the winner of the resulting board |
| Search.ImmediateWin | script.js:373-420 | on a board in play where the side to move can complete a line, minimax is 1 with X to move and -1 with O to move |
| Players.Skill | script.js:424-443 | exactly the four labels get a probability: impossible 1, hard 0.75, normal 0.5, easy 0.25; only impossible gets 1, and every other label gets none |
| Players.SkillStrictlyOrdered | script.js:424-439 | the probabilities are strictly ordered impossible > hard > normal > easy > 0 |
| Players.CreatePlayer | script.js:327-337 | the new player keeps name and team, is a computer exactly for type code "c" with the difficulty's probability, and starts with the turn exactly when its team is X |
| Players.ChangeTurn | script.js:349-352 | the flag is negated and nothing else about the player changes |
| Players.ResetPlayerTurn | script.js:358-361 | the flag becomes true exactly for team X and nothing else about the player changes |
| Players.TurnFlagLifecycle | script.js:337-361 | isPlayerTurn of a new player is true exactly for team X; after changeTurn it is negated, after two it is back, and after resetPlayerTurn it is true exactly for team X |
| Players.ResetRestoresCreated | script.js:337-361 | resetting any player that has the same attributes as a created player gives back exactly that created player |
| Players.TurnsComplementary | script.js:337-361 | after a reset, the X player has the turn and the O player does not, and complementary flags stay complementary when both change turn |
| Players.HumanPlay | script.js:489-497 | the move is accepted exactly when its cell is blank; then the cell gets the team and the turn flag flips; otherwise board and player are unchanged and it reports false |
| Players.RandomIndex | script.js:482 | the floor of the exact product u * n, for u in [0, 1), is a valid position of a list of length n |
| Players.SelectFirstBest | script.js:452-472 | some position is kept exactly when a value strictly improves on the starting bound; the kept position has a value no other position beats, and no earlier position has the same value |
| Players.ChooseMove | script.js:451-475 | the smart move keeps the first best free position when one improves on the bound, and its value is then the board's minimax value; when none does, the board's minimax value is the bound, so every move loses |
| Players.ComputerPlay | script.js:445-486 | a finished board and the player are left unchanged; otherwise exactly one blank cell gets the team and the turn flips; the smart branch plays the first best position, and the random branch or the no-improvement fallback plays the free position chosen by u |
| Players.DifficultyExtremes | script.js:424-451 | a label with no probability never takes the smart branch, and impossible always does, for every draw in [0, 1) |
| Scenarios.RowThreatInPlay | script.js:18-92 | X X _ / O O _ / _ _ _ is in play with free positions 2, 5, 6, 7, 8 |
| Scenarios.RowThreatCompletions | script.js:31-57 | on that board X completes row 0 at 2 and O completes row 1 at 5 |
| Scenarios.RowThreatWonForX | script.js:393-399 | with X to move that board is worth 1 |
| Scenarios.RowThreatWonForO | script.js:411-415 | with O to move that board is worth -1 |
| Scenarios.RowThreatFirstChild | script.js:456-459 | the first free position is 2 and playing X there is worth 1 |
| Scenarios.ImpossibleTakesTheRow | script.js:445-477 | on that board the computer on impossible plays X at 2, whatever the draws |
| Scenarios.DrawnBoardIsADraw | script.js:88-92 | X O X / X O O / O X X is finished with no winner, no free position, and value 0 |
| Scenarios.EmptyBoardInPlay | script.js:2-5 | a new board lists all nine positions as free and is not finished |
| Scenarios.LoneLineWins | script.js:31-85 | each of the eight lines filled alone with one marker is reported with that marker and that line |
| Scenarios.ScanOrderPicksRowFirst | script.js:34-57 | with row 0 and column 0 both completed, row 0 is the line recorded |
| Scenarios.HumanRejected | script.js:489-497 | a human move onto a taken cell is refused and the turn stays |
| Scenarios.DoubleThreatLost | script.js:452-475 | on O O _ / O X X / _ X _ no move of X improves on the bound, and the board is worth -1 for X to move |
| Scenarios.ImpossibleFallsBackToRandom | script.js:474-475 | on that board even the impossible level plays the free position chosen by the second draw |

## Left out

- The `game` module (the page's orchestration with event listeners, `setTimeout` delays and async flags), the `form` module and all DOM work. This covers `renderBoard`, `highlightLine`, `resetBoard`, the player display styling, and the `getName`/`getType`/`getTeam` accessors, which only return a constructor argument. These parts have no game logic to state.
- `Math.random` is not modelled. Its two draws are the parameters `r` and `u`, and nothing is said about their distribution.
- The mutable `winnerLine` field is not modelled. `Winner` returns the line together with the marker instead. The source keeps the previous `winnerLine` when no line is completed, and the model has no such stale state.
- JavaScript comparison of a numeric-string label against the draw is not modelled. A label such as `"1"` or `"0.9"` converts to that number, and the empty label `""` (or one of only whitespace) converts to 0, so `difficulty >= probability` can be true for them. The model treats every label outside the four known ones like `undefined` or a non-numeric string, which never takes the smart branch.
- `makeMove` takes any value as its index in the source. Human moves arrive as strings read from the page; a canonical index string such as `"2"` addresses the same cell as the integer 2, so those calls are covered by the integer index here. Non-canonical keys such as `"2.0"` or `" 2"` read `undefined` and are rejected with 0; they are not modelled.
- Players.RandomIndex: the product `u * n` is exact real arithmetic, while the source multiplies two doubles before `Math.floor`. At rounding boundaries the source picks the next position: for u = 0.3333333333333333 and n = 3 the double product rounds to 1.0, so the source picks position 1 where the model picks 0. The set of positions that can be played is the same; only which draw leads to which position differs, and this carries over to the random branch of `Players.ComputerPlay` and to `Scenarios.ImpossibleFallsBackToRandom`.
- Minimax on the empty board equals 0 is not proved. It needs the whole game tree evaluated, which is out of reach for the verifier. The lemmas about the search are structural and local.
