# Tic-tac-toe `App` game engine, modelled in Dafny

This project models the state engine behind the `App` component of a
tic-tac-toe web app (`src/App.tsx`). The engine holds:

- the nine-square board;
- whose turn it is (`xIsNext`);
- the round's status: playing, won or draw;
- the winning line;
- a session ledger: the scores `{ X, O, draws }` and an append-only history
  of finished games.

The files:

- `game_logic.dfy` (module `GameLogic`): marks, boards, lines, and
  `calculateWinner` / `checkDraw`. The component imports these two from
  `./utils/gameLogic`, which is not part of this model. They get the
  conventional definitions, which are an assumption: scan the eight lines
  (rows, columns, diagonals) in that order and report the first one whose three
  squares hold the same mark; a draw is a full board with no such line.
  Everything about them is proved from those definitions.
- `app.dfy` (module `App`): the component's state as the class `Game`, with
  one field per `useState` slot of the game. `handleClick`, `resetGame` and
  `resetStats` are methods. The outcome `useEffect`, which React runs after
  every change of `board`, is the explicit method `Evaluate`. `Move` calls it
  after it writes a cell. `ResetGame` and the constructor also call it, on the
  empty board, where it records nothing. `getStatusMessage` is a function.
  The class invariant `Valid` has three parts:
  - the marks alternate, with X first;
  - the scores are exactly the tally of the history, and every history entry
    is a real outcome;
  - the status agrees with the board: it names the winner the scan finds and
    the side that moved last.
- `session.dfy` (module `Session`): clicks fed to `handleClick` in sequence,
  and two whole games played through the class: a top-row win for X and a
  drawn game.

## Model

| member | source | states |
|---|---|---|
| GameLogic.WinnerFrom | src/App.tsx:84 | The scan of lines k..7 reports a line that is well formed and filled by the reported winner, and reports nothing exactly when none of those lines is complete. |
| GameLogic.CalculateWinner | src/App.tsx:84-88 | `calculateWinner` (assumed definition): a reported `{ winner, line }` has three distinct on-board squares all holding the winner; the result is null exactly when no line is complete. |
| GameLogic.CheckDraw | src/App.tsx:101 | `checkDraw` (assumed definition): a draw means the board is full and has no winner. |
| GameLogic.NoLineFromAll | src/App.tsx:84 | The recursive "no complete line from k on" agrees with its quantified reading over lines k..7. |
| GameLogic.NoWinnerIffNoLine | src/App.tsx:84-86 | `calculateWinner` finds nothing if and only if none of the eight lines is complete. |
| GameLogic.DrawIffFullWithoutLine | src/App.tsx:101 | `checkDraw` holds if and only if every square is marked and no line is complete. |
| GameLogic.ScanOrder | src/App.tsx:84-88 | The line reported by the scan from k is one of the eight lines, and every line before it in scan order is incomplete. |
| GameLogic.CalculateWinnerExplicit | src/App.tsx:84-88 | `calculateWinner` equals the eight line tests written out one after another in the fixed order. |
| GameLogic.WinnerOnWinLine | src/App.tsx:88 | The winning line stored in `winningLine` is always one of the eight lines. |
| GameLogic.CountUpdate | src/App.tsx:123-124 | Writing one square changes each mark's count by exactly what was removed and what was written. |
| GameLogic.CountAbsent | src/App.tsx:61 | A board without a given mark counts zero of it. |
| GameLogic.EmptyBoardSettled | src/App.tsx:61 | The empty board has nine squares, no marks, no winner and is not a draw. |
| GameLogic.TopRowWins | src/App.tsx:84-88 | A top row filled by one mark makes that mark the winner, with line 0-1-2, whatever else is on the board. |
| GameLogic.NewLineBelongsToMover | src/App.tsx:119-128 | When a board with no winner gets one more mark, any line the scan now finds belongs to that mark. |
| App.Credit | src/App.tsx:91-94 | Crediting an outcome adds one to exactly the winner's counter, or to `draws` for a draw, and leaves the other two counters alone. |
| App.TallyAppend | src/App.tsx:91-100 | The tally of a history extended by one game is the old tally credited with that game's winner. |
| App.TallyTotal | src/App.tsx:63-68 | The counters of the tally add up to the number of games in the history: every finished game is counted exactly once. |
| App.LogAppend | src/App.tsx:91-114 | Crediting a real outcome and logging it together keep the scores equal to the tally of the history. |
| App.LegalMoveAlternates | src/App.tsx:121-127 | A legal click keeps the parity invariant: X's count equals O's or exceeds it by one, and it is X's turn exactly when they are equal. |
| App.LegalMoveAwaits | src/App.tsx:119-128 | After a legal click in a round in play, the state awaits its outcome, and any winner is the side that just moved. |
| App.WinLogged | src/App.tsx:86-100 | Recording a win (status won, the scan's line, the winner credited, the game logged) gives a state satisfying the whole invariant. |
| App.DrawLogged | src/App.tsx:101-114 | Recording a draw (status draw, one draw credited, the game logged) gives a state satisfying the whole invariant. |
| App.FreshRoundAwaits | src/App.tsx:131-136 | An empty board with X to move, whatever the ledger holds, awaits an outcome that does not exist: no winner, no draw. |
| App.Game.constructor | src/App.tsx:61-70 | The initial state is an empty board, X to move, playing, no winning line, zero scores and an empty history, and it satisfies the invariant. |
| App.Game.Evaluate | src/App.tsx:83-116 | On a win: status won, the line set, exactly the winner's counter bumped, one history entry with a copy of the board. Otherwise on a draw: the same with the draw counter and a null winner. Otherwise nothing changes. The board and turn are untouched, and the invariant is restored. |
| App.Game.Move | src/App.tsx:119-128 | A click on a taken square or in a finished round changes nothing, so a finished round stays finished. A legal click writes the mover's mark at that square only, passes the turn, and settles the outcome as `Evaluate` does; a win it causes is the mover's. The invariant is kept. |
| App.Game.ResetGame | src/App.tsx:131-136 | A new round (empty board, X to move, playing, no line) with the scores and history kept. |
| App.Game.ResetStats | src/App.tsx:139-143 | A new round with zero scores and an empty history. |
| App.Game.StatusMessage | src/App.tsx:146-156 | In a won round, the message names the winner the board shows, and the last history entry records that winner. A draw gives the stalemate message. In a round in play, it names the player's name (or "X") exactly when the mark counts are equal, and "O" otherwise. |
| Session.PlayClicks | src/App.tsx:119-128 | A sequence of clicks keeps the invariant. A finished round ignores them all. A round still in play has its ledger untouched. A round that ended gained exactly one history entry (the final board) and exactly one point. |
| Session.NoLineNoOutcome | src/App.tsx:84-101 | A board with none of the eight lines complete has no winner, and is not a draw while a square is empty. |
| Session.QuietMove | src/App.tsx:119-128 | A click that completes no line and leaves a square empty writes the mark, passes the turn and leaves the round in play with the ledger untouched. |
| Session.TopRowOpening | src/App.tsx:119-128 | Clicks 0, 3, 1, 4 leave X on squares 0 and 1, square 2 empty and X to move, with the round still in play. |
| Session.TopRowGame | src/App.tsx:83-128 | Clicks 0, 3, 1, 4, 2 end in a won round with line 0-1-2, scores X 1 / O 0 / draws 0, and one history entry. |
| Session.DrawOpening | src/App.tsx:119-128 | Clicks 0, 1, 2, 4 give the board X O X / _ O _ / _ _ _ with X to move and the round in play. |
| Session.DrawMiddle | src/App.tsx:119-128 | Clicks 3 and 5 give X O X / X O O / _ _ _ with X to move and the round in play. |
| Session.DrawEnding | src/App.tsx:119-128 | Clicks 7 and 6 give X O X / X O O / O X _ with X to move and the round in play. |
| Session.DrawFinish | src/App.tsx:101-128 | X's click on the last square fills the board without a line: the round is drawn, no line is set, one draw is credited and one game is logged. |
| Session.DrawnGame | src/App.tsx:83-128 | Clicks 0, 1, 2, 4, 3, 5, 7, 6, 8 end in a drawn round with no line, scores X 0 / O 0 / draws 1, and one history entry. |

## Left out

- The rendering (src/App.tsx:158-217) and `src/components/Square.tsx`: they display state and pass clicks through, and change no game state.
- `NameInputScreen` and `handleNameSubmit` (src/App.tsx:8-56, 72-80), and `showIntro`: they only set the player's name. `StatusMessage` takes the name as a parameter, where `None` is the source's `null`.
- `./utils/gameLogic` is not part of this model. `calculateWinner` and `checkDraw` have the conventional definitions described above, as an assumption.
- `new Date()` is read from a clock. The model takes the reading as the parameter `now` of `Evaluate`, `Move`, `ResetGame`, `ResetStats` and the constructor.
- React's scheduling: functional updates, batching, and the effect running after render. The model runs the outcome step synchronously right after the board changes. Under React 18 StrictMode in development, effects run twice on mount; that is not modelled.
- The winning line is a triple `Line(a, b, c)` rather than a `number[]`.
- `Game.Move`: a square index outside 0..8 is a precondition. The source never produces one, since the board renders exactly nine squares.
- The scores object is keyed by the mark's text (`"X"`, `"O"`); the model uses the record `Scores(x, o, draws)` with the same meaning.
