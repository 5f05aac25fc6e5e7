/**
 * The game-state engine of the `App` component: the board, whose turn it is,
 * the round's status and winning line, and the session ledger (scores and an
 * append-only history of finished games).
 *
 * React's `useState` setters become field assignments and the outcome
 * `useEffect` (which runs after every change of `board`) becomes the explicit
 * step `Evaluate`, called at the points where the source changes the board.
 */
module App {
  import opened Wrappers
  import opened GameLogic

  datatype GameStatus = Playing | Won | Draw

  /** The score counters `{ X, O, draws }`. */
  datatype Scores = Scores(x: nat, o: nat, draws: nat)

  /** A clock reading, as `new Date()` gives it; supplied by the caller. */
  type Timestamp = int

  /** One finished game: the winner (`None` for a draw), a copy of the board, and when. */
  datatype HistoryEntry = HistoryEntry(winner: Option<Mark>, board: Board, date: Timestamp)

  /** The counter that an outcome with this winner (`None`: draw) feeds. */
  function Counter(s: Scores, w: Option<Mark>): nat {
    match w
    case Some(X) => s.x
    case Some(O) => s.o
    case None => s.draws
  }

  function Total(s: Scores): nat {
    s.x + s.o + s.draws
  }

  /** Record one outcome in the score counters. */
  function Credit(s: Scores, w: Option<Mark>): (r: Scores)
    ensures r.x == s.x + (if w == Some(X) then 1 else 0)
    ensures r.o == s.o + (if w == Some(O) then 1 else 0)
    ensures r.draws == s.draws + (if w.None? then 1 else 0)
    ensures Counter(r, w) == Counter(s, w) + 1 && Total(r) == Total(s) + 1
  {
    match w
    case Some(X) => s.(x := s.x + 1)
    case Some(O) => s.(o := s.o + 1)
    case None => s.(draws := s.draws + 1)
  }

  /** The scores a history of finished games adds up to, starting from zero. */
  function Tally(h: seq<HistoryEntry>): Scores {
    if h == [] then Scores(0, 0, 0) else Credit(Tally(h[..|h| - 1]), h[|h| - 1].winner)
  }

  lemma TallyAppend(h: seq<HistoryEntry>, e: HistoryEntry)
    ensures Tally(h + [e]) == Credit(Tally(h), e.winner)
  {
    assert (h + [e])[..|h|] == h;
  }

  /** Every finished game is counted exactly once. */
  lemma {:induction false} TallyTotal(h: seq<HistoryEntry>)
    ensures Total(Tally(h)) == |h|
  {
    if h != [] {
      TallyTotal(h[..|h| - 1]);
    }
  }

  /** Appending a real outcome keeps every entry real and the tally in step. */
  lemma LogAppend(s: Scores, h: seq<HistoryEntry>, e: HistoryEntry)
    requires Tallied(s, h) && Recorded(e)
    ensures Tallied(Credit(s, e.winner), h + [e])
  {
    TallyAppend(h, e);
    assert (h + [e])[..|h|] == h;
  }

  /** A history entry describes a game that really ended that way. */
  ghost predicate Recorded(e: HistoryEntry) {
    |e.board| == 9 &&
    match e.winner
    case Some(m) => CalculateWinner(e.board).Some? && CalculateWinner(e.board).value.winner == m
    case None => CheckDraw(e.board)
  }

  /** X moves first and the turns alternate: the counts differ by at most one, and it is X's turn exactly when they are equal. */
  ghost predicate Alternating(board: Board, xIsNext: bool) {
    |board| == 9 &&
    var nx, no := Count(board, Some(X)), Count(board, Some(O));
    (nx == no || nx == no + 1) && (xIsNext <==> nx == no)
  }

  /** The scores are the tally of the history, and every entry is a real outcome. */
  ghost predicate Tallied(scores: Scores, h: seq<HistoryEntry>) {
    scores == Tally(h) && AllRecorded(h)
  }

  ghost predicate AllRecorded(h: seq<HistoryEntry>) {
    h == [] || (AllRecorded(h[..|h| - 1]) && Recorded(h[|h| - 1]))
  }

  /** The last history entry is this board with this winner. */
  ghost predicate Logged(h: seq<HistoryEntry>, board: Board, w: Option<Mark>) {
    |h| > 0 && h[|h| - 1].winner == w && h[|h| - 1].board == board
  }

  /**
   * The status agrees with the board: in play, nobody has a line and the
   * board is not drawn; won, the winning line is the one the scan finds, the
   * winner is the side that moved last and the game is logged; drawn, the
   * board is a draw and the game is logged.
   */
  ghost predicate Consistent(board: Board, xIsNext: bool, status: GameStatus,
                             winningLine: Option<Line>, h: seq<HistoryEntry>)
    requires |board| == 9
  {
    match status
    case Playing =>
      CalculateWinner(board).None? && !CheckDraw(board) && winningLine.None?
    case Won =>
      CalculateWinner(board).Some? &&
      winningLine == Some(CalculateWinner(board).value.line) &&
      CalculateWinner(board).value.winner == Other(Mover(xIsNext)) &&
      Logged(h, board, Some(CalculateWinner(board).value.winner))
    case Draw =>
      CheckDraw(board) && winningLine.None? && Logged(h, board, None)
  }

  /** The mark the next click places. */
  function Mover(xIsNext: bool): Mark {
    if xIsNext then X else O
  }

  /** The whole invariant of the game state, over the values of its fields. */
  ghost predicate Invariant(board: Board, xIsNext: bool, scores: Scores, h: seq<HistoryEntry>,
                            status: GameStatus, winningLine: Option<Line>)
  {
    Alternating(board, xIsNext) && Tallied(scores, h) &&
    Consistent(board, xIsNext, status, winningLine, h)
  }

  /**
   * The state between writing a cell and running the outcome step: the round
   * is still marked as in play, and any line on the board belongs to the side
   * that just moved.
   */
  ghost predicate Awaiting(board: Board, xIsNext: bool, scores: Scores, h: seq<HistoryEntry>,
                           status: GameStatus, winningLine: Option<Line>)
  {
    Alternating(board, xIsNext) && Tallied(scores, h) &&
    status == Playing && winningLine.None? &&
    (CalculateWinner(board).Some? ==> CalculateWinner(board).value.winner == Other(Mover(xIsNext)))
  }

  /**
   * The outcome step as a relation between the ledger before it (`s0`, `h0`)
   * and the status, winning line and ledger after it, on board `b`: a win
   * marks the round won with the scan's line, credits the winner once and
   * logs the game; failing that, a draw marks it drawn, credits one draw and
   * logs the game; otherwise nothing changes.
   */
  ghost predicate Settled(b: Board, s0: Scores, h0: seq<HistoryEntry>, now: Timestamp,
                          status: GameStatus, winningLine: Option<Line>, s: Scores, h: seq<HistoryEntry>)
    requires |b| == 9
  {
    match CalculateWinner(b)
    case Some(w) =>
      status == Won && winningLine == Some(w.line) &&
      s == Credit(s0, Some(w.winner)) && h == h0 + [HistoryEntry(Some(w.winner), b, now)]
    case None =>
      if CheckDraw(b) then
        status == Draw && winningLine.None? &&
        s == Credit(s0, None) && h == h0 + [HistoryEntry(None, b, now)]
      else
        status == Playing && winningLine.None? && s == s0 && h == h0
  }

  /** A legal click keeps the alternation: the mover's count grows by one and the turn passes. */
  lemma LegalMoveAlternates(b: Board, xIsNext: bool, i: nat)
    requires Alternating(b, xIsNext) && i < 9 && b[i].None?
    ensures Alternating(b[i := Some(Mover(xIsNext))], !xIsNext)
  {
    CountUpdate(b, i, Some(Mover(xIsNext)), Some(X));
    CountUpdate(b, i, Some(Mover(xIsNext)), Some(O));
  }

  /** A legal click in a round in play leaves the state awaiting its outcome. */
  lemma LegalMoveAwaits(b: Board, xIsNext: bool, s: Scores, h: seq<HistoryEntry>, i: nat)
    requires Invariant(b, xIsNext, s, h, Playing, None) && i < 9 && b[i].None?
    ensures Awaiting(b[i := Some(Mover(xIsNext))], !xIsNext, s, h, Playing, None)
  {
    LegalMoveAlternates(b, xIsNext, i);
    NewLineBelongsToMover(b, i, Mover(xIsNext));
  }

  /** Logging a won game keeps the ledger in step and leaves a consistent won state. */
  lemma WinLogged(b: Board, xIsNext: bool, s: Scores, h: seq<HistoryEntry>, now: Timestamp)
    requires Awaiting(b, xIsNext, s, h, Playing, None) && CalculateWinner(b).Some?
    ensures var w := CalculateWinner(b).value;
            Invariant(b, xIsNext, Credit(s, Some(w.winner)), h + [HistoryEntry(Some(w.winner), b, now)],
                      Won, Some(w.line))
  {
    LogAppend(s, h, HistoryEntry(Some(CalculateWinner(b).value.winner), b, now));
  }

  /** Logging a drawn game keeps the ledger in step and leaves a consistent drawn state. */
  lemma DrawLogged(b: Board, xIsNext: bool, s: Scores, h: seq<HistoryEntry>, now: Timestamp)
    requires Awaiting(b, xIsNext, s, h, Playing, None) && CheckDraw(b)
    ensures Invariant(b, xIsNext, Credit(s, None), h + [HistoryEntry(None, b, now)], Draw, None)
  {
    LogAppend(s, h, HistoryEntry(None, b, now));
  }

  /** A fresh round on the empty board awaits its (empty) outcome, whatever the ledger holds. */
  lemma FreshRoundAwaits(s: Scores, h: seq<HistoryEntry>)
    requires Tallied(s, h)
    ensures Awaiting(EmptyBoard, true, s, h, Playing, None)
    ensures CalculateWinner(EmptyBoard).None? && !CheckDraw(EmptyBoard)
  {
    EmptyBoardSettled();
  }

  class Game {
    var board: Board
    var xIsNext: bool
    var scores: Scores
    var gameHistory: seq<HistoryEntry>
    var gameStatus: GameStatus
    var winningLine: Option<Line>

    /** The object invariant. */
    ghost predicate Valid()
      reads this
    {
      Invariant(board, xIsNext, scores, gameHistory, gameStatus, winningLine)
    }

    /** The state between writing a cell and running the outcome step. */
    ghost predicate Pending()
      reads this
    {
      Awaiting(board, xIsNext, scores, gameHistory, gameStatus, winningLine)
    }

    /** The initial state, after the effect's first run on the empty board. */
    constructor (now: Timestamp)
      ensures Valid()
      ensures board == EmptyBoard && xIsNext && gameStatus == Playing && winningLine.None?
      ensures scores == Scores(0, 0, 0) && gameHistory == []
    {
      board := EmptyBoard;
      xIsNext := true;
      scores := Scores(0, 0, 0);
      gameHistory := [];
      gameStatus := Playing;
      winningLine := None;
      new;
      FreshRoundAwaits(scores, gameHistory);
      Evaluate(now);
    }

    /**
     * The outcome effect: on a win, mark the round won, remember the line,
     * credit the winner and log the game; otherwise on a draw, mark it drawn,
     * credit a draw and log the game; otherwise change nothing.
     */
    method Evaluate(now: Timestamp)
      requires Pending()
      modifies this
      ensures Valid()
      ensures board == old(board) && xIsNext == old(xIsNext)
      ensures Settled(board, old(scores), old(gameHistory), now, gameStatus, winningLine, scores, gameHistory)
    {
      var result := CalculateWinner(board);
      if result.Some? {
        var entry := HistoryEntry(Some(result.value.winner), board, now);
        WinLogged(board, xIsNext, scores, gameHistory, now);
        gameStatus, winningLine := Won, Some(result.value.line);
        scores, gameHistory := Credit(scores, entry.winner), gameHistory + [entry];
      } else if CheckDraw(board) {
        var entry := HistoryEntry(None, board, now);
        DrawLogged(board, xIsNext, scores, gameHistory, now);
        gameStatus := Draw;
        scores, gameHistory := Credit(scores, entry.winner), gameHistory + [entry];
      }
    }

    /**
     * `handleClick(index)`: ignored when the square is taken or the round is
     * over; otherwise the current side's mark is written, the turn passes and
     * the outcome step runs.
     */
    method Move(index: nat, now: Timestamp)
      requires Valid() && index < 9
      modifies this
      ensures Valid()
      ensures old(board[index]).Some? || old(gameStatus) != Playing ==> unchanged(this)
      ensures old(board[index]).None? && old(gameStatus) == Playing ==>
                board == old(board)[index := Some(Mover(old(xIsNext)))] &&
                xIsNext == !old(xIsNext) &&
                Settled(board, old(scores), old(gameHistory), now, gameStatus, winningLine, scores, gameHistory)
      ensures old(board[index]).None? && old(gameStatus) == Playing && gameStatus == Won ==>
                CalculateWinner(board).value.winner == Mover(old(xIsNext))
    {
      if board[index].Some? || gameStatus != Playing {
        return;
      }
      LegalMoveAwaits(board, xIsNext, scores, gameHistory, index);
      board := board[index := Some(Mover(xIsNext))];
      xIsNext := !xIsNext;
      Evaluate(now);
    }

    /** `resetGame`: a new round on an empty board; scores and history are kept. */
    method ResetGame(now: Timestamp)
      requires Valid()
      modifies this
      ensures Valid()
      ensures board == EmptyBoard && xIsNext && gameStatus == Playing && winningLine.None?
      ensures scores == old(scores) && gameHistory == old(gameHistory)
    {
      board := EmptyBoard;
      xIsNext := true;
      gameStatus := Playing;
      winningLine := None;
      FreshRoundAwaits(scores, gameHistory);
      Evaluate(now);
    }

    /** `resetStats`: a new round, and the scores and history are cleared. */
    method ResetStats(now: Timestamp)
      requires Valid()
      modifies this
      ensures Valid()
      ensures board == EmptyBoard && xIsNext && gameStatus == Playing && winningLine.None?
      ensures scores == Scores(0, 0, 0) && gameHistory == []
    {
      ResetGame(now);
      scores := Scores(0, 0, 0);
      gameHistory := [];
    }

    /**
     * `getStatusMessage`. In a won round the side it names is the winner the
     * board shows and the history's last entry records; in a round in play it
     * names the side whose turn the mark counts say it is.
     */
    function StatusMessage(playerName: Option<string>): (msg: string)
      reads this
      requires Valid()
      ensures gameStatus == Won ==>
                msg == "Player " + MarkText(CalculateWinner(board).value.winner) + " triumphs!" &&
                gameHistory[|gameHistory| - 1].winner == Some(CalculateWinner(board).value.winner)
      ensures gameStatus == Draw ==> msg == "It's a stalemate!"
      ensures gameStatus == Playing ==>
                msg == "Next up: " + (if Count(board, Some(X)) == Count(board, Some(O))
                                      then NameOrX(playerName) else "O")
    {
      if gameStatus == Won then
        "Player " + MarkText(if !xIsNext then X else O) + " triumphs!"
      else if gameStatus == Draw then
        "It's a stalemate!"
      else
        "Next up: " + (if xIsNext then NameOrX(playerName) else "O")
    }
  }

  function MarkText(m: Mark): string {
    if m == X then "X" else "O"
  }

  /** `playerName || 'X'`: a missing or empty name falls back to "X". */
  function NameOrX(playerName: Option<string>): string {
    if playerName.Some? && playerName.value != "" then playerName.value else "X"
  }
}
