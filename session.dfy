/**
 * The game as the UI drives it: a stream of square clicks fed to
 * `handleClick` one at a time, and two complete games played that way.
 */
module Session {
  import opened Wrappers
  import opened GameLogic
  import opened App

  /** One click: the square, and the clock reading the outcome step would take. */
  datatype Click = Click(index: nat, at: Timestamp)

  /**
   * Feed clicks to the game in order. A round that was over ignores them all.
   * A round that was in play is either still in play with its ledger
   * untouched, or it ended and the ledger gained exactly one entry (this
   * board) and exactly one point.
   */
  method PlayClicks(g: Game, clicks: seq<Click>)
    requires g.Valid()
    requires forall k :: 0 <= k < |clicks| ==> clicks[k].index < 9
    modifies g
    ensures g.Valid()
    ensures old(g.gameStatus) != Playing ==> unchanged(g)
    ensures old(g.gameStatus) == Playing && g.gameStatus == Playing ==>
              g.scores == old(g.scores) && g.gameHistory == old(g.gameHistory)
    ensures old(g.gameStatus) == Playing && g.gameStatus != Playing ==>
              |g.gameHistory| == |old(g.gameHistory)| + 1 &&
              g.gameHistory[..|old(g.gameHistory)|] == old(g.gameHistory) &&
              g.gameHistory[|old(g.gameHistory)|].board == g.board &&
              Total(g.scores) == Total(old(g.scores)) + 1
  {
    var i := 0;
    while i < |clicks|
      invariant 0 <= i <= |clicks|
      invariant g.Valid()
      invariant old(g.gameStatus) != Playing ==> unchanged(g)
      invariant old(g.gameStatus) == Playing && g.gameStatus == Playing ==>
                  g.scores == old(g.scores) && g.gameHistory == old(g.gameHistory)
      invariant old(g.gameStatus) == Playing && g.gameStatus != Playing ==>
                  |g.gameHistory| == |old(g.gameHistory)| + 1 &&
                  g.gameHistory[..|old(g.gameHistory)|] == old(g.gameHistory) &&
                  g.gameHistory[|old(g.gameHistory)|].board == g.board &&
                  Total(g.scores) == Total(old(g.scores)) + 1
    {
      g.Move(clicks[i].index, clicks[i].at);
      i := i + 1;
    }
  }

  /** The eight lines checked one by one: none is complete. */
  predicate NoCompleteLine(b: Board)
    requires |b| == 9
  {
    !Complete(b, Line(0, 1, 2)) && !Complete(b, Line(3, 4, 5)) && !Complete(b, Line(6, 7, 8)) &&
    !Complete(b, Line(0, 3, 6)) && !Complete(b, Line(1, 4, 7)) && !Complete(b, Line(2, 5, 8)) &&
    !Complete(b, Line(0, 4, 8)) && !Complete(b, Line(2, 4, 6))
  }

  /** A board with no complete line has no winner; with an empty square it is not a draw either. */
  lemma NoLineNoOutcome(b: Board, i: nat)
    requires |b| == 9 && NoCompleteLine(b)
    ensures CalculateWinner(b).None?
    ensures i < 9 && b[i].None? ==> !CheckDraw(b)
  {
    CalculateWinnerExplicit(b);
  }

  /**
   * A click that completes no line and leaves square `spare` empty:
   * the mark goes down, the turn passes and the round stays in play with
   * the ledger untouched.
   */
  method QuietMove(g: Game, index: nat, spare: nat, now: Timestamp)
    requires g.Valid() && index < 9 && g.gameStatus == Playing && g.board[index].None?
    requires NoCompleteLine(g.board[index := Some(Mover(g.xIsNext))])
    requires spare < 9 && spare != index && g.board[spare].None?
    modifies g
    ensures g.Valid()
    ensures g.board == old(g.board)[index := Some(Mover(old(g.xIsNext)))] && g.xIsNext == !old(g.xIsNext)
    ensures g.gameStatus == Playing && g.scores == old(g.scores) && g.gameHistory == old(g.gameHistory)
  {
    NoLineNoOutcome(g.board[index := Some(Mover(g.xIsNext))], spare);
    g.Move(index, now);
  }

  /** The first four clicks of the top-row game: X at 0 and 1, O at 3 and 4. */
  method TopRowOpening(g: Game)
    requires g.Valid() && g.board == EmptyBoard && g.xIsNext && g.gameStatus == Playing
    modifies g
    ensures g.Valid() && g.xIsNext && g.gameStatus == Playing
    ensures g.board[0] == Some(X) && g.board[1] == Some(X) && g.board[2].None?
    ensures g.scores == old(g.scores) && g.gameHistory == old(g.gameHistory)
  {
    QuietMove(g, 0, 8, 1);
    QuietMove(g, 3, 8, 2);
    QuietMove(g, 1, 8, 3);
    QuietMove(g, 4, 8, 4);
  }

  /** X takes the top row with clicks 0, 3, 1, 4, 2. */
  method TopRowGame() returns (status: GameStatus, line: Option<Line>, scores: Scores, logged: nat)
    ensures status == Won && line == Some(Line(0, 1, 2))
    ensures scores == Scores(1, 0, 0) && logged == 1
  {
    var g := new Game(0);
    TopRowOpening(g);
    TopRowWins(g.board[2 := Some(X)], X);
    g.Move(2, 5);
    assert g.gameHistory == [HistoryEntry(Some(X), g.board, 5)];
    status, line, scores, logged := g.gameStatus, g.winningLine, g.scores, |g.gameHistory|;
  }

  /** The board square by square. */
  predicate Shows(b: Board, c0: Cell, c1: Cell, c2: Cell, c3: Cell, c4: Cell,
                  c5: Cell, c6: Cell, c7: Cell, c8: Cell)
  {
    |b| == 9 && b[0] == c0 && b[1] == c1 && b[2] == c2 && b[3] == c3 && b[4] == c4 &&
    b[5] == c5 && b[6] == c6 && b[7] == c7 && b[8] == c8
  }

  /** Clicks 0, 1, 2, 4 of the drawn game. */
  method DrawOpening(g: Game)
    requires g.Valid() && g.board == EmptyBoard && g.xIsNext && g.gameStatus == Playing
    modifies g
    ensures g.Valid() && g.xIsNext && g.gameStatus == Playing
    ensures Shows(g.board, Some(X), Some(O), Some(X), None, Some(O), None, None, None, None)
    ensures g.scores == old(g.scores) && g.gameHistory == old(g.gameHistory)
  {
    QuietMove(g, 0, 8, 1);
    QuietMove(g, 1, 8, 2);
    QuietMove(g, 2, 8, 3);
    QuietMove(g, 4, 8, 4);
  }

  /** Clicks 3 and 5 of the drawn game. */
  method DrawMiddle(g: Game)
    requires g.Valid() && g.xIsNext && g.gameStatus == Playing
    requires Shows(g.board, Some(X), Some(O), Some(X), None, Some(O), None, None, None, None)
    modifies g
    ensures g.Valid() && g.xIsNext && g.gameStatus == Playing
    ensures Shows(g.board, Some(X), Some(O), Some(X), Some(X), Some(O), Some(O), None, None, None)
    ensures g.scores == old(g.scores) && g.gameHistory == old(g.gameHistory)
  {
    QuietMove(g, 3, 8, 5);
    QuietMove(g, 5, 8, 6);
  }

  /** Clicks 7 and 6 of the drawn game. */
  method DrawEnding(g: Game)
    requires g.Valid() && g.xIsNext && g.gameStatus == Playing
    requires Shows(g.board, Some(X), Some(O), Some(X), Some(X), Some(O), Some(O), None, None, None)
    modifies g
    ensures g.Valid() && g.xIsNext && g.gameStatus == Playing
    ensures Shows(g.board, Some(X), Some(O), Some(X), Some(X), Some(O), Some(O), Some(O), Some(X), None)
    ensures g.scores == old(g.scores) && g.gameHistory == old(g.gameHistory)
  {
    QuietMove(g, 7, 8, 7);
    QuietMove(g, 6, 8, 8);
  }

  /** The last click, X at 8, fills the board without a line: the round is drawn and logged. */
  method DrawFinish(g: Game)
    requires g.Valid() && g.xIsNext && g.gameStatus == Playing
    requires Shows(g.board, Some(X), Some(O), Some(X), Some(X), Some(O), Some(O), Some(O), Some(X), None)
    requires g.scores == Scores(0, 0, 0) && g.gameHistory == []
    modifies g
    ensures g.gameStatus == Draw && g.winningLine == None
    ensures g.scores == Scores(0, 0, 1) && |g.gameHistory| == 1
  {
    var last := g.board[8 := Some(X)];
    NoLineNoOutcome(last, 0);
    assert Full(last) by {
      assert last[0].Some? && last[1].Some? && last[2].Some? && last[3].Some? && last[4].Some?;
      assert last[5].Some? && last[6].Some? && last[7].Some? && last[8].Some?;
    }
    assert CheckDraw(last);
    g.Move(8, 9);
  }

  /**
   * A drawn game: X at 0, 2, 3, 7, 8 and O at 1, 4, 5, 6, clicked as
   * 0, 1, 2, 4, 3, 5, 7, 6, 8. No line is ever completed.
   */
  method DrawnGame() returns (status: GameStatus, line: Option<Line>, scores: Scores, logged: nat)
    ensures status == Draw && line == None
    ensures scores == Scores(0, 0, 1) && logged == 1
  {
    var g := new Game(0);
    DrawOpening(g);
    DrawMiddle(g);
    DrawEnding(g);
    DrawFinish(g);
    status, line, scores, logged := g.gameStatus, g.winningLine, g.scores, |g.gameHistory|;
  }
}
