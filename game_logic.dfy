/**
 * Outcome detection over a 3x3 board: `calculateWinner` and `checkDraw`.
 *
 * The App component imports these from `./utils/gameLogic`, a file that is
 * not part of this model. The definitions below are the conventional ones and
 * are ASSUMED: scan the eight fixed lines in order and report the first one
 * filled by a single mark; a draw is a full board on which no line is filled.
 * The App-level proofs use only their contracts.
 */
module GameLogic {
  import opened Wrappers

  datatype Mark = X | O

  /** A square: `None` is an empty square (the source's `null`). */
  type Cell = Option<Mark>

  /** Nine cells in row-major order (index = row * 3 + col). */
  type Board = seq<Cell>

  function Other(m: Mark): (r: Mark)
    ensures r != m
  {
    if m == X then O else X
  }

  /** Three board indices. */
  datatype Line = Line(a: nat, b: nat, c: nat)

  /** Three distinct indices, all on the board. */
  predicate WellFormed(l: Line) {
    l.a < l.b < l.c < 9
  }

  /** The eight winning lines in scan order: rows, columns, diagonals. */
  const Lines: seq<Line> := [
    Line(0, 1, 2), Line(3, 4, 5), Line(6, 7, 8),
    Line(0, 3, 6), Line(1, 4, 7), Line(2, 5, 8),
    Line(0, 4, 8), Line(2, 4, 6)
  ]

  function WinLine(k: nat): (l: Line)
    requires k < 8
    ensures WellFormed(l)
  {
    assert |Lines| == 8;
    if k == 0 then Lines[0] else if k == 1 then Lines[1]
    else if k == 2 then Lines[2] else if k == 3 then Lines[3]
    else if k == 4 then Lines[4] else if k == 5 then Lines[5]
    else if k == 6 then Lines[6] else Lines[7]
  }

  ghost predicate IsWinLine(l: Line) {
    exists k :: 0 <= k < 8 && WinLine(k) == l
  }

  /** `Array(9).fill(null)`. */
  const EmptyBoard: Board := seq(9, _ => None)

  /** All three squares of `l` hold mark `m`. */
  predicate Holds(b: Board, l: Line, m: Mark)
    requires |b| == 9 && WellFormed(l)
  {
    b[l.a] == Some(m) && b[l.b] == Some(m) && b[l.c] == Some(m)
  }

  /** The test the scan applies: the first square is marked and the other two equal it. */
  predicate Complete(b: Board, l: Line)
    requires |b| == 9 && WellFormed(l)
  {
    b[l.a].Some? && b[l.a] == b[l.b] && b[l.a] == b[l.c]
  }

  predicate Full(b: Board)
    requires |b| == 9
  {
    forall i :: 0 <= i < 9 ==> b[i].Some?
  }

  /** What `calculateWinner` returns when it finds a line: `{ winner, line }`. */
  datatype Win = Win(winner: Mark, line: Line)

  /** None of the lines k..7 is complete. */
  predicate NoLineFrom(b: Board, k: nat)
    requires |b| == 9 && k <= 8
    decreases 8 - k
  {
    k == 8 || (!Complete(b, WinLine(k)) && NoLineFrom(b, k + 1))
  }

  /** The scan of lines k..7, in order. */
  function WinnerFrom(b: Board, k: nat): (r: Option<Win>)
    requires |b| == 9 && k <= 8
    ensures r.Some? ==> WellFormed(r.value.line) && Holds(b, r.value.line, r.value.winner)
    ensures r.None? <==> NoLineFrom(b, k)
    decreases 8 - k
  {
    if k == 8 then None
    else if Complete(b, WinLine(k)) then Some(Win(b[WinLine(k).a].value, WinLine(k)))
    else WinnerFrom(b, k + 1)
  }

  /**
   * `calculateWinner(board)` (assumed definition): the first line, in the
   * fixed order, whose three squares hold the same mark. The line it reports
   * is three distinct squares on the board, all holding the winner; it
   * reports nothing exactly when no line is complete.
   */
  function CalculateWinner(b: Board): (r: Option<Win>)
    requires |b| == 9
    ensures r.Some? ==> WellFormed(r.value.line) && Holds(b, r.value.line, r.value.winner)
    ensures r.None? <==> NoLineFrom(b, 0)
  {
    WinnerFrom(b, 0)
  }

  /** `checkDraw(board)` (assumed definition): no line is won and every square is marked. */
  function CheckDraw(b: Board): (r: bool)
    requires |b| == 9
    ensures r ==> Full(b) && CalculateWinner(b).None?
  {
    CalculateWinner(b).None? && Full(b)
  }

  /** The recursive "no complete line" agrees with its quantified reading. */
  lemma {:induction false} NoLineFromAll(b: Board, k: nat)
    requires |b| == 9 && k <= 8
    ensures NoLineFrom(b, k) <==> forall j :: k <= j < 8 ==> !Complete(b, WinLine(j))
    decreases 8 - k
  {
    if k < 8 {
      NoLineFromAll(b, k + 1);
    }
  }

  /** The scan reports nothing exactly when none of the eight lines is complete. */
  lemma NoWinnerIffNoLine(b: Board)
    requires |b| == 9
    ensures CalculateWinner(b).None? <==> forall j :: 0 <= j < 8 ==> !Complete(b, WinLine(j))
  {
    NoLineFromAll(b, 0);
  }

  /** A draw is exactly a full board with no complete line. */
  lemma DrawIffFullWithoutLine(b: Board)
    requires |b| == 9
    ensures CheckDraw(b) <==> Full(b) && forall j :: 0 <= j < 8 ==> !Complete(b, WinLine(j))
  {
    NoWinnerIffNoLine(b);
  }

  /**
   * The scan's tie-break: the reported line is one of the eight, and every
   * line before it in the fixed order is incomplete.
   */
  lemma {:induction false} ScanOrder(b: Board, k: nat)
    requires |b| == 9 && k <= 8 && WinnerFrom(b, k).Some?
    ensures exists j :: k <= j < 8 && WinLine(j) == WinnerFrom(b, k).value.line &&
                        forall i :: k <= i < j ==> !Complete(b, WinLine(i))
    decreases 8 - k
  {
    if !Complete(b, WinLine(k)) {
      ScanOrder(b, k + 1);
      var j :| k + 1 <= j < 8 && WinLine(j) == WinnerFrom(b, k + 1).value.line &&
               forall i :: k + 1 <= i < j ==> !Complete(b, WinLine(i));
      assert forall i :: k <= i < j ==> !Complete(b, WinLine(i));
    } else {
      assert WinLine(k) == WinnerFrom(b, k).value.line;
    }
  }

  /**
   * The scan written out line by line: an independent reading of
   * `calculateWinner` as the first of eight checks, in order.
   */
  lemma CalculateWinnerExplicit(b: Board)
    requires |b| == 9
    ensures CalculateWinner(b) ==
      if Complete(b, Line(0, 1, 2)) then Some(Win(b[0].value, Line(0, 1, 2)))
      else if Complete(b, Line(3, 4, 5)) then Some(Win(b[3].value, Line(3, 4, 5)))
      else if Complete(b, Line(6, 7, 8)) then Some(Win(b[6].value, Line(6, 7, 8)))
      else if Complete(b, Line(0, 3, 6)) then Some(Win(b[0].value, Line(0, 3, 6)))
      else if Complete(b, Line(1, 4, 7)) then Some(Win(b[1].value, Line(1, 4, 7)))
      else if Complete(b, Line(2, 5, 8)) then Some(Win(b[2].value, Line(2, 5, 8)))
      else if Complete(b, Line(0, 4, 8)) then Some(Win(b[0].value, Line(0, 4, 8)))
      else if Complete(b, Line(2, 4, 6)) then Some(Win(b[2].value, Line(2, 4, 6)))
      else None
  {
    assert WinnerFrom(b, 8) == None;
    assert WinnerFrom(b, 7) == if Complete(b, Line(2, 4, 6)) then Some(Win(b[2].value, Line(2, 4, 6))) else None;
    assert WinnerFrom(b, 6) == if Complete(b, Line(0, 4, 8)) then Some(Win(b[0].value, Line(0, 4, 8))) else WinnerFrom(b, 7);
    assert WinnerFrom(b, 5) == if Complete(b, Line(2, 5, 8)) then Some(Win(b[2].value, Line(2, 5, 8))) else WinnerFrom(b, 6);
    assert WinnerFrom(b, 4) == if Complete(b, Line(1, 4, 7)) then Some(Win(b[1].value, Line(1, 4, 7))) else WinnerFrom(b, 5);
    assert WinnerFrom(b, 3) == if Complete(b, Line(0, 3, 6)) then Some(Win(b[0].value, Line(0, 3, 6))) else WinnerFrom(b, 4);
    assert WinnerFrom(b, 2) == if Complete(b, Line(6, 7, 8)) then Some(Win(b[6].value, Line(6, 7, 8))) else WinnerFrom(b, 3);
    assert WinnerFrom(b, 1) == if Complete(b, Line(3, 4, 5)) then Some(Win(b[3].value, Line(3, 4, 5))) else WinnerFrom(b, 2);
  }

  /** The line `calculateWinner` reports is one of the eight winning lines. */
  lemma WinnerOnWinLine(b: Board)
    requires |b| == 9 && CalculateWinner(b).Some?
    ensures IsWinLine(CalculateWinner(b).value.line)
  {
    ScanOrder(b, 0);
  }

  /** The number of squares of `b` holding `c`. */
  function Count(b: seq<Cell>, c: Cell): (n: nat)
    ensures n <= |b|
  {
    if b == [] then 0 else (if b[0] == c then 1 else 0) + Count(b[1..], c)
  }

  /** Overwriting one square moves one unit of count from its old content to its new one. */
  lemma {:induction false} CountUpdate(b: seq<Cell>, i: nat, v: Cell, c: Cell)
    requires i < |b|
    ensures Count(b[i := v], c) ==
            Count(b, c) - (if b[i] == c then 1 else 0) + (if v == c then 1 else 0)
  {
    if i == 0 {
      assert b[i := v][1..] == b[1..];
    } else {
      assert b[i := v][1..] == b[1..][i - 1 := v];
      CountUpdate(b[1..], i - 1, v, c);
    }
  }

  /** A value that occurs nowhere is counted zero times. */
  lemma {:induction false} CountAbsent(b: seq<Cell>, c: Cell)
    requires forall i :: 0 <= i < |b| ==> b[i] != c
    ensures Count(b, c) == 0
  {
    if b != [] {
      CountAbsent(b[1..], c);
    }
  }

  /** The empty board has no marks, no winner and is not a draw. */
  lemma EmptyBoardSettled()
    ensures |EmptyBoard| == 9
    ensures Count(EmptyBoard, Some(X)) == 0 && Count(EmptyBoard, Some(O)) == 0
    ensures CalculateWinner(EmptyBoard).None? && !CheckDraw(EmptyBoard)
  {
    CountAbsent(EmptyBoard, Some(X));
    CountAbsent(EmptyBoard, Some(O));
    NoWinnerIffNoLine(EmptyBoard);
    assert EmptyBoard[0].None?;
  }

  /** A line filled by `m` at the head of the scan order decides the winner, whatever else is on the board. */
  lemma TopRowWins(b: Board, m: Mark)
    requires |b| == 9 && b[0] == Some(m) && b[1] == Some(m) && b[2] == Some(m)
    ensures CalculateWinner(b) == Some(Win(m, Line(0, 1, 2)))
  {
    assert Complete(b, WinLine(0));
  }

  /**
   * When a board with no winning line gets one more mark `m`, any line the
   * scan now finds passes through the new square and so belongs to `m`.
   */
  lemma NewLineBelongsToMover(b: Board, i: nat, m: Mark)
    requires |b| == 9 && i < 9 && b[i].None?
    requires CalculateWinner(b).None?
    ensures CalculateWinner(b[i := Some(m)]).Some? ==>
              CalculateWinner(b[i := Some(m)]).value.winner == m
  {
    var b' := b[i := Some(m)];
    var r := CalculateWinner(b');
    if r.Some? {
      WinnerOnWinLine(b');
      var l := r.value.line;
      var j :| 0 <= j < 8 && WinLine(j) == l;
      NoWinnerIffNoLine(b);
      assert !Complete(b, WinLine(j));
      assert l.a == i || l.b == i || l.c == i;
    }
  }
}
