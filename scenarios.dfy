/**
  Two complete games played tap by tap from the initial state: "X" taking
  the top row, and a game that fills the board with no line.
 */
module Scenarios {
  import opened Board
  import opened Rules

  /** The board with rows (a, b, c), (d, e, f) and (g, h, i). */
  function Board3(a: Mark, b: Mark, c: Mark, d: Mark, e: Mark, f: Mark, g: Mark, h: Mark, i: Mark): (r: Grid)
    ensures WellFormed(r)
  {
    [[a, b, c], [d, e, f], [g, h, i]]
  }

  /** A board on which no row, column or diagonal is three equal marks has no win. */
  lemma NoLine(g: Grid)
    requires WellFormed(g)
    requires !Three(g[0][0], g[0][1], g[0][2]) && !Three(g[1][0], g[1][1], g[1][2]) && !Three(g[2][0], g[2][1], g[2][2])
    requires !Three(g[0][0], g[1][0], g[2][0]) && !Three(g[0][1], g[1][1], g[2][1]) && !Three(g[0][2], g[1][2], g[2][2])
    requires !DiagWin(g) && !AntiDiagWin(g)
    ensures !Win(g)
  {
  }

  /** A tap on a blank cell after which the board neither wins nor is full passes the turn. */
  lemma Continues(s: State, tag: int, b: Grid)
    requires Valid(s) && 0 <= tag < Cells
    requires s.board[tag / BoardSize][tag % BoardSize] == Blank
    requires b == Put(s.board, tag / BoardSize, tag % BoardSize, s.currentPlayer)
    requires !Win(b) && !Full(b)
    ensures Tap(s, tag) == Move(State(b, Other(s.currentPlayer)), NextTurn)
  {
  }

  /**
    X at 0, O at 3, X at 1, O at 4, X at 2: the fifth tap completes the top
    row, "X" is announced as the winner and stays current.
   */
  lemma RowWinScenario()
    ensures var s0 := Initial();
      var s1 := Tap(s0, 0).next;
      var s2 := Tap(s1, 3).next;
      var s3 := Tap(s2, 1).next;
      var s4 := Tap(s3, 4).next;
      Tap(s0, 0).outcome == NextTurn &&
      Tap(s1, 3).outcome == NextTurn &&
      Tap(s2, 1).outcome == NextTurn &&
      Tap(s3, 4).outcome == NextTurn &&
      Tap(s4, 2).outcome == Won(X) && Tap(s4, 2).next.currentPlayer == X
  {
    var e := Blank;
    var s0 := Initial();
    var b0 := Board3(e, e, e, e, e, e, e, e, e);
    assert s0.board[0] == b0[0] && s0.board[1] == b0[1] && s0.board[2] == b0[2];
    assert s0.board == b0;
    var b1 := Board3(X, e, e, e, e, e, e, e, e);
    assert b0[0][0 := X] == b1[0];
    assert b0[0 := b1[0]] == b1;
    NoLine(b1);
    Continues(s0, 0, b1);
    var s1 := State(b1, O);
    var b2 := Board3(X, e, e, O, e, e, e, e, e);
    assert b1[1][0 := O] == b2[1];
    assert b1[1 := b2[1]] == b2;
    NoLine(b2);
    Continues(s1, 3, b2);
    var s2 := State(b2, X);
    var b3 := Board3(X, X, e, O, e, e, e, e, e);
    assert b2[0][1 := X] == b3[0];
    assert b2[0 := b3[0]] == b3;
    NoLine(b3);
    Continues(s2, 1, b3);
    var s3 := State(b3, O);
    var b4 := Board3(X, X, e, O, O, e, e, e, e);
    assert b3[1][1 := O] == b4[1];
    assert b3[1 := b4[1]] == b4;
    NoLine(b4);
    Continues(s3, 4, b4);
    var s4 := State(b4, X);
    var b5 := Board3(X, X, X, O, O, e, e, e, e);
    assert b4[0][2 := X] == b5[0];
    assert b4[0 := b5[0]] == b5;
    assert RowWin(b5, 0);
  }

  /** The board after the first four taps of the drawn game. */
  function DrawMidBoard(): Grid {
    Board3(X, O, X, Blank, O, Blank, Blank, Blank, Blank)
  }

  /** X at 0, O at 1, X at 2, O at 4: every tap passes the turn. */
  lemma DrawOpening()
    ensures var s0 := Initial();
      var s1 := Tap(s0, 0).next;
      var s2 := Tap(s1, 1).next;
      var s3 := Tap(s2, 2).next;
      Tap(s0, 0).outcome == NextTurn && Tap(s1, 1).outcome == NextTurn &&
      Tap(s2, 2).outcome == NextTurn && Tap(s3, 4) == Move(State(DrawMidBoard(), X), NextTurn)
  {
    var e := Blank;
    var s0 := Initial();
    var b0 := Board3(e, e, e, e, e, e, e, e, e);
    assert s0.board[0] == b0[0] && s0.board[1] == b0[1] && s0.board[2] == b0[2];
    assert s0.board == b0;
    var b1 := Board3(X, e, e, e, e, e, e, e, e);
    assert b0[0][0 := X] == b1[0];
    assert b0[0 := b1[0]] == b1;
    NoLine(b1);
    Continues(s0, 0, b1);
    var s1 := State(b1, O);
    var b2 := Board3(X, O, e, e, e, e, e, e, e);
    assert b1[0][1 := O] == b2[0];
    assert b1[0 := b2[0]] == b2;
    NoLine(b2);
    Continues(s1, 1, b2);
    var s2 := State(b2, X);
    var b3 := Board3(X, O, X, e, e, e, e, e, e);
    assert b2[0][2 := X] == b3[0];
    assert b2[0 := b3[0]] == b3;
    NoLine(b3);
    Continues(s2, 2, b3);
    var s3 := State(b3, O);
    var b4 := DrawMidBoard();
    assert b3[1][1 := O] == b4[1];
    assert b3[1 := b4[1]] == b4;
    NoLine(b4);
    Continues(s3, 4, b4);
  }

  /** Then X at 3, O at 5, X at 7, O at 6 pass the turn, and X at 8 fills the board with no line: a draw. */
  lemma DrawClosing()
    ensures var s4 := State(DrawMidBoard(), X);
      var s5 := Tap(s4, 3).next;
      var s6 := Tap(s5, 5).next;
      var s7 := Tap(s6, 7).next;
      var s8 := Tap(s7, 6).next;
      Tap(s4, 3).outcome == NextTurn && Tap(s5, 5).outcome == NextTurn &&
      Tap(s6, 7).outcome == NextTurn && Tap(s7, 6).outcome == NextTurn &&
      Tap(s8, 8).outcome == Drawn && Tap(s8, 8).next.currentPlayer == X
  {
    var e := Blank;
    var b4 := DrawMidBoard();
    var s4 := State(b4, X);
    var b5 := Board3(X, O, X, X, O, e, e, e, e);
    assert b4[1][0 := X] == b5[1];
    assert b4[1 := b5[1]] == b5;
    NoLine(b5);
    Continues(s4, 3, b5);
    var s5 := State(b5, O);
    var b6 := Board3(X, O, X, X, O, O, e, e, e);
    assert b5[1][2 := O] == b6[1];
    assert b5[1 := b6[1]] == b6;
    NoLine(b6);
    Continues(s5, 5, b6);
    var s6 := State(b6, X);
    var b7 := Board3(X, O, X, X, O, O, e, X, e);
    assert b6[2][1 := X] == b7[2];
    assert b6[2 := b7[2]] == b7;
    NoLine(b7);
    Continues(s6, 7, b7);
    var s7 := State(b7, O);
    var b8 := Board3(X, O, X, X, O, O, O, X, e);
    assert b7[2][0 := O] == b8[2];
    assert b7[2 := b8[2]] == b8;
    NoLine(b8);
    Continues(s7, 6, b8);
    var b9 := Board3(X, O, X, X, O, O, O, X, X);
    assert b8[2][2 := X] == b9[2];
    assert b8[2 := b9[2]] == b9;
    NoLine(b9);
    assert Full(b9);
  }
}
