/**
  The XO view controller's game logic: the board and the player to move as
  fields, the tap handler, the win and draw scans, and reset. Rendering,
  layout and the alert itself are not modelled; the alert a tap raises is
  the tap's returned outcome, and the alert's OK action is `ResetBoard`.
 */
module Controller {
  import opened Board
  import opened Rules

  /** One button of the board as `setupButtons` creates it: its cell and its tag. */
  datatype Button = Button(row: int, col: int, tag: int)

  /**
    The buttons of the board, created row by row. Every button's tag decodes
    back to its own cell, and the tags are exactly 0, 1, ..., Cells - 1 in
    creation order, so no two buttons share a tag.
   */
  method SetupButtons() returns (buttons: seq<Button>)
    ensures |buttons| == Cells
    ensures forall k :: 0 <= k < |buttons| ==> buttons[k].tag == k
    ensures forall k :: 0 <= k < |buttons| ==>
      InRange(buttons[k].row, buttons[k].col) && Decode(k) == (buttons[k].row, buttons[k].col)
  {
    buttons := [];
    for row := 0 to BoardSize
      invariant |buttons| == row * BoardSize
      invariant forall k :: 0 <= k < |buttons| ==> buttons[k].tag == k
      invariant forall k :: 0 <= k < |buttons| ==>
        InRange(buttons[k].row, buttons[k].col) && Decode(k) == (buttons[k].row, buttons[k].col)
    {
      for col := 0 to BoardSize
        invariant |buttons| == row * BoardSize + col
        invariant forall k :: 0 <= k < |buttons| ==> buttons[k].tag == k
        invariant forall k :: 0 <= k < |buttons| ==>
          InRange(buttons[k].row, buttons[k].col) && Decode(k) == (buttons[k].row, buttons[k].col)
      {
        DecodeEncode(row, col);
        buttons := buttons + [Button(row, col, Encode(row, col))];
      }
    }
  }

  class XO {
    var board: Grid
    var currentPlayer: Mark

    ghost predicate Valid()
      reads this
    {
      Rules.Valid(State(board, currentPlayer))
    }

    /** The fields' initial values and `setupBoard`: an all-blank board, "X" to move. */
    constructor ()
      ensures Valid()
      ensures State(board, currentPlayer) == Initial()
    {
      currentPlayer := X;
      board := EmptyGrid();
    }

    /**
      The tap handler: decode the tag, ignore an occupied cell, otherwise
      place the mark, report a win, else a draw, else pass the turn.
     */
    method ButtonTapped(tag: int) returns (outcome: Outcome)
      requires Valid() && 0 <= tag < Cells
      modifies this
      ensures Valid()
      ensures Move(State(board, currentPlayer), outcome) == Tap(old(State(board, currentPlayer)), tag)
    {
      var row := tag / BoardSize;
      var col := tag % BoardSize;
      if board[row][col] == Blank {
        board := board[row := board[row][col := currentPlayer]];
        var won := CheckWin();
        if won {
          outcome := Won(currentPlayer);
          return;
        }
        var drawn := CheckDraw();
        if drawn {
          outcome := Drawn;
          return;
        }
        currentPlayer := if currentPlayer == X then O else X;
        outcome := NextTurn;
      } else {
        outcome := Ignored;
      }
    }

    /** The scan of every row, every column and both diagonals. */
    method CheckWin() returns (won: bool)
      requires Valid()
      ensures won == Win(board)
    {
      for row := 0 to BoardSize
        invariant forall r :: 0 <= r < row ==> !RowWin(board, r)
      {
        if board[row][0] != Blank && board[row][0] == board[row][1] && board[row][1] == board[row][2] {
          assert RowWin(board, row);
          return true;
        }
      }
      for col := 0 to BoardSize
        invariant forall c :: 0 <= c < col ==> !ColWin(board, c)
      {
        if board[0][col] != Blank && board[0][col] == board[1][col] && board[1][col] == board[2][col] {
          assert ColWin(board, col);
          return true;
        }
      }
      if board[0][0] != Blank && board[0][0] == board[1][1] && board[1][1] == board[2][2] {
        return true;
      }
      if board[0][2] != Blank && board[0][2] == board[1][1] && board[1][1] == board[2][0] {
        return true;
      }
      return false;
    }

    /** The scan for a blank cell: the board is a draw when there is none. */
    method CheckDraw() returns (drawn: bool)
      requires Valid()
      ensures drawn == Full(board)
      ensures drawn <==> Count(board, Blank) == 0
    {
      FullIffNoBlank(board);
      for row := 0 to BoardSize
        invariant forall r, c :: 0 <= r < row && 0 <= c < BoardSize ==> board[r][c] != Blank
      {
        for col := 0 to BoardSize
          invariant forall r, c :: 0 <= r < row && 0 <= c < BoardSize ==> board[r][c] != Blank
          invariant forall c :: 0 <= c < col ==> board[row][c] != Blank
        {
          if board[row][col] == Blank {
            return false;
          }
        }
      }
      return true;
    }

    /** Clear the board and give the first move back to "X", whatever the state before. */
    method ResetBoard()
      modifies this
      ensures Valid()
      ensures State(board, currentPlayer) == Initial()
    {
      board := EmptyGrid();
      currentPlayer := X;
    }
  }
}
