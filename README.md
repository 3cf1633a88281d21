# XO tic-tac-toe rules, modelled in Dafny

The XO mini-app of VKTest is a 3x3 tic-tac-toe game run by one view
controller, `XO`. Its game logic uses two fields: `board`, a 3x3 array of
strings that are `" "`, `"X"` or `"O"`, and `currentPlayer`, which is `"X"`
or `"O"`. A button tap is decoded from the button's tag (`row*3+col`) into a
cell. A tap on an occupied cell does nothing. A tap on a blank cell places the
current player's mark. The controller then checks for a win, and only if
there is none, for a draw. On a win or a draw it shows a "Game Over" alert,
and the alert's OK button resets the board. Otherwise the turn passes to the
other player.

The project has four modules:

- `Board` (`board.dfy`): marks, the board as a value, the tag encoding, the
  hard-coded win scan `Win`, the draw query `Full`, and mark counts. It also
  gives an independent definition of a win by lines (`Line`, `Owns`, `Wins`)
  and proves that the two definitions agree.
- `Rules` (`rules.dfy`): the state machine as functions. `Play` and `Tap` are
  one tap, `Initial` is the state after setup and after reset, and `Run`
  applies a sequence of taps and alert acknowledgements. Lemmas state what
  one tap and what a run preserve.
- `Controller` (`xo.dfy`): the class `XO` with fields `board: seq<seq<Mark>>`
  and `currentPlayer: Mark`. Its methods `ButtonTapped`, `CheckWin`,
  `CheckDraw` and `ResetBoard` are written with the source's loops and early
  returns. Each is proved against the functions of `Board` and `Rules`.
  `SetupButtons` models the tag assignment of `setupButtons`.
- `Scenarios` (`scenarios.dfy`): two whole games played tap by tap from the
  initial state. In one, "X" takes the top row. In the other, the board fills
  up with no line and the last tap is a draw.

Cells are the datatype `Mark = Blank | X | O` rather than strings. `Text`
maps each mark to the string the application stores, and distinct marks map
to distinct strings, so the source's string comparisons are mark comparisons.
`Text` and `TextInjective` exist only to justify that change of
representation; no other member uses them.
Swift arrays are values, so the board is a `seq` field that the methods
reassign.

The code has a fixed 3x3 board, rescans the whole board after every move,
and has no out-of-bounds or game-over error; the model has none either.
After a win or a draw, a further tap is handled like any other tap. Only the
modal alert stops the user from making one. `Rules.FollowsAlerts` describes
the games in which every win or draw is acknowledged before the next tap,
and for those games every announced winner is proved correct.

## Model

| member | source | states |
|---|---|---|
| Board.Text | VKTest/VKTest/XO/XO.swift:97-98 | the stored string of a mark is one character, and it is `" "` exactly for a blank cell |
| Board.TextInjective | VKTest/VKTest/XO/XO.swift:128 | two marks have equal strings iff they are the same mark, so comparing stored strings is comparing marks |
| Board.Other | VKTest/VKTest/XO/XO.swift:110 | the next player is never blank and never the player who just moved |
| Board.EmptyGrid | VKTest/VKTest/XO/XO.swift:58 | the board built at setup is 3x3 and every cell is blank |
| Board.Put | VKTest/VKTest/XO/XO.swift:98 | writing cell (r, c) keeps the board 3x3, puts the mark at (r, c) and leaves every other cell unchanged |
| Board.DecodeEncode | VKTest/VKTest/XO/XO.swift:94-95 | for any in-range cell, the tag `row*3+col` is non-negative and `tag/3`, `tag%3` give back the same row and column |
| Board.EncodeDecode | VKTest/VKTest/XO/XO.swift:94-95 | every tag 0..8 decodes to an in-range cell whose encoding is that tag |
| Board.LineCell | VKTest/VKTest/XO/XO.swift:127-144 | every cell of a row, column or diagonal lies on the board |
| Board.OwnsThree | VKTest/VKTest/XO/XO.swift:128 | a player owns a line iff each of its three cells holds that player's mark |
| Board.WinIffSomeoneWins | VKTest/VKTest/XO/XO.swift:125-146 | the scan of rows, columns and both diagonals finds a win iff "X" or "O" owns some whole line |
| Board.WinnerIsMover | VKTest/VKTest/XO/XO.swift:103-104 | if a mark on a blank cell of a board without a win creates a win, the mover owns a line and the opponent owns none |
| Board.CountRow | VKTest/VKTest/XO/XO.swift:149-155 | a row holds at most as many cells of a mark as it has cells |
| Board.CountRowPut | VKTest/VKTest/XO/XO.swift:98 | writing one cell of a row moves exactly one unit of count from the old mark to the new one |
| Board.CountGridPut | VKTest/VKTest/XO/XO.swift:98 | replacing one row changes the board's count by the difference of the two rows' counts |
| Board.CountPut | VKTest/VKTest/XO/XO.swift:98 | writing one cell moves exactly one unit of count from the old mark to the new one, and other marks keep their counts |
| Board.CountRowZero | VKTest/VKTest/XO/XO.swift:150-152 | a row holds no cell of a mark iff none of its cells is that mark |
| Board.CountZero | VKTest/VKTest/XO/XO.swift:149-155 | the board holds no cell of a mark iff no row does |
| Board.FullIffNoBlank | VKTest/VKTest/XO/XO.swift:148-157 | the draw query holds iff no cell is blank |
| Board.CountRowTotal | VKTest/VKTest/XO/XO.swift:6 | in a row the blank, "X" and "O" counts add up to the row's length |
| Board.CountTotalRows | VKTest/VKTest/XO/XO.swift:6 | on rows of three cells, the blank, "X" and "O" counts add up to three per row |
| Board.CountTotal | VKTest/VKTest/XO/XO.swift:6 | every one of the 9 cells holds exactly one of the three marks |
| Board.EmptyGridCounts | VKTest/VKTest/XO/XO.swift:58 | the setup board has 9 blanks and no "X" or "O" |
| Rules.Initial | VKTest/VKTest/XO/XO.swift:57-60 | setup and reset give a valid state: all cells blank and "X" to move |
| Rules.Play | VKTest/VKTest/XO/XO.swift:97-111 | a tap on a cell keeps the board 3x3 |
| Rules.Tap | VKTest/VKTest/XO/XO.swift:93-95 | a tap on any button tag 0..8 keeps the board 3x3 |
| Rules.PlayOccupied | VKTest/VKTest/XO/XO.swift:97-111 | tapping an occupied cell changes neither the board nor the player to move, and raises no alert |
| Rules.PlayBlank | VKTest/VKTest/XO/XO.swift:97-98 | tapping a blank cell sets exactly that cell to the mover's mark. Every other cell is unchanged. Blanks drop by one, the mover's marks grow by one and the opponent's count is unchanged |
| Rules.PlayTurn | VKTest/VKTest/XO/XO.swift:103-110 | the turn passes iff the cell was blank and the new board neither wins nor is full; on a win, a draw or an ignored tap the player to move stays |
| Rules.WinBeforeDraw | VKTest/VKTest/XO/XO.swift:103-108 | a move that completes a line is reported as a win even on a full board; a draw is reported iff no line is complete and no blank is left |
| Rules.WonIsCorrect | VKTest/VKTest/XO/XO.swift:103-104 | from a board without a win, the announced winner is the mover, who owns a line, and the opponent owns none |
| Rules.PlayKeepsMarks | VKTest/VKTest/XO/XO.swift:97-98 | a tap keeps the state valid and never clears or overwrites a filled cell |
| Rules.InitialAlternating | VKTest/VKTest/XO/XO.swift:7 | at the start "X" is to move and both players have made the same number of moves |
| Rules.PlayKeepsAlternating | VKTest/VKTest/XO/XO.swift:110 | a tap that ends in neither a win nor a draw keeps the alternation: equal marks when "X" is to move, one more "X" when "O" is to move |
| Rules.Apply | VKTest/VKTest/XO/XO.swift:161-163 | a tap or the alert's OK (a reset) keeps the state valid |
| Rules.Run | VKTest/VKTest/XO/XO.swift:93-112 | every state reached from a valid one by taps and resets is valid |
| Rules.RunKeepsMarks | VKTest/VKTest/XO/XO.swift:97-98 | without a reset, a filled cell keeps its mark through any number of taps |
| Rules.RunEndingInResetIsInitial | VKTest/VKTest/XO/XO.swift:161-177 | whatever came before, a run ending with the alert's OK is back at the initial state |
| Rules.InitialHasNoWin | VKTest/VKTest/XO/XO.swift:168-177 | the board after setup or reset has no win |
| Rules.AlertedGamesAnnounceTrueWinners | VKTest/VKTest/XO/XO.swift:103-112 | in a run from a board without a win, where every win or draw is followed by the alert's OK, no tap starts from a winning board, and every announced winner owns a line that the opponent does not |
| Scenarios.NoLine | VKTest/VKTest/XO/XO.swift:125-146 | a board on which none of the eight scanned lines is three equal marks has no win |
| Scenarios.Continues | VKTest/VKTest/XO/XO.swift:97-110 | a tap on a blank cell after which the board neither wins nor is full places the mark and passes the turn |
| Scenarios.RowWinScenario | VKTest/VKTest/XO/XO.swift:93-112 | taps 0, 3, 1, 4 each pass the turn, and tap 2 then makes "X" the winner, who stays current |
| Scenarios.DrawOpening | VKTest/VKTest/XO/XO.swift:93-112 | from the initial state, taps 0, 1, 2, 4 each pass the turn and give the board X O X / . O . / . . . with "X" to move |
| Scenarios.DrawClosing | VKTest/VKTest/XO/XO.swift:103-108 | from there, taps 3, 5, 7, 6 each pass the turn, and tap 8 fills the board with no line: a draw, with "X" still current |
| Controller.SetupButtons | VKTest/VKTest/XO/XO.swift:67-83 | nine buttons are made, row by row; the k-th gets tag k, so tags are distinct, and each tag decodes to its button's own cell |
| Controller.XO.constructor | VKTest/VKTest/XO/XO.swift:57-60 | the controller starts in the initial state: blank board, "X" to move |
| Controller.XO.ButtonTapped | VKTest/VKTest/XO/XO.swift:93-112 | the new fields and the returned outcome are those of `Rules.Tap` on the old fields, and validity is kept |
| Controller.XO.CheckWin | VKTest/VKTest/XO/XO.swift:125-146 | the loop scan with early returns answers exactly `Board.Win` on the current board |
| Controller.XO.CheckDraw | VKTest/VKTest/XO/XO.swift:148-157 | the nested loop scan answers exactly `Board.Full`, that is, no blank cell is left |
| Controller.XO.ResetBoard | VKTest/VKTest/XO/XO.swift:168-177 | from any state, the board is all blank and "X" is to move |

## Left out

- All UIKit work in `XO.swift` is left out: the gradient background, the scroll view, button frames and constraints, titles and colours, `animateButton`, and building and presenting the alert. The alert a tap raises is the `Outcome` returned by `ButtonTapped`. Its OK action is `ResetBoard`. The alert's message text is not modelled.
- The modal blocking of taps while the alert is up is UI behaviour and is not modelled. As in the code, the model accepts a tap after a win or a draw.
- Controller.XO.ButtonTapped: requires a tag in 0..8. A Swift app traps on any other tag, and `setupButtons` only ever assigns tags 0..8. There is no out-of-bounds error kind in the code.
- Board.Decode: takes a non-negative tag. Swift's truncating `/` and `%` differ from Dafny's only on negative operands, and no button has a negative tag.
- No N x N generalisation, no check of only the lines through the last move, and no out-of-bounds or game-over error: the code has none.
- `MiniAppViewController.swift` (child view controllers, collection view, floating-point cell sizes) and `LocationViewController.swift` (CoreLocation, asynchronous reverse geocoding, random colours) are not part of this model: they are UI, I/O and randomness.
