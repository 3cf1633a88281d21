/**
  The game's state machine as values: one tap on a cell, reset, and runs of
  taps and resets, with the properties each step keeps.
 */
module Rules {
  import opened Board

  /** The two fields of the XO view controller that the game logic uses. */
  datatype State = State(board: Grid, currentPlayer: Mark)

  /** What a tap leads to: nothing, the next turn, or one of the two "Game Over" alerts. */
  datatype Outcome = Ignored | NextTurn | Won(winner: Mark) | Drawn

  datatype Move = Move(next: State, outcome: Outcome)

  /** Cells are well formed and the player to move is "X" or "O". */
  predicate Valid(s: State) {
    WellFormed(s.board) && s.currentPlayer != Blank
  }

  /** The state after setup and after every reset. */
  function Initial(): (s: State)
    ensures Valid(s)
    ensures s.currentPlayer == X
    ensures forall r, c :: InRange(r, c) ==> s.board[r][c] == Blank
  {
    State(EmptyGrid(), X)
  }

  /**
    A tap on cell (r, c): an occupied cell is ignored; otherwise the mover's
    mark is placed, a win is checked before a draw, and the turn passes only
    when neither holds.
   */
  function Play(s: State, r: int, c: int): (m: Move)
    requires WellFormed(s.board) && InRange(r, c)
    ensures WellFormed(m.next.board)
  {
    if s.board[r][c] != Blank then Move(s, Ignored)
    else
      var b := Put(s.board, r, c, s.currentPlayer);
      if Win(b) then Move(State(b, s.currentPlayer), Won(s.currentPlayer))
      else if Full(b) then Move(State(b, s.currentPlayer), Drawn)
      else Move(State(b, Other(s.currentPlayer)), NextTurn)
  }

  /** A tap on the button with tag `tag`. */
  function Tap(s: State, tag: nat): (m: Move)
    requires WellFormed(s.board) && tag < Cells
    ensures WellFormed(m.next.board)
  {
    EncodeDecode(tag);
    Play(s, Decode(tag).0, Decode(tag).1)
  }

  /** Tapping an occupied cell changes neither the board nor the player to move. */
  lemma PlayOccupied(s: State, r: int, c: int)
    requires WellFormed(s.board) && InRange(r, c) && s.board[r][c] != Blank
    ensures Play(s, r, c) == Move(s, Ignored)
  {
  }

  /**
    Tapping a blank cell sets exactly that cell to the mover's mark and
    leaves every other cell as it was; one blank fewer, one more of the
    mover's marks, the opponent's count unchanged, and so one more filled
    cell.
   */
  lemma PlayBlank(s: State, r: int, c: int)
    requires Valid(s) && InRange(r, c) && s.board[r][c] == Blank
    ensures var b := Play(s, r, c).next.board;
      b[r][c] == s.currentPlayer &&
      (forall i, j :: InRange(i, j) && (i, j) != (r, c) ==> b[i][j] == s.board[i][j]) &&
      Count(b, Blank) == Count(s.board, Blank) - 1 &&
      Count(b, s.currentPlayer) == Count(s.board, s.currentPlayer) + 1 &&
      Count(b, Other(s.currentPlayer)) == Count(s.board, Other(s.currentPlayer)) &&
      Count(b, X) + Count(b, O) == Cells - Count(b, Blank) &&
      Count(b, X) + Count(b, O) == Count(s.board, X) + Count(s.board, O) + 1
  {
    var p := s.currentPlayer;
    CountTotal(s.board);
    CountTotal(Put(s.board, r, c, p));
    CountPut(s.board, r, c, p, Blank);
    CountPut(s.board, r, c, p, p);
    CountPut(s.board, r, c, p, Other(p));
  }

  /**
    The turn passes exactly on a placed move that neither wins nor fills the
    board; after a winning or drawing move the mover stays current.
   */
  lemma PlayTurn(s: State, r: int, c: int)
    requires Valid(s) && InRange(r, c)
    ensures var m := Play(s, r, c);
      m.next.currentPlayer == (if m.outcome == NextTurn then Other(s.currentPlayer) else s.currentPlayer) &&
      (m.outcome == NextTurn <==>
        s.board[r][c] == Blank && !Win(m.next.board) && !Full(m.next.board))
  {
  }

  /**
    Win is checked before draw: a move that fills the last cell and completes
    a line is reported as a win; a draw is reported only on a full board with
    no line.
   */
  lemma WinBeforeDraw(s: State, r: int, c: int)
    requires Valid(s) && InRange(r, c) && s.board[r][c] == Blank
    ensures var m := Play(s, r, c);
      (Win(m.next.board) ==> m.outcome == Won(s.currentPlayer)) &&
      (m.outcome == Drawn <==> !Win(m.next.board) && Count(m.next.board, Blank) == 0)
  {
    FullIffNoBlank(Put(s.board, r, c, s.currentPlayer));
  }

  /** When the board had no line before, the announced winner really owns a line and the opponent owns none. */
  lemma WonIsCorrect(s: State, r: int, c: int)
    requires Valid(s) && InRange(r, c) && !Win(s.board)
    requires Play(s, r, c).outcome.Won?
    ensures var m := Play(s, r, c);
      m.outcome.winner == s.currentPlayer &&
      Wins(m.next.board, s.currentPlayer) &&
      !Wins(m.next.board, Other(s.currentPlayer))
  {
    WinnerIsMover(s.board, r, c, s.currentPlayer);
  }

  /** A tap never clears or overwrites a filled cell, and keeps the state valid. */
  lemma PlayKeepsMarks(s: State, r: int, c: int)
    requires Valid(s) && InRange(r, c)
    ensures Valid(Play(s, r, c).next)
    ensures forall i, j :: InRange(i, j) && s.board[i][j] != Blank ==>
      Play(s, r, c).next.board[i][j] == s.board[i][j]
  {
  }

  /**
    Strict alternation while the game is on: "X" has moved as often as "O"
    when it is X's turn, once more when it is O's turn.
   */
  predicate Alternating(s: State)
    requires WellFormed(s.board)
  {
    (s.currentPlayer == X && Count(s.board, X) == Count(s.board, O)) ||
    (s.currentPlayer == O && Count(s.board, X) == Count(s.board, O) + 1)
  }

  lemma InitialAlternating()
    ensures Alternating(Initial())
  {
    EmptyGridCounts();
  }

  /** A tap that does not end the game keeps the alternation. */
  lemma PlayKeepsAlternating(s: State, r: int, c: int)
    requires Valid(s) && InRange(r, c) && Alternating(s)
    requires !Play(s, r, c).outcome.Won? && !Play(s, r, c).outcome.Drawn?
    ensures Alternating(Play(s, r, c).next)
  {
    if s.board[r][c] == Blank {
      PlayBlank(s, r, c);
    }
  }

  // ---------------------------------------------------------------- runs

  /** What the user does: tap a button, or press OK on the "Game Over" alert. */
  datatype Event = Press(tag: int) | AlertOk

  predicate ValidEvent(e: Event) {
    e.Press? ==> 0 <= e.tag < Cells
  }

  /** The state after one event; the alert's OK action is a reset. */
  function Apply(s: State, e: Event): (t: State)
    requires Valid(s) && ValidEvent(e)
    ensures Valid(t)
  {
    match e
    case AlertOk => Initial()
    case Press(tag) =>
      EncodeDecode(tag);
      PlayKeepsMarks(s, Decode(tag).0, Decode(tag).1);
      Tap(s, tag).next
  }

  /** The state after a sequence of events; every reachable state is valid. */
  function Run(s: State, es: seq<Event>): (t: State)
    requires Valid(s) && forall k :: 0 <= k < |es| ==> ValidEvent(es[k])
    ensures Valid(t)
    decreases es
  {
    if es == [] then s else Run(Apply(s, es[0]), es[1..])
  }

  /** Without a reset, a filled cell keeps its mark through any number of taps. */
  lemma {:induction false} RunKeepsMarks(s: State, es: seq<Event>, i: int, j: int)
    requires Valid(s) && forall k :: 0 <= k < |es| ==> ValidEvent(es[k])
    requires forall k :: 0 <= k < |es| ==> es[k].Press?
    requires InRange(i, j) && s.board[i][j] != Blank
    ensures Run(s, es).board[i][j] == s.board[i][j]
    decreases es
  {
    if es != [] {
      var t := Apply(s, es[0]);
      EncodeDecode(es[0].tag);
      PlayKeepsMarks(s, Decode(es[0].tag).0, Decode(es[0].tag).1);
      RunKeepsMarks(t, es[1..], i, j);
    }
  }

  /** Whatever happened before, a run that ends with OK on the alert is back at the initial state. */
  lemma {:induction false} RunEndingInResetIsInitial(s: State, es: seq<Event>)
    requires Valid(s) && forall k :: 0 <= k < |es| ==> ValidEvent(es[k])
    requires es != [] && es[|es| - 1] == AlertOk
    ensures Run(s, es) == Initial()
    decreases es
  {
    if |es| > 1 {
      RunEndingInResetIsInitial(Apply(s, es[0]), es[1..]);
    }
  }

  /** The board after setup or reset has no win. */
  lemma InitialHasNoWin()
    ensures !Win(Initial().board)
  {
  }

  /**
    The games the modal alert allows: every tap that ends in a win or a draw
    is the last event or is followed by OK on the alert.
   */
  predicate FollowsAlerts(s: State, es: seq<Event>)
    requires Valid(s) && forall k :: 0 <= k < |es| ==> ValidEvent(es[k])
    decreases es
  {
    if es == [] then true
    else
      assert ValidEvent(es[0]);
      var ends := match es[0]
        case Press(tag) => Tap(s, tag).outcome.Won? || Tap(s, tag).outcome.Drawn?
        case AlertOk => false;
      (ends ==> |es| == 1 || es[1] == AlertOk) && FollowsAlerts(Apply(s, es[0]), es[1..])
  }

  /**
    In a game that follows the alerts, starting from a board without a win,
    no tap is ever made on a board that already wins, so every announced
    winner is the mover, owns a line, and the opponent owns none.
   */
  lemma {:induction false} AlertedGamesAnnounceTrueWinners(s: State, es: seq<Event>, n: int)
    requires Valid(s) && forall k :: 0 <= k < |es| ==> ValidEvent(es[k])
    requires FollowsAlerts(s, es)
    requires !Win(s.board) || (es != [] && es[0] == AlertOk)
    requires 0 <= n < |es| && es[n].Press?
    ensures var t := Run(s, es[..n]);
      var m := Tap(t, es[n].tag);
      !Win(t.board) &&
      (m.outcome.Won? ==>
        m.outcome.winner == t.currentPlayer &&
        Wins(m.next.board, t.currentPlayer) && !Wins(m.next.board, Other(t.currentPlayer)))
    decreases n
  {
    if n == 0 {
      assert es[..0] == [];
      var tag := es[0].tag;
      EncodeDecode(tag);
      if Tap(s, tag).outcome.Won? {
        WonIsCorrect(s, Decode(tag).0, Decode(tag).1);
      }
    } else {
      var t := Apply(s, es[0]);
      assert es[..n][0] == es[0] && es[..n][1..] == es[1..][..n - 1];
      assert Run(s, es[..n]) == Run(t, es[1..][..n - 1]);
      if es[0] == AlertOk {
        InitialHasNoWin();
      } else {
        var tag := es[0].tag;
        EncodeDecode(tag);
        var m := Tap(s, tag);
        if m.outcome.Won? || m.outcome.Drawn? {
          assert es[1..][0] == AlertOk;
        } else {
          assert !Win(t.board);
        }
      }
      AlertedGamesAnnounceTrueWinners(t, es[1..], n - 1);
    }
  }
}
