/**
  The 3x3 tic-tac-toe board of the XO mini-app: its marks, the board as a
  value, the button-tag encoding of a cell, and the win and draw queries.
 */
module Board {

  /** Side of the board; the win check hard-codes indices 0, 1 and 2. */
  const BoardSize: int := 3

  /** Number of cells, and so of buttons and of tags. */
  const Cells: int := BoardSize * BoardSize

  /** A cell's content. The application stores these as the strings " ", "X" and "O". */
  datatype Mark = Blank | X | O

  /** The string the application stores for a mark. */
  function Text(m: Mark): (s: string)
    ensures |s| == 1
    ensures s == " " <==> m == Blank
  {
    match m
    case Blank => " "
    case X => "X"
    case O => "O"
  }

  /** Distinct marks are distinct strings, so comparing the stored strings is comparing marks. */
  lemma TextInjective(a: Mark, b: Mark)
    ensures Text(a) == Text(b) <==> a == b
  {
  }

  /** The player who moves after `p`: "O" after "X", and "X" otherwise. */
  function Other(p: Mark): (q: Mark)
    ensures q != Blank && q != p
  {
    if p == X then O else X
  }

  /** The board, row by row. */
  type Grid = seq<seq<Mark>>

  predicate WellFormed(g: Grid) {
    |g| == BoardSize && forall i :: 0 <= i < |g| ==> |g[i]| == BoardSize
  }

  predicate InRange(r: int, c: int) {
    0 <= r < BoardSize && 0 <= c < BoardSize
  }

  /** The all-blank board that setup and reset install. */
  function EmptyGrid(): (g: Grid)
    ensures WellFormed(g)
    ensures forall r, c :: InRange(r, c) ==> g[r][c] == Blank
  {
    seq(BoardSize, _ => seq(BoardSize, _ => Blank))
  }

  /** The board with cell (r, c) set to `m`. */
  function Put(g: Grid, r: int, c: int, m: Mark): (h: Grid)
    requires WellFormed(g) && InRange(r, c)
    ensures WellFormed(h)
    ensures h[r][c] == m
    ensures forall i, j :: InRange(i, j) && (i, j) != (r, c) ==> h[i][j] == g[i][j]
  {
    g[r := g[r][c := m]]
  }

  // ---------------------------------------------------------------- tags

  /** The tag a button gets for cell (row, col). */
  function Encode(row: int, col: int): int {
    row * BoardSize + col
  }

  /**
    The cell a tag stands for. Tags are never negative, where Swift's
    truncating `/` and `%` agree with Dafny's.
   */
  function Decode(tag: nat): (rc: (int, int)) {
    (tag / BoardSize, tag % BoardSize)
  }

  lemma DecodeEncode(row: int, col: int)
    requires InRange(row, col)
    ensures Encode(row, col) >= 0
    ensures Decode(Encode(row, col)) == (row, col)
  {
  }

  lemma EncodeDecode(tag: nat)
    requires tag < Cells
    ensures InRange(Decode(tag).0, Decode(tag).1)
    ensures Encode(Decode(tag).0, Decode(tag).1) == tag
  {
  }

  // ---------------------------------------------------------------- win

  /** Three marks that are equal and not blank. */
  predicate Three(a: Mark, b: Mark, c: Mark) {
    a != Blank && a == b && b == c
  }

  predicate RowWin(g: Grid, r: int)
    requires WellFormed(g) && 0 <= r < BoardSize
  {
    Three(g[r][0], g[r][1], g[r][2])
  }

  predicate ColWin(g: Grid, c: int)
    requires WellFormed(g) && 0 <= c < BoardSize
  {
    Three(g[0][c], g[1][c], g[2][c])
  }

  predicate DiagWin(g: Grid)
    requires WellFormed(g)
  {
    Three(g[0][0], g[1][1], g[2][2])
  }

  predicate AntiDiagWin(g: Grid)
    requires WellFormed(g)
  {
    Three(g[0][2], g[1][1], g[2][0])
  }

  /** Some row, some column or either diagonal holds three equal non-blank marks. */
  predicate Win(g: Grid)
    requires WellFormed(g)
  {
    (exists r :: 0 <= r < BoardSize && RowWin(g, r)) ||
    (exists c :: 0 <= c < BoardSize && ColWin(g, c)) ||
    DiagWin(g) || AntiDiagWin(g)
  }

  /** A line of the board, described without fixed indices. */
  datatype Line = Row(i: int) | Col(j: int) | Diagonal | AntiDiagonal

  predicate ValidLine(l: Line) {
    match l
    case Row(i) => 0 <= i < BoardSize
    case Col(j) => 0 <= j < BoardSize
    case _ => true
  }

  /** The k-th cell of line `l`. */
  function LineCell(l: Line, k: int): (rc: (int, int))
    requires ValidLine(l) && 0 <= k < BoardSize
    ensures InRange(rc.0, rc.1)
  {
    match l
    case Row(i) => (i, k)
    case Col(j) => (k, j)
    case Diagonal => (k, k)
    case AntiDiagonal => (k, BoardSize - 1 - k)
  }

  /** Every cell of line `l` holds `p`. */
  predicate Owns(g: Grid, p: Mark, l: Line)
    requires WellFormed(g) && ValidLine(l)
  {
    forall k :: 0 <= k < BoardSize ==> g[LineCell(l, k).0][LineCell(l, k).1] == p
  }

  /** Player `p` owns a whole line. */
  ghost predicate Wins(g: Grid, p: Mark)
    requires WellFormed(g)
  {
    exists l :: ValidLine(l) && Owns(g, p, l)
  }

  lemma OwnsThree(g: Grid, l: Line, p: Mark)
    requires WellFormed(g) && ValidLine(l) && p != Blank
    ensures Owns(g, p, l) <==>
      g[LineCell(l, 0).0][LineCell(l, 0).1] == p &&
      g[LineCell(l, 1).0][LineCell(l, 1).1] == p &&
      g[LineCell(l, 2).0][LineCell(l, 2).1] == p
  {
  }

  /** The hard-coded scan agrees with "some player owns some line". */
  lemma {:induction false} WinIffSomeoneWins(g: Grid)
    requires WellFormed(g)
    ensures Win(g) <==> Wins(g, X) || Wins(g, O)
  {
    if Win(g) {
      var l: Line;
      if r :| 0 <= r < BoardSize && RowWin(g, r) {
        l := Row(r);
      } else if c :| 0 <= c < BoardSize && ColWin(g, c) {
        l := Col(c);
      } else if DiagWin(g) {
        l := Diagonal;
      } else {
        l := AntiDiagonal;
      }
      var p := g[LineCell(l, 0).0][LineCell(l, 0).1];
      OwnsThree(g, l, p);
      assert Owns(g, p, l);
    }
    if Wins(g, X) || Wins(g, O) {
      var p := if Wins(g, X) then X else O;
      var l :| ValidLine(l) && Owns(g, p, l);
      OwnsThree(g, l, p);
      match l
      case Row(i) => assert RowWin(g, i);
      case Col(j) => assert ColWin(g, j);
      case Diagonal => assert DiagWin(g);
      case AntiDiagonal => assert AntiDiagWin(g);
    }
  }

  /**
    Placing `p` on a blank cell of a board with no win can only complete a
    line through that cell, so if the new board wins, `p` is the winner and
    nobody else is.
   */
  lemma {:induction false} WinnerIsMover(g: Grid, r: int, c: int, p: Mark)
    requires WellFormed(g) && InRange(r, c) && p != Blank
    requires g[r][c] == Blank && !Win(g)
    requires Win(Put(g, r, c, p))
    ensures Wins(Put(g, r, c, p), p)
    ensures !Wins(Put(g, r, c, p), Other(p))
  {
    var h := Put(g, r, c, p);
    WinIffSomeoneWins(g);
    WinIffSomeoneWins(h);
    forall q, l | q != Blank && ValidLine(l) && Owns(h, q, l)
      ensures q == p
    {
      if forall k :: 0 <= k < BoardSize ==> LineCell(l, k) != (r, c) {
        assert Owns(g, q, l) by {
          forall k | 0 <= k < BoardSize
            ensures g[LineCell(l, k).0][LineCell(l, k).1] == q
          {
            assert h[LineCell(l, k).0][LineCell(l, k).1] == q;
          }
        }
        assert false;
      }
      var k :| 0 <= k < BoardSize && LineCell(l, k) == (r, c);
      assert h[r][c] == q;
    }
  }

  // ---------------------------------------------------------------- draw

  /** No cell is blank. */
  predicate Full(g: Grid)
    requires WellFormed(g)
  {
    forall r, c :: 0 <= r < BoardSize && 0 <= c < BoardSize ==> g[r][c] != Blank
  }

  // ---------------------------------------------------------------- counts

  /** How many cells of a row hold `m`. */
  function CountRow(s: seq<Mark>, m: Mark): (n: nat)
    ensures n <= |s|
  {
    if s == [] then 0 else (if s[0] == m then 1 else 0) + CountRow(s[1..], m)
  }

  /** How many cells of the board hold `m`. */
  function Count(g: Grid, m: Mark): nat {
    if g == [] then 0 else CountRow(g[0], m) + Count(g[1..], m)
  }

  function Ind(b: bool): int {
    if b then 1 else 0
  }

  lemma {:induction false} CountRowPut(s: seq<Mark>, j: int, b: Mark, m: Mark)
    requires 0 <= j < |s|
    ensures CountRow(s[j := b], m) == CountRow(s, m) - Ind(s[j] == m) + Ind(b == m)
  {
    if j > 0 {
      CountRowPut(s[1..], j - 1, b, m);
      assert s[j := b][1..] == s[1..][j - 1 := b];
    }
  }

  lemma {:induction false} CountGridPut(g: Grid, r: int, s: seq<Mark>, m: Mark)
    requires 0 <= r < |g|
    ensures Count(g[r := s], m) == Count(g, m) - CountRow(g[r], m) + CountRow(s, m)
  {
    if r > 0 {
      CountGridPut(g[1..], r - 1, s, m);
      assert g[r := s][1..] == g[1..][r - 1 := s];
    }
  }

  /** Setting one cell moves exactly one unit of count from the old mark to the new one. */
  lemma CountPut(g: Grid, r: int, c: int, b: Mark, m: Mark)
    requires WellFormed(g) && InRange(r, c)
    ensures Count(Put(g, r, c, b), m) == Count(g, m) - Ind(g[r][c] == m) + Ind(b == m)
  {
    CountGridPut(g, r, g[r][c := b], m);
    CountRowPut(g[r], c, b, m);
  }

  lemma {:induction false} CountRowZero(s: seq<Mark>, m: Mark)
    ensures CountRow(s, m) == 0 <==> forall k :: 0 <= k < |s| ==> s[k] != m
  {
    if s != [] {
      CountRowZero(s[1..], m);
      assert forall k :: 1 <= k < |s| ==> s[k] == s[1..][k - 1];
    }
  }

  lemma {:induction false} CountZero(g: Grid, m: Mark)
    ensures Count(g, m) == 0 <==> forall r :: 0 <= r < |g| ==> CountRow(g[r], m) == 0
  {
    if g != [] {
      CountZero(g[1..], m);
      assert forall r :: 1 <= r < |g| ==> g[r] == g[1..][r - 1];
    }
  }

  /** The draw query is exactly "no blank cell is left". */
  lemma FullIffNoBlank(g: Grid)
    requires WellFormed(g)
    ensures Full(g) <==> Count(g, Blank) == 0
  {
    CountZero(g, Blank);
    forall r | 0 <= r < BoardSize {
      CountRowZero(g[r], Blank);
    }
  }

  lemma {:induction false} CountRowTotal(s: seq<Mark>)
    ensures CountRow(s, Blank) + CountRow(s, X) + CountRow(s, O) == |s|
  {
    if s != [] {
      CountRowTotal(s[1..]);
    }
  }

  lemma {:induction false} CountTotalRows(g: Grid)
    requires forall i :: 0 <= i < |g| ==> |g[i]| == BoardSize
    ensures Count(g, Blank) + Count(g, X) + Count(g, O) == |g| * BoardSize
  {
    if g != [] {
      CountRowTotal(g[0]);
      CountTotalRows(g[1..]);
    }
  }

  /** Every cell holds exactly one of the three marks. */
  lemma CountTotal(g: Grid)
    requires WellFormed(g)
    ensures Count(g, Blank) + Count(g, X) + Count(g, O) == Cells
  {
    CountTotalRows(g);
  }

  lemma EmptyGridCounts()
    ensures Count(EmptyGrid(), Blank) == Cells
    ensures Count(EmptyGrid(), X) == 0 && Count(EmptyGrid(), O) == 0
  {
    var g := EmptyGrid();
    forall r | 0 <= r < BoardSize
      ensures CountRow(g[r], X) == 0 && CountRow(g[r], O) == 0
    {
      CountRowZero(g[r], X);
      CountRowZero(g[r], O);
    }
    CountZero(g, X);
    CountZero(g, O);
    CountTotal(g);
  }
}
