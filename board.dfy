/**
  The Caro board engine shared by the private-chat game (`CaroGame`) and the
  betting room game (`RoomCaroGame`) of caro_game/models.py: a square grid of
  cells holding "" (empty), "X" or "O"; move legality; the run-length win test
  over four directions; the full-board test; and the one-ring expansion of the
  room board.
*/
module Board {
  import opened Common

  type Cell = string
  type Grid = seq<seq<Cell>>

  const Empty: Cell := ""

  predicate IsSquare(b: Grid, n: nat)
  {
    |b| == n && forall i :: 0 <= i < n ==> |b[i]| == n
  }

  predicate InBounds(n: int, r: int, c: int)
  {
    0 <= r < n && 0 <= c < n
  }

  /** `_create_empty_board`: n rows of n empty cells. */
  function EmptyBoard(n: nat): (b: Grid)
    ensures IsSquare(b, n)
    ensures forall i, j :: 0 <= i < n && 0 <= j < n ==> b[i][j] == Empty
  {
    seq(n, _ => seq(n, _ => Empty))
  }

  /** The cell (row, col) of a square board set to `symbol`. */
  function Place(b: Grid, row: nat, col: nat, symbol: Cell): (b': Grid)
    requires IsSquare(b, |b|) && InBounds(|b|, row, col)
    ensures IsSquare(b', |b|)
    ensures b'[row][col] == symbol
    ensures forall i, j :: InBounds(|b|, i, j) && (i, j) != (row, col) ==> b'[i][j] == b[i][j]
  {
    b[row := b[row][col := symbol]]
  }

  // ---------------------------------------------------------------------
  // Lines and winners
  // ---------------------------------------------------------------------

  /** The four scan directions (0,1), (1,0), (1,1), (1,-1) of `check_winner`. */
  datatype Dir = Horizontal | Vertical | Diagonal | AntiDiagonal

  const Directions: seq<Dir> := [Horizontal, Vertical, Diagonal, AntiDiagonal]

  /** Row step `dr` of a direction. */
  function DR(d: Dir): int
  {
    match d
    case Horizontal => 0
    case _ => 1
  }

  /** Column step `dc` of a direction. */
  function DC(d: Dir): int
  {
    match d
    case Vertical => 0
    case AntiDiagonal => -1
    case _ => 1
  }

  /** Row of the cell `i` steps from row `r` along `d` (`r + i*dr`). */
  function RowAt(r: int, i: int, d: Dir): int
  {
    match d
    case Horizontal => r
    case _ => r + i
  }

  /** Column of the cell `i` steps from column `c` along `d` (`c + i*dc`). */
  function ColAt(c: int, i: int, d: Dir): int
  {
    match d
    case Vertical => c
    case AntiDiagonal => c - i
    case _ => c + i
  }

  /** One step back along `d` from (r, c) is the cell whose next cell is (r, c). */
  lemma StepBack(r: int, c: int, d: Dir)
    ensures RowAt(r - DR(d), 1, d) == r && ColAt(c - DC(d), 1, d) == c
  {}

  /** The `k` cells from (r, c) along `d` all lie on the board and all hold `s`. */
  ghost predicate Line(b: Grid, r: int, c: int, d: Dir, k: int, s: Cell)
    requires IsSquare(b, |b|)
  {
    forall i :: 0 <= i < k ==>
      InBounds(|b|, RowAt(r, i, d), ColAt(c, i, d)) && b[RowAt(r, i, d)][ColAt(c, i, d)] == s
  }

  /** Length of run that `count >= win_condition` asks for (a count is never below 1). */
  function RunLength(w: int): nat
  {
    if w < 1 then 1 else w
  }

  /** `s` is a symbol with at least `win_condition` equal cells in a row somewhere. */
  ghost predicate Wins(b: Grid, s: Cell, w: int)
    requires IsSquare(b, |b|)
  {
    s != Empty && exists r, c, d :: Line(b, r, c, d, RunLength(w), s)
  }

  /** No cell is empty: `is_board_full`. */
  ghost predicate IsFull(b: Grid)
  {
    forall i, j :: 0 <= i < |b| && 0 <= j < |b[i]| ==> b[i][j] != Empty
  }

  lemma LineStart(b: Grid, r: int, c: int, d: Dir, k: int, s: Cell)
    requires IsSquare(b, |b|) && k >= 1 && Line(b, r, c, d, k, s)
    ensures InBounds(|b|, r, c) && b[r][c] == s
  {
    assert RowAt(r, 0, d) == r && ColAt(c, 0, d) == c;
  }

  /** A line may be extended backwards by one cell. */
  lemma LinePrepend(b: Grid, r: int, c: int, d: Dir, k: nat, s: Cell)
    requires IsSquare(b, |b|)
    requires Line(b, RowAt(r, 1, d), ColAt(c, 1, d), d, k, s)
    requires InBounds(|b|, r, c) && b[r][c] == s
    ensures Line(b, r, c, d, k + 1, s)
  {
    forall i | 0 <= i < k + 1
      ensures InBounds(|b|, RowAt(r, i, d), ColAt(c, i, d)) && b[RowAt(r, i, d)][ColAt(c, i, d)] == s
    {
      if i > 0 {
        assert RowAt(r, i, d) == RowAt(RowAt(r, 1, d), i - 1, d);
        assert ColAt(c, i, d) == ColAt(ColAt(c, 1, d), i - 1, d);
      }
    }
  }

  /** A line whose k-th cell is off the board or another symbol has fewer than k + 1 cells. */
  lemma LineBreaks(b: Grid, r: int, c: int, d: Dir, k: nat, s: Cell)
    requires IsSquare(b, |b|)
    requires !(InBounds(|b|, RowAt(r, k, d), ColAt(c, k, d)) && b[RowAt(r, k, d)][ColAt(c, k, d)] == s)
    ensures forall m :: k < m ==> !Line(b, r, c, d, m, s)
  {}

  /** `j` steps from the cell `i` steps along `d` is `i + j` steps along `d`. */
  lemma Shift(r: int, c: int, i: int, j: int, d: Dir)
    ensures RowAt(RowAt(r, i, d), j, d) == RowAt(r, i + j, d)
    ensures ColAt(ColAt(c, i, d), j, d) == ColAt(c, i + j, d)
  {
  }

  /** A line may be extended forwards by one cell. */
  lemma LineAppend(b: Grid, r: int, c: int, d: Dir, k: nat, s: Cell)
    requires IsSquare(b, |b|) && Line(b, r, c, d, k, s)
    requires InBounds(|b|, RowAt(r, k, d), ColAt(c, k, d)) && b[RowAt(r, k, d)][ColAt(c, k, d)] == s
    ensures Line(b, r, c, d, k + 1, s)
    ensures RowAt(r, k + 1, d) == RowAt(r, k, d) + DR(d) && ColAt(c, k + 1, d) == ColAt(c, k, d) + DC(d)
  {
  }

  /**
    The inner loops of `check_winner` for one non-empty cell and one direction:
    `count` is 1 plus the equal cells found forwards plus those found backwards.
    The `count` cells form the whole run through (row, col): a line from
    (sr, sc) that passes through the cell, with no equal cell before its
    start and none after its end. (sr, sc) comes no later than (row, col)
    in the row-by-row scan.
  */
  method CountRun(b: Grid, row: int, col: int, d: Dir) returns (count: nat, ghost sr: int, ghost sc: int)
    requires IsSquare(b, |b|) && InBounds(|b|, row, col) && b[row][col] != Empty
    ensures count >= 1 && Line(b, sr, sc, d, count, b[row][col])
    ensures exists j :: 0 <= j < count && RowAt(sr, j, d) == row && ColAt(sc, j, d) == col
    ensures !(InBounds(|b|, sr - DR(d), sc - DC(d)) && b[sr - DR(d)][sc - DC(d)] == b[row][col])
    ensures !Line(b, sr, sc, d, count + 1, b[row][col])
    ensures !Line(b, row, col, d, count + 1, b[row][col])
    ensures sr < row || (sr == row && sc <= col)
  {
    var forward := RunForward(b, row, col, d);
    count, sr, sc := RunBackward(b, row, col, d, forward);
    var j := count - forward;
    assert RowAt(sr, j, d) == row && ColAt(sc, j, d) == col;
    Shift(sr, sc, j, forward, d);
    LineBreaks(b, sr, sc, d, count, b[row][col]);
  }

  /** The forward loop of `CountRun`: the cells equal to (row, col) from it along `d`, and no more. */
  method RunForward(b: Grid, row: int, col: int, d: Dir) returns (count: nat)
    requires IsSquare(b, |b|) && InBounds(|b|, row, col) && b[row][col] != Empty
    ensures count >= 1 && Line(b, row, col, d, count, b[row][col])
    ensures forall m :: count < m ==> !Line(b, row, col, d, m, b[row][col])
    ensures !(InBounds(|b|, RowAt(row, count, d), ColAt(col, count, d)) && b[RowAt(row, count, d)][ColAt(col, count, d)] == b[row][col])
  {
    var n := |b|;
    var symbol := b[row][col];
    count := 1;
    var r, c := row + DR(d), col + DC(d);
    while InBounds(n, r, c) && b[r][c] == symbol
      invariant count >= 1
      invariant r == RowAt(row, count, d) && c == ColAt(col, count, d)
      invariant Line(b, row, col, d, count, symbol)
      decreases n - (if d == Horizontal then c else r)
    {
      LineAppend(b, row, col, d, count, symbol);
      count := count + 1;
      r, c := r + DR(d), c + DC(d);
    }
    LineBreaks(b, row, col, d, count, symbol);
  }

  /**
    The backward loop of `CountRun`: starting from a line of `forward` cells at
    (row, col), each equal cell before it adds one; the line found starts at
    (sr, sc), `count - forward` cells before (row, col), and the cell before
    (sr, sc) is off the board or holds something else.
  */
  method RunBackward(b: Grid, row: int, col: int, d: Dir, forward: nat) returns (count: nat, ghost sr: int, ghost sc: int)
    requires IsSquare(b, |b|) && InBounds(|b|, row, col) && Line(b, row, col, d, forward, b[row][col])
    ensures count >= forward && Line(b, sr, sc, d, count, b[row][col])
    ensures RowAt(sr, count - forward, d) == row && ColAt(sc, count - forward, d) == col
    ensures !(InBounds(|b|, sr - DR(d), sc - DC(d)) && b[sr - DR(d)][sc - DC(d)] == b[row][col])
  {
    var n := |b|;
    var symbol := b[row][col];
    count := forward;
    var r, c := row - DR(d), col - DC(d);
    StepBack(row, col, d);
    while InBounds(n, r, c) && b[r][c] == symbol
      invariant count >= forward
      invariant Line(b, RowAt(r, 1, d), ColAt(c, 1, d), d, count, symbol)
      invariant RowAt(RowAt(r, 1, d), count - forward, d) == row && ColAt(ColAt(c, 1, d), count - forward, d) == col
      decreases if d == Horizontal then c else r
    {
      LinePrepend(b, r, c, d, count, symbol);
      StepBack(r, c, d);
      count := count + 1;
      r, c := r - DR(d), c - DC(d);
    }
    sr, sc := RowAt(r, 1, d), ColAt(c, 1, d);
    StepBack(r + DR(d), c + DC(d), d);
  }

  /**
    `check_winner`: scan every non-empty cell and every direction, counting
    equal cells forwards and backwards from it. The result names a symbol only
    if that symbol has a winning run, and is `None` exactly when no symbol has one.
    Should both symbols have one, the scan order decides: the symbol named is
    the one whose winning run starts first, row by row.
  */
  method CheckWinner(b: Grid, w: int) returns (winner: Option<Cell>)
    requires IsSquare(b, |b|)
    ensures winner.Some? ==> Wins(b, winner.value, w)
    ensures winner.None? <==> forall s :: !Wins(b, s, w)
    ensures winner.Some? ==> exists r, c, d ::
      && Line(b, r, c, d, RunLength(w), winner.value)
      && forall r', c', d', s :: (r' < r || (r' == r && c' < c)) && s != Empty ==> !Line(b, r', c', d', RunLength(w), s)
  {
    var n := |b|;
    var row := 0;
    while row < n
      invariant 0 <= row <= n
      invariant forall r, c, d, s :: 0 <= r < row && s != Empty ==> !Line(b, r, c, d, RunLength(w), s)
    {
      var col := 0;
      while col < n
        invariant 0 <= col <= n
        invariant forall r, c, d, s :: 0 <= r < row && s != Empty ==> !Line(b, r, c, d, RunLength(w), s)
        invariant forall c, d, s :: 0 <= c < col && s != Empty ==> !Line(b, row, c, d, RunLength(w), s)
      {
        var symbol := b[row][col];
        if symbol != Empty {
          var k := 0;
          while k < 4
            invariant 0 <= k <= 4
            invariant forall j :: 0 <= j < k ==> !Line(b, row, col, Directions[j], RunLength(w), symbol)
          {
            var count, sr, sc := CountRun(b, row, col, Directions[k]);
            if count >= w {
              assert Line(b, sr, sc, Directions[k], RunLength(w), symbol);
              forall r', c', d', s | (r' < sr || (r' == sr && c' < sc)) && s != Empty
                ensures !Line(b, r', c', d', RunLength(w), s)
              {
                assert r' < row || (r' == row && c' < col);
                assert RowAt(r', 0, d') == r' && ColAt(c', 0, d') == c';
              }
              assert Wins(b, symbol, w);
              return Some(symbol);
            }
            assert !Line(b, row, col, Directions[k], RunLength(w), symbol) by {
              if Line(b, row, col, Directions[k], RunLength(w), symbol) {
                assert Line(b, row, col, Directions[k], count + 1, symbol);
              }
            }
            k := k + 1;
          }
          forall d: Dir
            ensures !Line(b, row, col, d, RunLength(w), symbol)
          {
            assert d == Directions[match d case Horizontal => 0 case Vertical => 1 case Diagonal => 2 case AntiDiagonal => 3];
          }
        }
        forall d: Dir, s | s != Empty && Line(b, row, col, d, RunLength(w), s)
          ensures false
        {
          LineStart(b, row, col, d, RunLength(w), s);
        }
        col := col + 1;
      }
      forall c, d: Dir, s | s != Empty && Line(b, row, c, d, RunLength(w), s)
        ensures false
      {
        LineStart(b, row, c, d, RunLength(w), s);
      }
      row := row + 1;
    }
    forall r, c, d: Dir, s | s != Empty && Line(b, r, c, d, RunLength(w), s)
      ensures false
    {
      LineStart(b, r, c, d, RunLength(w), s);
    }
    return None;
  }

  /** `is_board_full`: true exactly when no cell is empty. */
  method IsBoardFull(b: Grid) returns (full: bool)
    ensures full <==> IsFull(b)
  {
    for i := 0 to |b|
      invariant forall x, y :: 0 <= x < i && 0 <= y < |b[x]| ==> b[x][y] != Empty
    {
      var row := b[i];
      for j := 0 to |row|
        invariant forall y :: 0 <= y < j ==> row[y] != Empty
      {
        if row[j] == Empty {
          return false;
        }
      }
    }
    return true;
  }

  // ---------------------------------------------------------------------
  // Moves: only the mover's symbol can newly win
  // ---------------------------------------------------------------------

  /**
    Placing `symbol` cannot give any other symbol a winning run: a run of
    `s != symbol` never passes through the new cell, so it was there before.
  */
  lemma PlaceOnlyMoverWins(b: Grid, row: nat, col: nat, symbol: Cell, s: Cell, w: int)
    requires IsSquare(b, |b|) && InBounds(|b|, row, col)
    requires s != symbol && Wins(Place(b, row, col, symbol), s, w)
    ensures Wins(b, s, w)
  {
    var b' := Place(b, row, col, symbol);
    var r, c, d :| Line(b', r, c, d, RunLength(w), s);
    forall i | 0 <= i < RunLength(w)
      ensures InBounds(|b|, RowAt(r, i, d), ColAt(c, i, d)) && b[RowAt(r, i, d)][ColAt(c, i, d)] == s
    {
      assert b'[RowAt(r, i, d)][ColAt(c, i, d)] == s;
    }
    assert Line(b, r, c, d, RunLength(w), s);
  }

  /** A freshly created board has no winner, whatever the win condition. */
  lemma EmptyBoardHasNoWinner(n: nat, s: Cell, w: int)
    ensures !Wins(EmptyBoard(n), s, w)
  {
    if Wins(EmptyBoard(n), s, w) {
      var r, c, d :| Line(EmptyBoard(n), r, c, d, RunLength(w), s);
      LineStart(EmptyBoard(n), r, c, d, RunLength(w), s);
    }
  }

  // ---------------------------------------------------------------------
  // The room board: growth by one ring
  // ---------------------------------------------------------------------

  /** The cell lies on the outermost ring of an n-by-n board. */
  predicate OnEdge(n: int, r: int, c: int)
  {
    r == 0 || r == n - 1 || c == 0 || c == n - 1
  }

  /** Every cell of the outermost ring is empty. */
  ghost predicate RingEmpty(b: Grid)
    requires IsSquare(b, |b|)
  {
    forall i, j :: InBounds(|b|, i, j) && OnEdge(|b|, i, j) ==> b[i][j] == Empty
  }

  /** The board `_expand_board` builds: one empty ring around a copy shifted by (+1, +1). */
  function Expanded(b: Grid): (e: Grid)
    requires IsSquare(b, |b|)
    ensures IsSquare(e, |b| + 2)
  {
    seq(|b| + 2, i requires 0 <= i < |b| + 2 =>
      seq(|b| + 2, j requires 0 <= j < |b| + 2 =>
        if 1 <= i <= |b| && 1 <= j <= |b| then b[i - 1][j - 1] else Empty))
  }

  /**
    `_expand_board`: allocate an empty (n+2)-by-(n+2) board and copy every old
    cell (i, j) to (i+1, j+1).
  */
  method ExpandBoard(b: Grid) returns (e: Grid)
    requires IsSquare(b, |b|)
    ensures e == Expanded(b)
  {
    var n := |b|;
    var size := n + 2;
    e := EmptyBoard(size);
    for i := 0 to n
      invariant IsSquare(e, size)
      invariant forall x, y :: InBounds(size, x, y) ==>
        e[x][y] == if 1 <= x <= i && 1 <= y <= n then b[x - 1][y - 1] else Empty
    {
      for j := 0 to n
        invariant IsSquare(e, size)
        invariant forall x, y :: InBounds(size, x, y) ==>
          e[x][y] == if (1 <= x <= i && 1 <= y <= n) || (x == i + 1 && 1 <= y <= j) then b[x - 1][y - 1] else Empty
      {
        e := e[i + 1 := e[i + 1][j + 1 := b[i][j]]];
      }
    }
    assert forall x :: 0 <= x < size ==> e[x] == Expanded(b)[x];
  }

  /**
    The expansion keeps every old cell at (i+1, j+1), leaves the new ring
    empty, and keeps nothing else.
  */
  lemma ExpandedShape(b: Grid)
    requires IsSquare(b, |b|)
    ensures forall i, j :: InBounds(|b|, i, j) ==> Expanded(b)[i + 1][j + 1] == b[i][j]
    ensures RingEmpty(Expanded(b))
  {
  }

  /** Growing the board neither creates nor destroys a winning run. */
  lemma ExpandedWins(b: Grid, s: Cell, w: int)
    requires IsSquare(b, |b|)
    ensures Wins(Expanded(b), s, w) <==> Wins(b, s, w)
  {
    var e := Expanded(b);
    var k := RunLength(w);
    if Wins(b, s, w) {
      var r, c, d :| Line(b, r, c, d, k, s);
      var r', c' := r + 1, c + 1;
      forall i | 0 <= i < k
        ensures InBounds(|e|, RowAt(r', i, d), ColAt(c', i, d)) && e[RowAt(r', i, d)][ColAt(c', i, d)] == s
      {
        assert InBounds(|b|, RowAt(r, i, d), ColAt(c, i, d));
        assert RowAt(r', i, d) == RowAt(r, i, d) + 1 && ColAt(c', i, d) == ColAt(c, i, d) + 1;
      }
      assert Line(e, r', c', d, k, s);
    }
    if Wins(e, s, w) {
      var r, c, d :| Line(e, r, c, d, k, s);
      var r', c' := r - 1, c - 1;
      forall i | 0 <= i < k
        ensures InBounds(|b|, RowAt(r', i, d), ColAt(c', i, d)) && b[RowAt(r', i, d)][ColAt(c', i, d)] == s
      {
        assert InBounds(|e|, RowAt(r, i, d), ColAt(c, i, d)) && e[RowAt(r, i, d)][ColAt(c, i, d)] == s;
        assert RowAt(r', i, d) == RowAt(r, i, d) - 1 && ColAt(c', i, d) == ColAt(c, i, d) - 1;
      }
      assert Line(b, r', c', d, k, s);
    }
  }

  /**
    The board an accepted room move produces (caro_game/models.py:373-381):
    a move on the outer ring grows the board and lands at (row+1, col+1);
    any other move is placed where it was asked for.
  */
  function RoomPlace(b: Grid, row: nat, col: nat, symbol: Cell): (b': Grid)
    requires IsSquare(b, |b|) && InBounds(|b|, row, col)
    ensures IsSquare(b', |b'|)
  {
    if OnEdge(|b|, row, col) then Place(Expanded(b), row + 1, col + 1, symbol)
    else Place(b, row, col, symbol)
  }

  /**
    The outer ring of a room board stays empty: every move on it grows a new
    empty ring. So a room board is never full, which is why the room game,
    which has no draw test, cannot get stuck on a full board.
  */
  lemma RoomPlaceKeepsRingEmpty(b: Grid, row: nat, col: nat, symbol: Cell)
    requires IsSquare(b, |b|) && InBounds(|b|, row, col) && RingEmpty(b)
    ensures RingEmpty(RoomPlace(b, row, col, symbol))
    ensures !IsFull(RoomPlace(b, row, col, symbol))
  {
    var b' := RoomPlace(b, row, col, symbol);
    if OnEdge(|b|, row, col) {
      ExpandedShape(b);
    }
    assert InBounds(|b'|, 0, 0) && OnEdge(|b'|, 0, 0);
  }

  /**
    A room move never lets a symbol other than the mover's win: expansion
    keeps the winners, and the placement can only add the mover's runs.
  */
  lemma RoomPlaceOnlyMoverWins(b: Grid, row: nat, col: nat, symbol: Cell, s: Cell, w: int)
    requires IsSquare(b, |b|) && InBounds(|b|, row, col)
    requires s != symbol && Wins(RoomPlace(b, row, col, symbol), s, w)
    ensures Wins(b, s, w)
  {
    if OnEdge(|b|, row, col) {
      var e := Expanded(b);
      assert RoomPlace(b, row, col, symbol) == Place(e, row + 1, col + 1, symbol);
      PlaceOnlyMoverWins(e, row + 1, col + 1, symbol, s, w);
      ExpandedWins(b, s, w);
    } else {
      assert RoomPlace(b, row, col, symbol) == Place(b, row, col, symbol);
      PlaceOnlyMoverWins(b, row, col, symbol, s, w);
    }
  }
}
