/**
 * The outcome predicates: the win check, "board full" and "tie".
 * Winner mirrors the win check as written (row scan, column scan, main
 * diagonal, anti-diagonal); LineCells and Completed are an independent
 * table of the eight lines against which Winner is proved.
 */
module Outcome {
  import opened Wrappers
  import opened Boards

  /** The row scan of the win check, from row i on. */
  function RowWinner(b: Grid, i: nat): Option<char>
    decreases 3 - i
  {
    if i >= 3 then None
    else if b[i][0] == b[i][1] == b[i][2] && b[i][0] != EMPTY then Some(b[i][0])
    else RowWinner(b, i + 1)
  }

  /** The column scan of the win check, from column i on. */
  function ColumnWinner(b: Grid, i: nat): Option<char>
    decreases 3 - i
  {
    if i >= 3 then None
    else if b[0][i] == b[1][i] == b[2][i] && b[0][i] != EMPTY then Some(b[0][i])
    else ColumnWinner(b, i + 1)
  }

  /** check_win: the mark of the first complete line, or None. */
  function Winner(b: Grid): Option<char> {
    var row := RowWinner(b, 0);
    if row.Some? then row
    else
      var column := ColumnWinner(b, 0);
      if column.Some? then column
      else if b[0][0] == b[1][1] == b[2][2] && b[0][0] != EMPTY then Some(b[0][0])
      else if b[0][2] == b[1][1] == b[2][0] && b[0][2] != EMPTY then Some(b[0][2])
      else None
  }

  /** The eight lines, numbered in the order the win check visits them:
      rows 0..2, columns 0..2, main diagonal, anti-diagonal. */
  type LineIdx = k: int | 0 <= k < 8

  function LineCells(b: Grid, k: LineIdx): (s: seq<char>)
    ensures |s| == 3
  {
    if k < 3 then [b[k][0], b[k][1], b[k][2]]
    else if k < 6 then [b[0][k - 3], b[1][k - 3], b[2][k - 3]]
    else if k == 6 then [b[0][0], b[1][1], b[2][2]]
    else [b[0][2], b[1][1], b[2][0]]
  }

  /** Line k holds three equal marks that are not empty. */
  predicate Completed(b: Grid, k: LineIdx) {
    var s := LineCells(b, k);
    s[0] == s[1] && s[1] == s[2] && s[0] != EMPTY
  }

  lemma {:induction false} RowWinnerFirst(b: Grid, i: nat)
    requires i <= 3
    ensures RowWinner(b, i).None? <==> forall k: LineIdx :: i <= k < 3 ==> !Completed(b, k)
    ensures forall k: LineIdx :: i <= k < 3 && Completed(b, k) && (forall k': LineIdx :: i <= k' < k ==> !Completed(b, k'))
              ==> RowWinner(b, i) == Some(LineCells(b, k)[0])
    decreases 3 - i
  {
    if i < 3 {
      RowWinnerFirst(b, i + 1);
      assert Completed(b, i) <==> b[i][0] == b[i][1] == b[i][2] && b[i][0] != EMPTY;
    }
  }

  lemma {:induction false} ColumnWinnerFirst(b: Grid, i: nat)
    requires i <= 3
    ensures ColumnWinner(b, i).None? <==> forall k: LineIdx :: 3 + i <= k < 6 ==> !Completed(b, k)
    ensures forall k: LineIdx :: 3 + i <= k < 6 && Completed(b, k) && (forall k': LineIdx :: 3 + i <= k' < k ==> !Completed(b, k'))
              ==> ColumnWinner(b, i) == Some(LineCells(b, k)[0])
    decreases 3 - i
  {
    if i < 3 {
      ColumnWinnerFirst(b, i + 1);
      assert Completed(b, 3 + i) <==> b[0][i] == b[1][i] == b[2][i] && b[0][i] != EMPTY;
    }
  }

  /** The win check answers None exactly when no line is complete, and
      otherwise names the mark of the first complete line in scan order;
      that mark is never '-'. */
  lemma WinnerFirstLine(b: Grid)
    ensures Winner(b).None? <==> forall k: LineIdx :: !Completed(b, k)
    ensures forall k: LineIdx :: Completed(b, k) && (forall k': LineIdx :: k' < k ==> !Completed(b, k'))
              ==> Winner(b) == Some(LineCells(b, k)[0])
    ensures Winner(b).Some? ==> Winner(b).value != EMPTY
  {
    RowWinnerFirst(b, 0);
    ColumnWinnerFirst(b, 0);
    assert Completed(b, 6) <==> b[0][0] == b[1][1] == b[2][2] && b[0][0] != EMPTY;
    assert Completed(b, 7) <==> b[0][2] == b[1][1] == b[2][0] && b[0][2] != EMPTY;
  }

  /** Three distinct squares cannot all be marked when only p1 and p2 may be. */
  lemma ThreeSquaresNotAllMarked(b: Grid, p1: Pos, p2: Pos, q1: Pos, q2: Pos, q3: Pos)
    requires forall p: Pos :: At(b, p) != EMPTY ==> p == p1 || p == p2
    requires q1 != q2 && q2 != q3 && q1 != q3
    ensures At(b, q1) == EMPTY || At(b, q2) == EMPTY || At(b, q3) == EMPTY
  {
  }

  /** A board on which at most two squares are marked has no winner. */
  lemma FewMarksNoWinner(b: Grid, p1: Pos, p2: Pos)
    requires forall p: Pos :: At(b, p) != EMPTY ==> p == p1 || p == p2
    ensures Winner(b) == None
  {
    forall k: LineIdx ensures !Completed(b, k) {
      if k < 3 {
        ThreeSquaresNotAllMarked(b, p1, p2, PosOf(k, 0), PosOf(k, 1), PosOf(k, 2));
      } else if k < 6 {
        ThreeSquaresNotAllMarked(b, p1, p2, PosOf(0, k - 3), PosOf(1, k - 3), PosOf(2, k - 3));
      } else if k == 6 {
        ThreeSquaresNotAllMarked(b, p1, p2, PosOf(0, 0), PosOf(1, 1), PosOf(2, 2));
      } else {
        ThreeSquaresNotAllMarked(b, p1, p2, PosOf(0, 2), PosOf(1, 1), PosOf(2, 0));
      }
    }
    WinnerFirstLine(b);
  }

  /** check_full: no cell of any row is '-'. */
  predicate IsFull(b: Grid) {
    forall row | row in b :: forall cell | cell in row :: cell != EMPTY
  }

  /** check_tie: full and without a winner. */
  predicate IsTie(b: Grid) {
    IsFull(b) && Winner(b).None?
  }

  /** The board is full exactly when no square is empty. */
  lemma FullIffNoEmptySquare(b: Grid)
    ensures IsFull(b) <==> forall p: Pos :: At(b, p) != EMPTY
  {
    if IsFull(b) {
      forall p: Pos ensures At(b, p) != EMPTY {
        assert b[Row(p)] in b;
        assert b[Row(p)][Col(p)] in b[Row(p)];
      }
    }
    if forall p: Pos :: At(b, p) != EMPTY {
      forall row | row in b ensures forall cell | cell in row :: cell != EMPTY {
        var i :| 0 <= i < 3 && b[i] == row;
        forall cell | cell in row ensures cell != EMPTY {
          var j :| 0 <= j < 3 && row[j] == cell;
          assert At(b, PosOf(i, j)) == cell;
        }
      }
    }
  }

  /** A tie is a board with no empty square and no complete line; so a board
      with an empty square, or with a winner, is never a tie. */
  lemma TieIff(b: Grid)
    ensures IsTie(b) <==> (forall p: Pos :: At(b, p) != EMPTY) && forall k: LineIdx :: !Completed(b, k)
    ensures (exists p: Pos :: At(b, p) == EMPTY) ==> !IsTie(b)
    ensures Winner(b).Some? ==> !IsTie(b)
  {
    FullIffNoEmptySquare(b);
    WinnerFirstLine(b);
  }
}
