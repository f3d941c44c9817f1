/**
 * The 3x3 board: a list of three rows of three cells, each cell '-' (empty),
 * 'X' or 'O'. Squares are also numbered 0..8 in row-major order, which is the
 * order every scan of the computer opponent visits them.
 */
module Boards {

  /** A row or column coordinate. */
  type Idx = i: int | 0 <= i < 3

  /** A square in row-major order: square p is row p / 3, column p % 3. */
  type Pos = p: int | 0 <= p < 9

  /** The board, as the nested Python list it is. */
  type Grid = b: seq<seq<char>> | |b| == 3 && forall i | 0 <= i < 3 :: |b[i]| == 3
    witness [['-', '-', '-'], ['-', '-', '-'], ['-', '-', '-']]

  const EMPTY: char := '-'

  function Row(p: Pos): Idx { p / 3 }

  function Col(p: Pos): Idx { p % 3 }

  /** The row-major number of square (i, j). */
  function PosOf(i: Idx, j: Idx): (p: Pos)
    ensures Row(p) == i && Col(p) == j
  {
    3 * i + j
  }

  function At(b: Grid, p: Pos): char { b[Row(p)][Col(p)] }

  /** Two boards that agree on every cell are the same board. */
  lemma GridExt(a: Grid, b: Grid)
    requires forall i: Idx, j: Idx :: a[i][j] == b[i][j]
    ensures a == b
  {
    forall i: Idx ensures a[i] == b[i] {
      assert forall j: Idx :: a[i][j] == b[i][j];
    }
  }

  /** A fresh board: every cell empty. */
  function CreateBoard(): (b: Grid)
    ensures forall i: Idx, j: Idx :: b[i][j] == EMPTY
  {
    [[EMPTY, EMPTY, EMPTY], [EMPTY, EMPTY, EMPTY], [EMPTY, EMPTY, EMPTY]]
  }

  /** The board after `board[i][j] = m`: that cell holds m, every other cell is as before. */
  function Place(b: Grid, i: Idx, j: Idx, m: char): (r: Grid)
    ensures r[i][j] == m
    ensures forall i': Idx, j': Idx :: (i' != i || j' != j) ==> r[i'][j'] == b[i'][j']
  {
    b[i := b[i][j := m]]
  }

  /** Writing a cell twice keeps only the second write. */
  lemma PlaceOverwrite(b: Grid, i: Idx, j: Idx, m: char, m': char)
    ensures Place(Place(b, i, j, m), i, j, m') == Place(b, i, j, m')
  {
    GridExt(Place(Place(b, i, j, m), i, j, m'), Place(b, i, j, m'));
  }

  /** Writing back the value a cell already holds changes nothing. */
  lemma PlaceSame(b: Grid, i: Idx, j: Idx)
    ensures Place(b, i, j, b[i][j]) == b
  {
    GridExt(Place(b, i, j, b[i][j]), b);
  }

  /** A probe on an empty cell, then '-' written back, leaves the board as it was. */
  lemma Restored(b: Grid, i: Idx, j: Idx, m: char)
    requires b[i][j] == EMPTY
    ensures Place(Place(b, i, j, m), i, j, EMPTY) == b
  {
    PlaceOverwrite(b, i, j, m, EMPTY);
    PlaceSame(b, i, j);
  }

  /** One of the two players' marks. */
  predicate IsMark(c: char) { c == 'X' || c == 'O' }

  /** The letter switch used after every move and for the fork check's opponent:
      'X' if the letter is 'O', otherwise 'O'. */
  function Flip(c: char): char { if c == 'O' then 'X' else 'O' }

  /** The human's letter as computer_input computes it: 'O' if the computer
      plays 'X', otherwise 'X'. */
  function UserLetter(c: char): char { if c == 'X' then 'O' else 'X' }

  /** On a mark, the two ways of naming "the other player" agree, and the result
      is the other mark. Off the marks they differ: Flip('-') is 'O', UserLetter('-') is 'X'. */
  lemma OtherMark(c: char)
    ensures IsMark(c) ==> Flip(c) == UserLetter(c) && IsMark(Flip(c)) && Flip(c) != c
    ensures !IsMark(c) ==> Flip(c) == 'O' && UserLetter(c) == 'X'
  {
  }
}
