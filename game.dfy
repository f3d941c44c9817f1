/**
 * The computer opponent as the program runs it. The board is one mutable
 * object shared by reference, as the Python list of lists is: check_fork and
 * the tiers of computer_input write probes into it and put '-' back. The
 * letter to move is the game's other piece of state, flipped by each move.
 * Every method is proved against the pure functions of Strategy.
 */
module Game {
  import opened Wrappers
  import opened Boards
  import opened Outcome
  import opened Strategy

  /** The board object; `board[i][j] = m` is `board.cells := Place(board.cells, i, j, m)`. */
  class Board {
    var cells: Grid

    /** create_board: every cell '-'. */
    constructor ()
      ensures cells == CreateBoard()
    {
      cells := CreateBoard();
    }
  }

  /** check_fork: for each empty square in row-major order, play `letter`
      there; if that wins, overwrite it with the opponent's letter, and if the
      opponent does not then win, put '-' back and answer `letter`; every other
      path also puts '-' back, and with no such square the answer is '-'.
      The answer is the pure Fork of the board it was given, and the board is
      left as it was found. */
  method CheckFork(board: Board, letter: char) returns (r: char)
    modifies board
    ensures board.cells == old(board.cells)
    ensures r == Fork(old(board.cells), letter)
  {
    ghost var b := board.cells;
    for i := 0 to 3
      invariant board.cells == b
      invariant forall p: Pos :: p < 3 * i ==> !ForkSquare(b, letter, p)
    {
      for j := 0 to 3
        invariant board.cells == b
        invariant forall p: Pos :: p < 3 * i + j ==> !ForkSquare(b, letter, p)
      {
        if board.cells[i][j] == EMPTY {
          board.cells := Place(board.cells, i, j, letter);
          ghost var probe := letter;
          if Winner(board.cells) == Some(letter) {
            var opponent := Flip(letter);
            board.cells := Place(board.cells, i, j, opponent);
            PlaceOverwrite(b, i, j, letter, opponent);
            probe := opponent;
            if Winner(board.cells) != Some(opponent) {
              board.cells := Place(board.cells, i, j, EMPTY);
              Restored(b, i, j, opponent);
              assert ForkSquare(b, letter, PosOf(i, j));
              return letter;
            }
          }
          board.cells := Place(board.cells, i, j, EMPTY);
          Restored(b, i, j, probe);
        }
        assert !ForkSquare(b, letter, PosOf(i, j));
      }
    }
    return EMPTY;
  }

  /** The question a probing tier asks once its probe is on the board: the
      win check for tiers 1 and 2, check_fork(board, cur) for tiers 3 and 4.
      The board is left as it was found. */
  method ProbeHits(board: Board, cur: char, t: Tier) returns (hit: bool)
    modifies board
    ensures board.cells == old(board.cells)
    ensures hit == Hits(old(board.cells), cur, t)
  {
    match t
    case WinNow =>
      hit := Winner(board.cells) == Some(cur);
    case BlockWin =>
      hit := Winner(board.cells) == Some(UserLetter(cur));
    case MakeFork =>
      var f := CheckFork(board, cur);
      hit := f == cur;
    case BlockFork =>
      var f := CheckFork(board, cur);
      hit := f == UserLetter(cur);
  }

  /** One probing tier of computer_input: in row-major order, put the tier's
      probe on each empty square and ask the tier's question; on the first
      hit leave `cur` on that square, otherwise put '-' back. The board is
      afterwards the old board with `cur` on the tier's first qualifying
      square, or the old board itself when no square qualifies. */
  method ScanTier(board: Board, cur: char, t: Tier) returns (moved: bool)
    modifies board
    ensures moved == FirstSquare(old(board.cells), cur, t).Some?
    ensures moved ==> var p := FirstSquare(old(board.cells), cur, t).value;
                      board.cells == Place(old(board.cells), Row(p), Col(p), cur)
    ensures !moved ==> board.cells == old(board.cells)
  {
    ghost var b := board.cells;
    for i := 0 to 3
      invariant board.cells == b
      invariant forall p: Pos :: p < 3 * i ==> !Qualifies(b, cur, t, p)
    {
      for j := 0 to 3
        invariant board.cells == b
        invariant forall p: Pos :: p < 3 * i + j ==> !Qualifies(b, cur, t, p)
      {
        if board.cells[i][j] == EMPTY {
          var probe := ProbeLetter(t, cur);
          board.cells := Place(board.cells, i, j, probe);
          var hit := ProbeHits(board, cur, t);
          if hit {
            // Tiers 2 and 4 replace the human's probe; in tiers 1 and 3 it is cur already.
            board.cells := Place(board.cells, i, j, cur);
            PlaceOverwrite(b, i, j, probe, cur);
            assert Qualifies(b, cur, t, PosOf(i, j));
            return true;
          }
          board.cells := Place(board.cells, i, j, EMPTY);
          Restored(b, i, j, probe);
        }
        assert !Qualifies(b, cur, t, PosOf(i, j));
      }
    }
    return false;
  }

  /** The game's state besides the board: the letter to move, which the
      program keeps in the module-level current_letter and starts at 'X'. */
  class Session {
    var currentLetter: char

    ghost predicate Valid()
      reads this
    {
      IsMark(currentLetter)
    }

    constructor ()
      ensures Valid() && currentLetter == 'X'
    {
      currentLetter := 'X';
    }

    /** computer_input: fills exactly one empty square with the letter to
        move, the square ChooseMove names when one of tiers 1-6 fires and
        some empty square otherwise, and flips the letter to move. The board
        must have an empty square: on a full board the random fallback loops
        forever. */
    method ComputerInput(board: Board)
      requires Valid()
      requires !IsFull(board.cells)
      modifies this, board
      ensures Valid()
      ensures currentLetter == Flip(old(currentLetter))
      ensures var c := ChooseMove(old(board.cells), old(currentLetter));
              c.Some? ==> board.cells == Place(old(board.cells), Row(c.value), Col(c.value), old(currentLetter))
      ensures exists p: Pos :: At(old(board.cells), p) == EMPTY
                && board.cells == Place(old(board.cells), Row(p), Col(p), old(currentLetter))
    {
      ghost var b := board.cells;
      var moved := ScanTier(board, currentLetter, WinNow);
      if moved {
        currentLetter := Flip(currentLetter);
        return;
      }
      moved := ScanTier(board, currentLetter, BlockWin);
      if moved {
        currentLetter := Flip(currentLetter);
        return;
      }
      moved := ScanTier(board, currentLetter, MakeFork);
      if moved {
        currentLetter := Flip(currentLetter);
        return;
      }
      moved := ScanTier(board, currentLetter, BlockFork);
      if moved {
        currentLetter := Flip(currentLetter);
        return;
      }
      if board.cells[1][1] == EMPTY {
        board.cells := Place(board.cells, 1, 1, currentLetter);
        currentLetter := Flip(currentLetter);
        return;
      }
      for n := 0 to 4
        invariant board.cells == b
        invariant forall m | 0 <= m < n :: At(b, CORNERS[m]) != EMPTY
      {
        var corner := CORNERS[n];
        if board.cells[Row(corner)][Col(corner)] == EMPTY {
          board.cells := Place(board.cells, Row(corner), Col(corner), currentLetter);
          currentLetter := Flip(currentLetter);
          return;
        }
      }
      // No strategic move: some empty square, as the random loop eventually picks.
      FullIffNoEmptySquare(b);
      var p: Pos :| At(board.cells, p) == EMPTY;
      board.cells := Place(board.cells, Row(p), Col(p), currentLetter);
      currentLetter := Flip(currentLetter);
    }
  }
}
