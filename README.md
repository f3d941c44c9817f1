# Tic-Tac-Toe computer opponent, modelled in Dafny

This project models the decision-making core of a small Python Tic-Tac-Toe
game (`tic_tac_toe.py`). The board is a 3x3 grid of `'-'`, `'X'` and `'O'`.
The model covers:

- the outcome predicates: `check_win`, `check_full` and `check_tie`;
- the "fork" check `check_fork`, which writes probes into the board and puts
  them back;
- the computer's move `computer_input`. It is a cascade of place-and-revert
  scans: win now, block the human's win, "fork", "block fork". Then come the
  centre, the first empty corner and a random empty square. The move also
  flips the letter to move.

The model has two layers.

- **Pure specification** (`Boards`, `Outcome`, `Strategy`). Functions over
  the board as a value (`Grid`, three rows of three characters):
  - `Winner` mirrors the win check. It is proved against an independent
    table of the eight lines (`LineCells`, `Completed`).
  - `Fork` and `ForkFrom` give what check_fork answers.
  - `FirstFrom` is "the first square in row-major order that stops a tier".
  - `ChooseMove` is the whole cascade for tiers 1 to 6. `None` means the
    random fallback.
- **Imperative model** (`Game`). The board is a `Board` object whose `cells`
  field the methods reassign, as the Python code assigns `board[i][j]` on
  one shared list. `Session` holds the letter to move, the program's global
  `current_letter`.
  - `CheckFork` and `ScanTier` are the loops of the source, probes and
    reverts included. Each is proved equal to its pure counterpart, and each
    is proved to leave the board as it found it unless it makes the move.
  - `Session.ComputerInput` is proved to do three things. It fills exactly
    one previously empty square with the letter to move. That square is the
    one `ChooseMove` names whenever one of tiers 1 to 6 fires. It flips the
    letter to move.

Squares are numbered 0..8 in row-major order: square `p` is row `p / 3`,
column `p % 3`. This is the order in which every scan of the source visits
them.

Behaviour reproduced as the code does it, where the code's comments or a
reader's expectation would suggest otherwise:

- **Tier 4 is dead.** Its comment (tic_tac_toe.py:87) says it looks for the
  human's fork. The code calls `check_fork(board, current_letter)` and
  compares the answer with the human's letter. `check_fork` can only return
  its argument or `'-'`, so tier 4 never fires (`BlockForkNeverFires`). It
  still probes and reverts every empty square, so it leaves the board as it
  found it.
- **The fork check finds a single threat.** `check_fork` only confirms that
  one line completes, and that overwriting the square with the opponent's
  mark would not complete one for the opponent. It is not a double-threat
  detector, and the model keeps it that way.
- **Tiers 1 and 3 keep their probe.** On a hit they leave the probe, already
  the computer's mark, on the board and return.
- **Tier 2 overwrites its probe.** It replaces the human's probe with the
  computer's letter.
- **The fallback is some empty square.** The source draws row and column
  with `random.randint` until it hits an empty square. The model says only
  that some empty square is filled. On a full board the source's loop never
  ends, so `ComputerInput` requires a board that is not full.

## Model

| member | source | states |
|---|---|---|
| `Boards.CreateBoard` | tic_tac_toe.py:4-10 | the new board has every one of its nine cells `'-'` |
| `Game.Board.constructor` | tic_tac_toe.py:9 | a new board object holds the all-`'-'` board |
| `Boards.Place` | tic_tac_toe.py:59 | an assignment `board[i][j] = m` puts `m` in that cell and leaves the other eight cells unchanged |
| `Boards.Flip` | tic_tac_toe.py:61 | the flip `'X' if c == 'O' else 'O'` of lines 39, 61, 73, 83, 94, 101, 109, 118 and 163; no contract of its own, `OtherMark` states its meaning |
| `Boards.UserLetter` | tic_tac_toe.py:66 | the human's letter `'O' if c == 'X' else 'X'`; no contract of its own, `OtherMark` states its meaning |
| `Boards.OtherMark` | tic_tac_toe.py:61-66 | for `'X'`/`'O'`, the letter flip (`'X' if c == 'O' else 'O'`) and the human-letter rule (`'O' if c == 'X' else 'X'`) agree, give the other mark, and never give `c` itself; off the marks they differ |
| `Outcome.RowWinner` | tic_tac_toe.py:130-132 | the row loop of check_win from row i on; no contract of its own, `RowWinnerFirst` characterises it |
| `Outcome.ColumnWinner` | tic_tac_toe.py:134-136 | the column loop of check_win from column i on; no contract of its own, `ColumnWinnerFirst` characterises it |
| `Outcome.Winner` | tic_tac_toe.py:125-142 | check_win: rows, then columns, then the two diagonals; no contract of its own, `WinnerFirstLine` characterises it |
| `Outcome.RowWinnerFirst` | tic_tac_toe.py:130-132 | the row scan answers None iff no row is complete, and otherwise the mark of the first complete row |
| `Outcome.ColumnWinnerFirst` | tic_tac_toe.py:134-136 | the column scan answers None iff no column is complete, and otherwise the mark of the first complete column |
| `Outcome.WinnerFirstLine` | tic_tac_toe.py:125-142 | check_win answers None iff none of the 8 lines has three equal non-`'-'` cells; otherwise it answers the mark of the first complete line in the order rows 0-2, columns 0-2, main diagonal, anti-diagonal; that mark is never `'-'` |
| `Outcome.FewMarksNoWinner` | tic_tac_toe.py:125-142 | a board with at most two marked squares has no winner |
| `Outcome.IsFull` | tic_tac_toe.py:144-148 | check_full's nested `all`; no contract of its own, `FullIffNoEmptySquare` characterises it |
| `Outcome.IsTie` | tic_tac_toe.py:150-154 | check_tie: full and no winner; no contract of its own, `TieIff` characterises it |
| `Outcome.FullIffNoEmptySquare` | tic_tac_toe.py:144-148 | check_full holds iff none of the nine squares is `'-'` |
| `Outcome.TieIff` | tic_tac_toe.py:150-154 | check_tie holds iff no square is `'-'` and no line is complete; so a board with an empty square or with a winner is never a tie |
| `Strategy.ForkSquare` | tic_tac_toe.py:159-165 | the test check_fork applies to one square (empty, a win for `letter`, and no win for the opponent once overwritten); no contract of its own, `ForkFrom` and `Fork` are stated in terms of it |
| `Strategy.ForkFrom` | tic_tac_toe.py:157-169 | the scan from square p answers `letter` if square p or a later one passes the fork test, `'-'` if none does, and nothing else |
| `Strategy.Fork` | tic_tac_toe.py:156-169 | check_fork answers only `letter` or `'-'`; it answers `letter` when some empty square, filled with `letter`, wins for `letter` and, filled with the opponent's mark, does not win for the opponent; otherwise `'-'` |
| `Game.CheckFork` | tic_tac_toe.py:156-169 | the loop with its probes and restores answers exactly `Fork` of the board on entry; the board on return equals the board on entry, on the early-return path and on the fall-through path |
| `Strategy.ProbeLetter` | tic_tac_toe.py:59-91 | the mark each probing tier writes (lines 59, 70, 81, 91): the letter to move for tiers 1 and 3, the human's for tiers 2 and 4; no contract of its own, `ProbeHits` and `ScanTier` use it |
| `Strategy.Hits` | tic_tac_toe.py:60-92 | the test each probing tier asks after its probe (lines 60, 71, 82, 92); no contract of its own, `ProbeHits` proves the imperative tests equal to it |
| `Strategy.Qualifies` | tic_tac_toe.py:56-96 | a square stops a probing tier when it is empty and the probed board passes `Hits`; no contract of its own, `FirstFrom` and `ScanTier` are stated in terms of it |
| `Strategy.FirstFrom` | tic_tac_toe.py:56-96 | the row-major scan of a tier from square p finds the least square that qualifies (empty, and the probe placed there hits); it finds None iff no square from p on qualifies |
| `Strategy.FirstSquare` | tic_tac_toe.py:56-96 | a probing tier's whole scan, `FirstFrom` from square 0; no contract of its own, `FirstFrom`'s contract and the tier lemmas characterise it |
| `Strategy.FirstCornerFrom` | tic_tac_toe.py:105-110 | the corner loop yields the first empty corner in the order (0,0), (0,2), (2,0), (2,2), and nothing iff all four are filled |
| `Strategy.FirstCorner` | tic_tac_toe.py:104-110 | the corner loop from the first corner; no contract of its own, `FirstCornerFrom` characterises it |
| `Strategy.ChooseMove` | tic_tac_toe.py:55-110 | whatever square tiers 1-6 choose is empty; when none fires, the centre and all four corners are filled |
| `Strategy.BlockForkNeverFires` | tic_tac_toe.py:88-96 | whatever the letter to move, no square passes tier 4's test (check_fork(board, current) equal to the human's letter), so the tier never chooses a square |
| `Strategy.WinTierChosen` | tic_tac_toe.py:56-63 | if a square wins at once for the letter to move, the first such square in row-major order is the move |
| `Strategy.BlockTierChosen` | tic_tac_toe.py:66-75 | if no square wins at once and some square would win for the human, the first such square is the move |
| `Strategy.ForkTierChosen` | tic_tac_toe.py:78-85 | if neither tier 1 nor tier 2 fires, the first square after which check_fork answers the letter to move is the move |
| `Strategy.FallbackOrder` | tic_tac_toe.py:98-110 | when tiers 1-3 do not fire, the move is the centre if it is empty, otherwise the first empty corner |
| `Strategy.FreshBoardTakesCentre` | tic_tac_toe.py:98-102 | on the board create_board makes, nothing can be won, blocked or forked, so the computer plays the centre (1,1) |
| `Strategy.TwoThreatsTakeTheWin` | tic_tac_toe.py:56-63 | on `[[X,X,-],[O,O,-],[-,-,-]]`, O to move plays (1,2) and X to move plays (0,2) |
| `Strategy.BlockThreat` | tic_tac_toe.py:66-75 | on `[[O,O,-],[-,X,-],[-,-,X]]`, X has no winning square and blocks O at (0,2) |
| `Game.ProbeHits` | tic_tac_toe.py:60-92 | the test of each probing tier (check_win for tiers 1-2, check_fork(board, current) for tiers 3-4) answers the pure `Hits` of the board, which it leaves unchanged |
| `Game.ScanTier` | tic_tac_toe.py:56-96 | a probing tier's loop moves iff some square qualifies; when it moves, the board is the old board with the letter to move in the tier's first qualifying square; when it does not, every probe has been reverted and the board is unchanged |
| `Game.Session.constructor` | tic_tac_toe.py:25 | the letter to move starts as `'X'` |
| `Game.Session.ComputerInput` | tic_tac_toe.py:49-119 | on a board with an empty square, exactly one square changes: an empty one now holds the letter to move; it is the square ChooseMove names whenever tiers 1-6 fire; the letter to move flips and stays `'X'` or `'O'` |

## Left out

- `display_board` (tic_tac_toe.py:13-22) only prints the board.
- `user_input` (tic_tac_toe.py:27-46) reads standard input and uses exceptions
  for control flow. It is not modelled, including its index quirk: input 0
  becomes index -1, which Python reads as row or column 2.
- `take_turns` and the module-level game and replay loop
  (tic_tac_toe.py:171-229) are interactive I/O. They call `exit()` and catch
  every exception. Note that a replay makes a new board but does not reset
  `current_letter`.
- The "thinking" delay (tic_tac_toe.py:51-53, `random.randint` and
  `time.sleep`) is cosmetic.
- `Game.Session.ComputerInput`: the random fallback (tic_tac_toe.py:113-119)
  is an arbitrary choice among the empty squares. The model does not capture
  the random distribution or the loop's probabilistic termination.
- Cells are Dafny characters rather than one-character Python strings.
  `check_win`'s `None` is `Option.None`.
- The board is one object holding the nested list as a value, so both the
  row lists and the cells are updated through that object. No code in the
  core aliases a single row, so nothing observable is lost.
