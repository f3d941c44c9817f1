/**
 * The computer opponent's choice as pure functions of the board and the
 * letter to move: the fork check (check_fork) and the priority cascade of
 * computer_input, each tier "the first qualifying square in row-major order".
 */
module Strategy {
  import opened Wrappers
  import opened Boards
  import opened Outcome

  /** The test check_fork applies to square p: it is empty, playing `letter`
      there wins for `letter`, and overwriting it with the opponent's mark does
      not win for the opponent. */
  predicate ForkSquare(b: Grid, letter: char, p: Pos) {
    At(b, p) == EMPTY
    && Winner(Place(b, Row(p), Col(p), letter)) == Some(letter)
    && Winner(Place(b, Row(p), Col(p), Flip(letter))) != Some(Flip(letter))
  }

  /** The scan of check_fork from square p on. */
  function ForkFrom(b: Grid, letter: char, p: nat): (r: char)
    requires p <= 9
    ensures r == letter || r == EMPTY
    ensures (exists q: Pos :: p <= q && ForkSquare(b, letter, q)) ==> r == letter
    ensures (forall q: Pos :: p <= q ==> !ForkSquare(b, letter, q)) ==> r == EMPTY
    decreases 9 - p
  {
    if p == 9 then EMPTY
    else if ForkSquare(b, letter, p) then letter
    else ForkFrom(b, letter, p + 1)
  }

  /** check_fork: `letter` when some square passes the fork test, '-' otherwise.
      It can return nothing but its argument or '-'. */
  function Fork(b: Grid, letter: char): (r: char)
    ensures r == letter || r == EMPTY
    ensures (exists p: Pos :: ForkSquare(b, letter, p)) ==> r == letter
    ensures (forall p: Pos :: !ForkSquare(b, letter, p)) ==> r == EMPTY
  {
    ForkFrom(b, letter, 0)
  }

  /** The four probing tiers of computer_input, in priority order. */
  datatype Tier = WinNow | BlockWin | MakeFork | BlockFork

  /** The mark a tier places on the probed square: the computer's own for
      tiers 1 and 3, the human's for tiers 2 and 4. */
  function ProbeLetter(t: Tier, cur: char): char {
    if t == WinNow || t == MakeFork then cur else UserLetter(cur)
  }

  /** The question a tier asks of the board once the probe is on it. Tier 4
      asks whether check_fork(board, cur) is the human's letter, as written. */
  predicate Hits(b: Grid, cur: char, t: Tier) {
    match t
    case WinNow => Winner(b) == Some(cur)
    case BlockWin => Winner(b) == Some(UserLetter(cur))
    case MakeFork => Fork(b, cur) == cur
    case BlockFork => Fork(b, cur) == UserLetter(cur)
  }

  /** Square p stops tier t: it is empty and the probe placed there hits. */
  predicate Qualifies(b: Grid, cur: char, t: Tier, p: Pos) {
    At(b, p) == EMPTY && Hits(Place(b, Row(p), Col(p), ProbeLetter(t, cur)), cur, t)
  }

  /** The first square from p on that stops tier t, if any. */
  function FirstFrom(b: Grid, cur: char, t: Tier, p: nat): (r: Option<Pos>)
    requires p <= 9
    ensures r.Some? ==> p <= r.value && Qualifies(b, cur, t, r.value)
    ensures forall q: Pos :: p <= q && Qualifies(b, cur, t, q) && (forall q': Pos :: p <= q' < q ==> !Qualifies(b, cur, t, q'))
              ==> r == Some(q)
    ensures r.None? <==> forall q: Pos :: p <= q ==> !Qualifies(b, cur, t, q)
    decreases 9 - p
  {
    if p == 9 then None
    else if Qualifies(b, cur, t, p) then Some(p)
    else FirstFrom(b, cur, t, p + 1)
  }

  function FirstSquare(b: Grid, cur: char, t: Tier): Option<Pos> {
    FirstFrom(b, cur, t, 0)
  }

  /** The corners in the order computer_input tries them:
      (0,0), (0,2), (2,0), (2,2). */
  const CORNERS: seq<Pos> := [0, 2, 6, 8]

  /** The first empty corner from the n-th on, if any. */
  function FirstCornerFrom(b: Grid, n: nat): (r: Option<Pos>)
    requires n <= 4
    ensures r.Some? ==> r.value in CORNERS[n..] && At(b, r.value) == EMPTY
    ensures forall m | n <= m < 4 :: At(b, CORNERS[m]) == EMPTY && (forall m' | n <= m' < m :: At(b, CORNERS[m']) != EMPTY)
              ==> r == Some(CORNERS[m])
    ensures r.None? <==> forall m | n <= m < 4 :: At(b, CORNERS[m]) != EMPTY
    decreases 4 - n
  {
    if n == 4 then None
    else if At(b, CORNERS[n]) == EMPTY then Some(CORNERS[n])
    else FirstCornerFrom(b, n + 1)
  }

  function FirstCorner(b: Grid): Option<Pos> {
    FirstCornerFrom(b, 0)
  }

  /** The square computer_input fills for `cur`, tiers 1 to 6; None means no
      tier fired and the move is a random empty square. Whatever it names is
      an empty square. */
  function ChooseMove(b: Grid, cur: char): (r: Option<Pos>)
    ensures r.Some? ==> At(b, r.value) == EMPTY
    ensures r.None? ==> At(b, 4) != EMPTY && forall m | 0 <= m < 4 :: At(b, CORNERS[m]) != EMPTY
  {
    var win := FirstSquare(b, cur, WinNow);
    if win.Some? then win
    else
      var block := FirstSquare(b, cur, BlockWin);
      if block.Some? then block
      else
        var fork := FirstSquare(b, cur, MakeFork);
        if fork.Some? then fork
        else
          var blockFork := FirstSquare(b, cur, BlockFork);
          if blockFork.Some? then blockFork
          else if At(b, 4) == EMPTY then Some(4)
          else FirstCorner(b)
  }

  /** Tier 4 is dead, whatever the letter to move: check_fork(board, cur) is
      cur or '-', and the human's letter is neither, so no square stops it. */
  lemma BlockForkNeverFires(b: Grid, cur: char)
    ensures forall p: Pos :: !Qualifies(b, cur, BlockFork, p)
    ensures FirstSquare(b, cur, BlockFork) == None
  {
  }

  /** Win tier: the first square where `cur` wins at once is the move. */
  lemma WinTierChosen(b: Grid, cur: char, p: Pos)
    requires Qualifies(b, cur, WinNow, p)
    requires forall q: Pos :: q < p ==> !Qualifies(b, cur, WinNow, q)
    ensures ChooseMove(b, cur) == Some(p)
  {
  }

  /** Block tier: with no winning square, the first square where the human
      would win at once is the move. */
  lemma BlockTierChosen(b: Grid, cur: char, p: Pos)
    requires forall q: Pos :: !Qualifies(b, cur, WinNow, q)
    requires Qualifies(b, cur, BlockWin, p)
    requires forall q: Pos :: q < p ==> !Qualifies(b, cur, BlockWin, q)
    ensures ChooseMove(b, cur) == Some(p)
  {
  }

  /** Fork tier: with no win and nothing to block, the first square that makes
      check_fork answer `cur` is the move. */
  lemma ForkTierChosen(b: Grid, cur: char, p: Pos)
    requires forall q: Pos :: !Qualifies(b, cur, WinNow, q)
    requires forall q: Pos :: !Qualifies(b, cur, BlockWin, q)
    requires Qualifies(b, cur, MakeFork, p)
    requires forall q: Pos :: q < p ==> !Qualifies(b, cur, MakeFork, q)
    ensures ChooseMove(b, cur) == Some(p)
  {
  }

  /** Fallback order: when tiers 1 to 3 do not fire, the move is the centre
      if it is empty, else the first empty corner in the order of CORNERS
      (FirstCornerFrom states that order), else none of tiers 1-6. */
  lemma FallbackOrder(b: Grid, cur: char)
    requires forall q: Pos :: !Qualifies(b, cur, WinNow, q)
    requires forall q: Pos :: !Qualifies(b, cur, BlockWin, q)
    requires forall q: Pos :: !Qualifies(b, cur, MakeFork, q)
    ensures ChooseMove(b, cur) == if At(b, 4) == EMPTY then Some(4) else FirstCorner(b)
  {
    BlockForkNeverFires(b, cur);
  }

  /** On a fresh board nothing can be won, blocked or forked, so the computer
      takes the centre. */
  lemma FreshBoardTakesCentre(cur: char)
    requires IsMark(cur)
    ensures ChooseMove(CreateBoard(), cur) == Some(4)
  {
    var b := CreateBoard();
    forall p: Pos ensures !Qualifies(b, cur, WinNow, p) && !Qualifies(b, cur, BlockWin, p)
                    && !Qualifies(b, cur, MakeFork, p)
    {
      var (i, j) := (Row(p), Col(p));
      FewMarksNoWinner(Place(b, i, j, cur), p, p);
      FewMarksNoWinner(Place(b, i, j, UserLetter(cur)), p, p);
      var b1 := Place(b, i, j, cur);
      forall q: Pos ensures !ForkSquare(b1, cur, q) {
        FewMarksNoWinner(Place(b1, Row(q), Col(q), cur), p, q);
      }
    }
    FallbackOrder(b, cur);
  }

  /** X has (0,0) and (0,1), O has (1,0) and (1,1). O to move wins at (1,2),
      the first square in row-major order that wins for O; X to move wins at (0,2). */
  lemma TwoThreatsTakeTheWin()
    ensures var b: Grid := [['X', 'X', '-'], ['O', 'O', '-'], ['-', '-', '-']];
            ChooseMove(b, 'O') == Some(5) && ChooseMove(b, 'X') == Some(2)
  {
    var b: Grid := [['X', 'X', '-'], ['O', 'O', '-'], ['-', '-', '-']];
    assert !Qualifies(b, 'O', WinNow, 2);
    WinTierChosen(b, 'O', 5);
    WinTierChosen(b, 'X', 2);
  }

  /** O threatens row 0 and X has no winning square: X to move blocks at (0,2). */
  lemma BlockThreat()
    ensures ChooseMove([['O', 'O', '-'], ['-', 'X', '-'], ['-', '-', 'X']], 'X') == Some(2)
  {
    var b: Grid := [['O', 'O', '-'], ['-', 'X', '-'], ['-', '-', 'X']];
    forall q: Pos ensures !Qualifies(b, 'X', WinNow, q) {
      WinnerFirstLine(Place(b, Row(q), Col(q), 'X'));
    }
    BlockTierChosen(b, 'X', 2);
  }
}
