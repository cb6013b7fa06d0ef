/**
 * The mini sudoku of components/loader/NewspaperLoader.tsx: a 4x4 board
 * started from a fixed puzzle; the empty cells take typed digits 1-4, and
 * "Check" compares the whole board with the fixed solution.
 */
module Sudoku {
  import opened Wrappers

  /** A cell: empty (`null`) or a number. */
  type Cell = Option<int>
  type Board = seq<seq<Cell>>

  const Size := 4

  const Puzzle: Board := [
    [Some(1), None, Some(4), None],
    [None, Some(2), None, Some(3)],
    [Some(3), None, Some(2), None],
    [None, Some(1), None, Some(4)]
  ]

  const Solution: Board := [
    [Some(1), Some(3), Some(4), Some(2)],
    [Some(4), Some(2), Some(1), Some(3)],
    [Some(3), Some(4), Some(2), Some(1)],
    [Some(2), Some(1), Some(3), Some(4)]
  ]

  datatype Status = Playing | Correct | Incorrect

  predicate WellShaped(b: Board) {
    |b| == Size && forall r :: 0 <= r < Size ==> |b[r]| == Size
  }

  /** The board keeps the puzzle's given digits (their cells render no input box). */
  predicate KeepsGivens(b: Board)
    requires WellShaped(b)
  {
    forall r, c :: 0 <= r < Size && 0 <= c < Size && Puzzle[r][c].Some? ==> b[r][c] == Puzzle[r][c]
  }

  /** `/^[1-4]?$/`: the empty string or a single digit from 1 to 4. */
  predicate AcceptedInput(val: string) {
    val == "" || (|val| == 1 && '1' <= val[0] <= '4')
  }

  /** What the input box shows for a cell, `cell || ''`, for the cells the game can hold. */
  function InputOf(c: Cell): (s: string)
    requires c.None? || 1 <= c.value <= 4
    ensures AcceptedInput(s)
    ensures s == "" <==> c.None?
    ensures s != "" ==> s[0] as int - '0' as int == c.value
  {
    if c.Some? then [('0' as int + c.value) as char] else ""
  }

  /** `val === '' ? null : parseInt(val, 10)` for an accepted input. */
  function CellOf(val: string): (c: Cell)
    requires AcceptedInput(val)
    ensures c.None? <==> val == ""
    ensures c.Some? ==> 1 <= c.value <= 4
    ensures InputOf(c) == val
  {
    if val == "" then None else Some(val[0] as int - '0' as int)
  }

  /** Typing back what a cell shows gives the cell again. */
  lemma CellInputRoundTrip(c: Cell)
    requires c.None? || 1 <= c.value <= 4
    ensures AcceptedInput(InputOf(c)) && CellOf(InputOf(c)) == c
  {
  }

  /** The copy of the board with cell (r, c) set to `v`. */
  function Write(b: Board, r: int, c: int, v: Cell): (b': Board)
    requires WellShaped(b) && 0 <= r < Size && 0 <= c < Size
    ensures WellShaped(b')
    ensures b'[r][c] == v
    ensures forall i, j :: 0 <= i < Size && 0 <= j < Size && (i, j) != (r, c) ==> b'[i][j] == b[i][j]
  {
    b[r := b[r][c := v]]
  }

  /**
   * `JSON.stringify(board) === JSON.stringify(solution)`: the serialisations
   * agree exactly when the boards agree cell by cell.
   */
  function MatchesSolution(b: Board): (ok: bool)
    ensures ok <==> WellShaped(b) && forall r, c :: 0 <= r < Size && 0 <= c < Size ==> b[r][c] == Solution[r][c]
  {
    assert WellShaped(b) && (forall r, c :: 0 <= r < Size && 0 <= c < Size ==> b[r][c] == Solution[r][c]) ==>
             forall r :: 0 <= r < Size ==> b[r] == Solution[r];
    b == Solution
  }

  /** The solution keeps the puzzle's givens, and each of its digits can be typed. */
  lemma SolutionFitsPuzzle()
    ensures WellShaped(Puzzle) && WellShaped(Solution)
    ensures KeepsGivens(Solution)
    ensures forall r, c :: 0 <= r < Size && 0 <= c < Size ==>
              AcceptedInput(InputOf(Solution[r][c])) && CellOf(InputOf(Solution[r][c])) == Solution[r][c]
  {
  }

  /** The game component's state. */
  class SudokuGame {
    var board: Board
    var status: Status
    var isSolved: bool

    ghost predicate Valid()
      reads this
    {
      && WellShaped(board)
      && KeepsGivens(board)
      && (status == Correct ==> isSolved)
    }

    constructor ()
      ensures board == Puzzle && status == Playing && !isSolved
      ensures Valid()
    {
      board := Puzzle;
      status := Playing;
      isSolved := false;
    }

    /**
     * `handleInputChange` on the input box of cell (r, c), which exists only
     * for the puzzle's empty cells: an accepted input replaces that cell and
     * resets the status; any other input changes nothing.
     */
    method HandleInput(val: string, r: int, c: int)
      requires Valid()
      requires 0 <= r < Size && 0 <= c < Size && Puzzle[r][c].None?
      modifies this
      ensures AcceptedInput(val) ==> board == Write(old(board), r, c, CellOf(val)) && status == Playing
      ensures !AcceptedInput(val) ==> board == old(board) && status == old(status)
      ensures isSolved == old(isSolved)
      ensures Valid()
    {
      if AcceptedInput(val) {
        board := Write(board, r, c, CellOf(val));
        status := Playing;
      }
    }

    /**
     * `checkSolution`: once solved it does nothing; otherwise it records
     * whether the board is the solution, and the first success reports the
     * puzzle solved (`onSolve`, after 600 ms).
     */
    method CheckSolution() returns (solvedNow: bool)
      requires Valid()
      modifies this`status, this`isSolved
      ensures old(isSolved) ==> !solvedNow && status == old(status) && isSolved
      ensures !old(isSolved) ==>
                && solvedNow == MatchesSolution(board)
                && isSolved == solvedNow
                && status == (if solvedNow then Correct else Incorrect)
      ensures Valid()
    {
      if isSolved {
        return false;
      }
      solvedNow := MatchesSolution(board);
      status := if solvedNow then Correct else Incorrect;
      if solvedNow {
        isSolved := true;
      }
    }
  }
}
