/**
 * The mini crossword of components/loader/NewspaperLoader.tsx: a 5x5 grid
 * whose letter cells take typed letters, keyed by the text "r-c"; the arrow
 * keys move the selection to the next letter cell in their direction,
 * Backspace clears the selected cell except the prefilled one, and the puzzle
 * is solved once every solution key holds its letter.
 */
module Crossword {
  import opened Wrappers

  const Rows := 5
  const Cols := 5

  /** `crosswordData.grid`: a letter, or `null` for a blocked cell. */
  const Grid: seq<seq<Option<char>>> := [
    [Some('S'), Some('A'), Some('L'), Some('E'), None],
    [None, None, Some('E'), None, None],
    [Some('P'), Some('L'), Some('A'), Some('N'), None],
    [None, None, Some('D'), None, None],
    [Some('D'), Some('A'), Some('T'), Some('A'), None]
  ]

  const Solution: map<string, string> := map[
    "0-0" := "S", "0-1" := "A", "0-2" := "L", "0-3" := "E",
    "2-0" := "P", "2-1" := "L", "2-2" := "A", "2-3" := "N",
    "4-0" := "D", "4-1" := "A", "4-2" := "T", "4-3" := "A",
    "1-2" := "E",
    "3-2" := "D"
  ]

  /** The intersection letter shown from the start; its box is disabled. */
  const Prefilled: map<string, string> := map["2-2" := "A"]

  function Digit(n: int): char
    requires 0 <= n < 10
  {
    ('0' as int + n) as char
  }

  /** The template key `${r}-${c}` of a grid cell. */
  function Key(r: int, c: int): (k: string)
    requires 0 <= r < 10 && 0 <= c < 10
    ensures |k| == 3 && k[1] == '-'
    ensures k[0] as int - '0' as int == r && k[2] as int - '0' as int == c
  {
    [Digit(r), '-', Digit(c)]
  }

  /** Distinct cells have distinct keys. */
  lemma KeyInjective(r1: int, c1: int, r2: int, c2: int)
    requires 0 <= r1 < 10 && 0 <= c1 < 10 && 0 <= r2 < 10 && 0 <= c2 < 10
    ensures Key(r1, c1) == Key(r2, c2) ==> r1 == r2 && c1 == c2
  {
    if Key(r1, c1) == Key(r2, c2) {
      assert Key(r1, c1)[0] == Key(r2, c2)[0] && Key(r1, c1)[2] == Key(r2, c2)[2];
    }
  }

  predicate InBounds(r: int, c: int) {
    0 <= r < Rows && 0 <= c < Cols
  }

  /** A cell of the grid that holds a letter (false off the grid). */
  predicate IsLetter(r: int, c: int) {
    0 <= r < |Grid| && 0 <= c < |Grid[r]| && Grid[r][c].Some?
  }

  /** The four arrow-key directions. */
  predicate IsDirection(dr: int, dc: int) {
    (dr == 0 && (dc == 1 || dc == -1)) || (dc == 0 && (dr == 1 || dr == -1))
  }

  /** (i, j) lies on the ray that starts at (r, c) and goes in direction (dr, dc). */
  predicate Ahead(r: int, c: int, dr: int, dc: int, i: int, j: int) {
    && (dr == 0 ==> i == r) && (dc == 0 ==> j == c)
    && (dr == 1 ==> i >= r) && (dr == -1 ==> i <= r)
    && (dc == 1 ==> j >= c) && (dc == -1 ==> j <= c)
  }

  /** (i, j) comes strictly before (pr, pc) in direction (dr, dc). */
  predicate Before(i: int, j: int, pr: int, pc: int, dr: int, dc: int) {
    && (dr == 1 ==> i < pr) && (dr == -1 ==> i > pr)
    && (dc == 1 ==> j < pc) && (dc == -1 ==> j > pc)
  }

  /** How many cells are left on the ray before it leaves the grid. */
  function Remaining(r: int, c: int, dr: int, dc: int): int {
    if dr == 1 then Rows - r else if dr == -1 then r + 1
    else if dc == 1 then Cols - c else c + 1
  }

  /**
   * The scan `move` performs, from the first candidate cell (r, c), one step
   * from a cell of the grid: the first letter cell on the ray, or none when
   * the ray leaves the grid first.
   */
  function Scan(r: int, c: int, dr: int, dc: int): (p: Option<(int, int)>)
    requires IsDirection(dr, dc) && InBounds(r - dr, c - dc)
    ensures p.Some? ==>
              && InBounds(p.value.0, p.value.1) && IsLetter(p.value.0, p.value.1)
              && Ahead(r, c, dr, dc, p.value.0, p.value.1)
              && forall i, j :: Ahead(r, c, dr, dc, i, j) && Before(i, j, p.value.0, p.value.1, dr, dc) ==> !IsLetter(i, j)
    ensures p.None? ==> forall i, j :: Ahead(r, c, dr, dc, i, j) ==> !IsLetter(i, j)
    decreases Remaining(r, c, dr, dc)
  {
    if !InBounds(r, c) then None
    else if IsLetter(r, c) then Some((r, c))
    else Scan(r + dr, c + dc, dr, dc)
  }

  /**
   * The selection after `move(dr, dc)` from (r0, c0): the first letter cell
   * the scan finds, or (r0, c0) again when there is none.
   */
  predicate MovedTo(r0: int, c0: int, dr: int, dc: int, r1: int, c1: int)
    requires IsDirection(dr, dc) && InBounds(r0, c0)
  {
    match Scan(r0 + dr, c0 + dc, dr, dc)
    case Some(p) => p == (r1, c1)
    case None => r1 == r0 && c1 == c0
  }

  /** `Backspace`, the arrow keys, and any other key. */
  datatype KeyPress = ArrowUp | ArrowDown | ArrowLeft | ArrowRight | Backspace | OtherKey

  /** JavaScript's `toUpperCase` on the characters whose upper case is one letter A-Z. */
  function UpperChar(ch: char): char {
    if 'a' <= ch <= 'z' then (ch as int - 32) as char
    else if ch == '\U{0131}' then 'I'
    else if ch == '\U{017F}' then 'S'
    else ch
  }

  function Upper(s: string): (u: string)
    ensures |u| == |s| && forall i :: 0 <= i < |s| ==> u[i] == UpperChar(s[i])
  {
    seq(|s|, i requires 0 <= i < |s| => UpperChar(s[i]))
  }

  /** `/^[A-Z]?$/`. */
  predicate AcceptedLetter(v: string) {
    v == "" || (|v| == 1 && 'A' <= v[0] <= 'Z')
  }

  /** Characters the input box takes: Latin letters, dotless i and long s. */
  predicate TypesLetter(ch: char) {
    ('a' <= ch <= 'z') || ('A' <= ch <= 'Z') || ch == '\U{0131}' || ch == '\U{017F}'
  }

  /** An input is stored exactly when it is empty or one character that upper-cases to A-Z. */
  lemma AcceptedInputs(val: string)
    ensures AcceptedLetter(Upper(val)) <==> val == "" || (|val| == 1 && TypesLetter(val[0]))
  {
    if |val| == 1 {
      assert Upper(val)[0] == UpperChar(val[0]);
    }
  }

  /** Every letter cell of the grid shows its letter in `inputs`. */
  ghost predicate ShowsGrid(inputs: map<string, string>) {
    forall r, c :: InBounds(r, c) && IsLetter(r, c) ==>
      Key(r, c) in inputs && inputs[Key(r, c)] == [Grid[r][c].value]
  }

  /**
   * The inputs hold every solution letter; since the solution keys are
   * exactly the letter cells, this is the grid spelled out in the inputs.
   */
  function AllCorrect(inputs: map<string, string>): (b: bool)
    ensures b <==> ShowsGrid(inputs)
  {
    SolutionMatchesGrid();
    SolutionKeysAreCells();
    forall k :: k in Solution ==> k in inputs && inputs[k] == Solution[k]
  }

  /** Every letter cell has its grid letter in the solution, and the prefilled letter agrees. */
  lemma SolutionMatchesGrid()
    ensures forall r, c :: InBounds(r, c) && IsLetter(r, c) ==>
              Key(r, c) in Solution && Solution[Key(r, c)] == [Grid[r][c].value]
    ensures forall k :: k in Prefilled ==> k in Solution && Solution[k] == Prefilled[k]
  {
    forall r, c | InBounds(r, c) && IsLetter(r, c)
      ensures Key(r, c) in Solution && Solution[Key(r, c)] == [Grid[r][c].value]
    {
      CellAgrees(r, c);
    }
  }

  lemma CellAgrees(r: int, c: int)
    requires InBounds(r, c) && IsLetter(r, c)
    ensures Key(r, c) in Solution && Solution[Key(r, c)] == [Grid[r][c].value]
  {
    var k := Key(r, c);
    assert k == [Digit(r), '-', Digit(c)];
    if r == 0 {
      assert Grid[0] == [Some('S'), Some('A'), Some('L'), Some('E'), None];
    } else if r == 1 {
      assert Grid[1] == [None, None, Some('E'), None, None];
    } else if r == 2 {
      assert Grid[2] == [Some('P'), Some('L'), Some('A'), Some('N'), None];
    } else if r == 3 {
      assert Grid[3] == [None, None, Some('D'), None, None];
    } else {
      assert Grid[4] == [Some('D'), Some('A'), Some('T'), Some('A'), None];
    }
  }

  /** Every solution key names a letter cell of the grid. */
  lemma SolutionKeysAreCells()
    ensures forall k :: k in Solution ==> exists r, c :: InBounds(r, c) && IsLetter(r, c) && k == Key(r, c)
  {
    forall k | k in Solution
      ensures exists r, c :: InBounds(r, c) && IsLetter(r, c) && k == Key(r, c)
    {
      var r, c := (k[0] as int - '0' as int), (k[2] as int - '0' as int);
      assert InBounds(r, c) && IsLetter(r, c) && k == Key(r, c);
    }
  }

  /** The crossword component's state. */
  class CrosswordGame {
    var inputs: map<string, string>
    var isSolved: bool
    var row: int
    var col: int

    /** The selection is a letter cell, and the prefilled letter stays. */
    ghost predicate Valid()
      reads this
    {
      && InBounds(row, col) && IsLetter(row, col)
      && "2-2" in inputs && inputs["2-2"] == "A"
    }

    constructor ()
      ensures inputs == Prefilled && !isSolved && row == 0 && col == 0
      ensures Valid()
    {
      inputs := Prefilled;
      isSolved := false;
      row, col := 0, 0;
    }

    /** Clicking a letter cell selects it. */
    method Select(r: int, c: int)
      requires Valid() && InBounds(r, c) && IsLetter(r, c)
      modifies this`row, this`col
      ensures row == r && col == c
      ensures Valid()
    {
      row, col := r, c;
    }

    /**
     * `move(dr, dc)`: walk from the selected cell in direction (dr, dc) and
     * select the first letter cell; when the walk leaves the grid first the
     * selection stays.
     */
    method Move(dr: int, dc: int)
      requires Valid() && IsDirection(dr, dc)
      modifies this`row, this`col
      ensures MovedTo(old(row), old(col), dr, dc, row, col)
      ensures Valid()
    {
      var nextRow := row + dr;
      var nextCol := col + dc;
      ghost var target := Scan(nextRow, nextCol, dr, dc);
      while 0 <= nextRow < Rows && 0 <= nextCol < Cols
        invariant InBounds(nextRow - dr, nextCol - dc)
        invariant Scan(nextRow, nextCol, dr, dc) == target
        invariant row == old(row) && col == old(col)
        decreases Remaining(nextRow, nextCol, dr, dc)
      {
        if Grid[nextRow][nextCol].Some? {
          row, col := nextRow, nextCol;
          return;
        }
        nextRow := nextRow + dr;
        nextCol := nextCol + dc;
      }
    }

    /**
     * `handleInputChange` on the box of letter cell (r, c) (the prefilled box
     * is disabled): the upper-cased input is stored under the cell's key when
     * it is empty or one letter A-Z, and dropped otherwise.
     */
    method HandleInput(val: string, r: int, c: int)
      requires Valid() && InBounds(r, c) && IsLetter(r, c) && Key(r, c) !in Prefilled
      modifies this`inputs
      ensures AcceptedLetter(Upper(val)) ==> inputs == old(inputs)[Key(r, c) := Upper(val)]
      ensures !AcceptedLetter(Upper(val)) ==> inputs == old(inputs)
      ensures Valid()
    {
      var v := Upper(val);
      if AcceptedLetter(v) {
        inputs := inputs[Key(r, c) := v];
      }
    }

    /** `handleKeyDown`: the arrows move; Backspace clears the selected cell unless it is prefilled. */
    method HandleKeyDown(key: KeyPress)
      requires Valid()
      modifies this`row, this`col, this`inputs
      ensures key == Backspace && Key(old(row), old(col)) !in Prefilled ==>
                inputs == old(inputs)[Key(old(row), old(col)) := ""]
      ensures key == Backspace && Key(old(row), old(col)) in Prefilled ==> inputs == old(inputs)
      ensures key != Backspace ==> inputs == old(inputs)
      ensures key == ArrowUp ==> MovedTo(old(row), old(col), -1, 0, row, col)
      ensures key == ArrowDown ==> MovedTo(old(row), old(col), 1, 0, row, col)
      ensures key == ArrowLeft ==> MovedTo(old(row), old(col), 0, -1, row, col)
      ensures key == ArrowRight ==> MovedTo(old(row), old(col), 0, 1, row, col)
      ensures key == Backspace || key == OtherKey ==> row == old(row) && col == old(col)
      ensures Valid()
    {
      match key
      case ArrowUp => Move(-1, 0);
      case ArrowDown => Move(1, 0);
      case ArrowLeft => Move(0, -1);
      case ArrowRight => Move(0, 1);
      case Backspace =>
        var k := Key(row, col);
        if k !in Prefilled {
          assert k != "2-2";
          inputs := inputs[k := ""];
        }
      case OtherKey =>
    }

    /**
     * The effect that runs after each change of the inputs: not once solved;
     * otherwise the first time every solution key holds its letter it marks
     * the puzzle solved and reports it (`onSolve`, after 600 ms).
     */
    method SolvedEffect() returns (solvedNow: bool)
      modifies this`isSolved
      ensures solvedNow <==> !old(isSolved) && AllCorrect(inputs)
      ensures isSolved == (old(isSolved) || AllCorrect(inputs))
    {
      if isSolved {
        return false;
      }
      solvedNow := AllCorrect(inputs);
      if solvedNow {
        isSolved := true;
      }
    }
  }
}
