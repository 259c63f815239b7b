// components/tools/minigames/MiniCrosswords.tsx — a 4×4 crossword with two
// across and four down answers.
module MiniCrosswords {
  import opened Wrappers
  import JsString

  /** The layout: 1 is a cell to fill, 0 a blocked cell. */
  const Layout: seq<seq<int>> := [[1, 1, 1, 1], [1, 0, 1, 0], [1, 1, 1, 1], [1, 0, 1, 0]]
  const Size := 4

  datatype Clue = Clue(num: nat, row: nat, col: nat, answer: string)

  const Across: seq<Clue> := [Clue(1, 0, 0, "CODE"), Clue(5, 2, 0, "REST")]
  const Down: seq<Clue> := [Clue(1, 0, 0, "CARE"), Clue(2, 0, 1, "ORE"), Clue(3, 0, 2, "STEM"), Clue(4, 0, 3, "ET")]

  /** A grid cell holds a string, or null while an open cell is untouched. */
  type Grid = seq<seq<Option<string>>>

  predicate IsOpen(row: nat, col: nat)
  {
    row < Size && col < Size && Layout[row][col] == 1
  }

  predicate Shaped(g: Grid)
  {
    |g| == Size && forall r :: 0 <= r < Size ==> |g[r]| == Size
  }

  /** The grid the game starts and resets to: null on open cells, '' on blocked ones. */
  function InitialGrid(): (g: Grid)
    ensures Shaped(g)
    ensures forall r, c :: 0 <= r < Size && 0 <= c < Size ==> g[r][c] == if IsOpen(r, c) then None else Some("")
  {
    seq(Size, r requires 0 <= r < Size =>
          seq(Size, c requires 0 <= c < Size => if Layout[r][c] == 1 then None else Some("")))
  }

  /** `grid[r][c]`, or None for a cell outside the grid. */
  function At(g: Grid, r: nat, c: nat): Option<Option<string>>
  {
    if r < |g| && c < |g[r]| then Some(g[r][c]) else None
  }

  /** The cell holds exactly the one-letter string ch. */
  predicate Holds(g: Grid, r: nat, c: nat, ch: char)
  {
    At(g, r, c) == Some(Some([ch]))
  }

  /** The first n letters of an across answer are in place. */
  predicate AcrossUpTo(g: Grid, clue: Clue, n: nat)
    requires n <= |clue.answer|
  {
    forall i :: 0 <= i < n ==> Holds(g, clue.row, clue.col + i, clue.answer[i])
  }

  /** The first n letters of a down answer are in place. */
  predicate DownUpTo(g: Grid, clue: Clue, n: nat)
    requires n <= |clue.answer|
  {
    forall i :: 0 <= i < n ==> Holds(g, clue.row + i, clue.col, clue.answer[i])
  }

  predicate AllAcross(g: Grid, clues: seq<Clue>)
  {
    forall k :: 0 <= k < |clues| ==> AcrossUpTo(g, clues[k], |clues[k].answer|)
  }

  predicate AllDown(g: Grid, clues: seq<Clue>)
  {
    forall k :: 0 <= k < |clues| ==> DownUpTo(g, clues[k], |clues[k].answer|)
  }

  /** Every letter of every answer is in its cell. */
  predicate Solved(g: Grid)
  {
    AllAcross(g, Across) && AllDown(g, Down)
  }

  /** Where focus moves after typing: right when that cell is open, else
      down when that one is, else nowhere. */
  function NextFocus(value: string, row: nat, col: nat): (f: Option<(nat, nat)>)
    requires row < Size && col < Size
    ensures f.Some? ==> value != [] && IsOpen(f.value.0, f.value.1)
                        && (f.value == (row, col + 1) || (f.value == (row + 1, col) && !IsOpen(row, col + 1)))
    ensures value != [] && IsOpen(row, col + 1) ==> f == Some((row, col + 1))
    ensures value != [] && !IsOpen(row, col + 1) && IsOpen(row + 1, col) ==> f == Some((row + 1, col))
  {
    if value != [] && col < Size - 1 && Layout[row][col + 1] == 1 then Some((row, col + 1))
    else if value != [] && row < Size - 1 && Layout[row + 1][col] == 1 then Some((row + 1, col))
    else None
  }

  /** CODE and STEM both cross (0, 2), with D against S. */
  lemma CodeStemClash(g: Grid)
    ensures AcrossUpTo(g, Across[0], 4) ==> !DownUpTo(g, Down[2], 4)
  {
    if AcrossUpTo(g, Across[0], 4) {
      assert Holds(g, 0, 0 + 2, Across[0].answer[2]);
      assert !Holds(g, 0 + 0, 2, Down[2].answer[0]);
    }
  }

  /** REST and STEM both cross (2, 2), with S against E. */
  lemma RestStemClash(g: Grid)
    ensures AcrossUpTo(g, Across[1], 4) ==> !DownUpTo(g, Down[2], 4)
  {
    if AcrossUpTo(g, Across[1], 4) {
      assert Holds(g, 2, 0 + 2, Across[1].answer[2]);
      assert !Holds(g, 0 + 2, 2, Down[2].answer[2]);
    }
  }

  /** No grid whatsoever solves the shipped clues. */
  lemma NeverSolved(g: Grid)
    ensures !Solved(g)
  {
    CodeStemClash(g);
    if AllAcross(g, Across) {
      assert AcrossUpTo(g, Across[0], |Across[0].answer|);
      assert !DownUpTo(g, Down[2], |Down[2].answer|);
    }
  }

  /** ORE and ET run through blocked cells; a grid with '' there meets neither. */
  lemma BlockedCellsBreakAnswers(g: Grid)
    requires Shaped(g) && g[1][1] == Some("") && g[1][3] == Some("")
    ensures !DownUpTo(g, Down[1], 3) && !DownUpTo(g, Down[3], 2)
  {
    assert !Holds(g, 0 + 1, 1, Down[1].answer[1]);
    assert !Holds(g, 0 + 1, 3, Down[3].answer[1]);
  }

  /** The down clues as the layout allows: only columns 0 and 2 run down,
      and column 2 reads D?S? against CODE and REST. */
  const CorrectedDown: seq<Clue> := [Clue(1, 0, 0, "CARE"), Clue(3, 0, 2, "DISK")]

  /** The answers filled in, '' on the blocked cells. */
  const CorrectedSolution: Grid :=
    [[Some("C"), Some("O"), Some("D"), Some("E")],
     [Some("A"), Some(""), Some("I"), Some("")],
     [Some("R"), Some("E"), Some("S"), Some("T")],
     [Some("E"), Some(""), Some("K"), Some("")]]

  /** The solution has the game's shape and keeps its blocked cells ''. */
  lemma CorrectedSolutionShaped()
    ensures Shaped(CorrectedSolution)
    ensures forall r, c :: 0 <= r < Size && 0 <= c < Size && !IsOpen(r, c) ==> CorrectedSolution[r][c] == Some("")
  {
  }

  /** CODE and REST are in place in the solution. */
  lemma CorrectedAcrossFilled()
    ensures AllAcross(CorrectedSolution, Across)
  {
    var g := CorrectedSolution;
    assert AcrossUpTo(g, Across[0], 4) by {
      assert Holds(g, 0, 0, 'C') && Holds(g, 0, 1, 'O') && Holds(g, 0, 2, 'D') && Holds(g, 0, 3, 'E');
    }
    assert AcrossUpTo(g, Across[1], 4) by {
      assert Holds(g, 2, 0, 'R') && Holds(g, 2, 1, 'E') && Holds(g, 2, 2, 'S') && Holds(g, 2, 3, 'T');
    }
  }

  /** CARE and DISK are in place in the solution. */
  lemma CorrectedDownFilled()
    ensures AllDown(CorrectedSolution, CorrectedDown)
  {
    var g := CorrectedSolution;
    assert DownUpTo(g, CorrectedDown[0], 4) by {
      assert Holds(g, 0, 0, 'C') && Holds(g, 1, 0, 'A') && Holds(g, 2, 0, 'R') && Holds(g, 3, 0, 'E');
    }
    assert DownUpTo(g, CorrectedDown[1], 4) by {
      assert Holds(g, 0, 2, 'D') && Holds(g, 1, 2, 'I') && Holds(g, 2, 2, 'S') && Holds(g, 3, 2, 'K');
    }
  }

  /** With the corrected down clues some grid of the game's shape, blocked
      cells '', solves the puzzle. */
  lemma CorrectedSolvable()
    ensures exists g :: Shaped(g) && AllAcross(g, Across) && AllDown(g, CorrectedDown)
                        && forall r, c :: 0 <= r < Size && 0 <= c < Size && !IsOpen(r, c) ==> g[r][c] == Some("")
  {
    CorrectedSolutionShaped();
    CorrectedAcrossFilled();
    CorrectedDownFilled();
    var g := CorrectedSolution;
    assert Shaped(g) && AllAcross(g, Across) && AllDown(g, CorrectedDown);
  }

  class Crossword {
    var grid: Grid

    /** The grid keeps its shape and blocked cells stay ''. */
    predicate Valid()
      reads this
    {
      Shaped(grid) && forall r, c :: 0 <= r < Size && 0 <= c < Size && !IsOpen(r, c) ==> grid[r][c] == Some("")
    }

    constructor ()
      ensures Valid() && grid == InitialGrid()
    {
      grid := InitialGrid();
    }

    /** initializeGrid (the reset button). */
    method Initialize()
      modifies this
      ensures Valid() && grid == InitialGrid()
    {
      grid := InitialGrid();
    }

    /** handleInputChange on an open cell: it stores the first character of
        the upper-cased value ('' for an empty value) and nothing else
        changes; `focus` is the cell focus moves to. */
    method InputChange(value: string, row: nat, col: nat) returns (focus: Option<(nat, nat)>)
      requires Valid() && IsOpen(row, col)
      modifies this
      ensures Valid()
      ensures grid == old(grid)[row := old(grid)[row][col := Some(JsString.Prefix(JsString.ToUpper(value), 1))]]
      ensures |grid[row][col].value| == (if value == [] then 0 else 1)
      ensures value != [] ==> grid[row][col].value[0] == JsString.UpperChar(value[0])
      ensures focus == NextFocus(value, row, col)
    {
      var newGrid := grid[row := grid[row][col := Some(JsString.Prefix(JsString.ToUpper(value), 1))]];
      grid := newGrid;
      focus := NextFocus(value, row, col);
    }

    /** checkSolution: the flag starts true and is cleared by every letter of
        every answer that is not in its cell. `correct` is the alert shown. */
    method CheckSolution() returns (correct: bool)
      ensures correct == Solved(grid)
    {
      correct := true;
      for k := 0 to |Across|
        invariant correct == AllAcross(grid, Across[..k])
      {
        correct := CheckAcross(Across[k], correct);
        assert Across[..k + 1] == Across[..k] + [Across[k]];
      }
      assert Across[..|Across|] == Across;
      var acrossOk := correct;
      for k := 0 to |Down|
        invariant correct == (acrossOk && AllDown(grid, Down[..k]))
      {
        correct := CheckDown(Down[k], correct);
        assert Down[..k + 1] == Down[..k] + [Down[k]];
      }
      assert Down[..|Down|] == Down;
    }

    /** The letters of one across answer, clearing the flag on a mismatch. */
    method CheckAcross(clue: Clue, before: bool) returns (correct: bool)
      ensures correct == (before && AcrossUpTo(grid, clue, |clue.answer|))
    {
      correct := before;
      for i := 0 to |clue.answer|
        invariant correct == (before && AcrossUpTo(grid, clue, i))
      {
        if At(grid, clue.row, clue.col + i) != Some(Some([clue.answer[i]])) {
          correct := false;
        }
      }
    }

    /** The letters of one down answer, clearing the flag on a mismatch. */
    method CheckDown(clue: Clue, before: bool) returns (correct: bool)
      ensures correct == (before && DownUpTo(grid, clue, |clue.answer|))
    {
      correct := before;
      for i := 0 to |clue.answer|
        invariant correct == (before && DownUpTo(grid, clue, i))
      {
        if At(grid, clue.row + i, clue.col) != Some(Some([clue.answer[i]])) {
          correct := false;
        }
      }
    }
  }
}
