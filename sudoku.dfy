// components/tools/minigames/Sudoku.tsx — a 9×9 puzzle with input, check
// and hint buttons. The puzzle and its solution are given to the game.
module Sudoku {
  import opened Wrappers
  import JsString
  import JsMath

  /** Nine rows of nine. */
  predicate Is9x9<T>(g: seq<seq<T>>)
  {
    |g| == 9 && forall r :: 0 <= r < 9 ==> |g[r]| == 9
  }

  /** The puzzle (0 for an empty cell) and the solution are grids of numbers. */
  type Grid = g: seq<seq<int>> | Is9x9(g) witness seq(9, _ => seq(9, _ => 0))

  /** A board cell holds a number or nothing (null). */
  type Board = b: seq<seq<Option<int>>> | Is9x9(b) witness seq(9, _ => seq(9, _ => None))

  type Index = i: nat | i < 9

  /** The board with one cell replaced. */
  function Set(b: Board, r: Index, c: Index, v: Option<int>): (r': Board)
    ensures r'[r][c] == v
    ensures forall i, j :: 0 <= i < 9 && 0 <= j < 9 && (i != r || j != c) ==> r'[i][j] == b[i][j]
  {
    b[r := b[r][c := v]]
  }

  /** The board initializeBoard builds from the puzzle. */
  function Initial(puzzle: Grid): (b: Board)
    ensures forall i, j :: 0 <= i < 9 && 0 <= j < 9 ==>
              b[i][j] == if puzzle[i][j] == 0 then None else Some(puzzle[i][j])
  {
    seq(9, i requires 0 <= i < 9 =>
          seq(9, j requires 0 <= j < 9 => if puzzle[i][j] == 0 then None else Some(puzzle[i][j])))
  }

  /** Every cell holds its solution value. */
  predicate Solves(b: Board, solution: Grid)
  {
    forall i, j :: 0 <= i < 9 && 0 <= j < 9 ==> b[i][j] == Some(solution[i][j])
  }

  /** The solution written out as a board. */
  function SolutionBoard(solution: Grid): Board
  {
    seq(9, i requires 0 <= i < 9 => seq(9, j requires 0 <= j < 9 => Some(solution[i][j])))
  }

  /** A board solves the puzzle exactly when it is the solution board. */
  lemma SolvesIffSolution(b: Board, solution: Grid)
    ensures Solves(b, solution) <==> b == SolutionBoard(solution)
  {
    var s := SolutionBoard(solution);
    if Solves(b, solution) {
      forall i | 0 <= i < 9 ensures b[i] == s[i] {
        assert forall j :: 0 <= j < 9 ==> b[i][j] == s[i][j];
      }
    }
  }

  /** The cells (r, c) with c < n of row r that are empty, left to right. */
  function RowEmpties(b: Board, r: Index, n: nat): seq<(Index, Index)>
    requires n <= 9
  {
    if n == 0 then []
    else RowEmpties(b, r, n - 1) + (if b[r][n - 1] == None then [(r, (n - 1) as Index)] else [])
  }

  /** The empty cells of the first n rows, row by row: the order the hint
      collects them in. */
  function Empties(b: Board, n: nat): seq<(Index, Index)>
    requires n <= 9
  {
    if n == 0 then [] else Empties(b, n - 1) + RowEmpties(b, (n - 1) as Index, 9)
  }

  function EmptyCells(b: Board): seq<(Index, Index)>
  {
    Empties(b, 9)
  }

  lemma {:induction false} RowEmptiesMeaning(b: Board, r: Index, n: nat, cell: (Index, Index))
    requires n <= 9
    ensures cell in RowEmpties(b, r, n) <==> cell.0 == r && cell.1 < n && b[r][cell.1] == None
  {
    if n > 0 {
      RowEmptiesMeaning(b, r, n - 1, cell);
    }
  }

  lemma {:induction false} EmptiesMeaning(b: Board, n: nat, cell: (Index, Index))
    requires n <= 9
    ensures cell in Empties(b, n) <==> cell.0 < n && b[cell.0][cell.1] == None
  {
    if n > 0 {
      EmptiesMeaning(b, n - 1, cell);
      RowEmptiesMeaning(b, (n - 1) as Index, 9, cell);
    }
  }

  /** The list of empty cells holds exactly the cells that are null. */
  lemma EmptyCellsMeaning(b: Board, cell: (Index, Index))
    ensures cell in EmptyCells(b) <==> b[cell.0][cell.1] == None
  {
    EmptiesMeaning(b, 9, cell);
  }

  lemma {:induction false} RowEmptiesFill(b: Board, r: Index, n: nat, r0: Index, c0: Index, v: int)
    requires n <= 9 && b[r0][c0] == None
    ensures |RowEmpties(Set(b, r0, c0, Some(v)), r, n)|
            == |RowEmpties(b, r, n)| - (if r == r0 && c0 < n then 1 else 0)
  {
    if n > 0 {
      RowEmptiesFill(b, r, n - 1, r0, c0, v);
    }
  }

  lemma {:induction false} EmptiesFill(b: Board, n: nat, r0: Index, c0: Index, v: int)
    requires n <= 9 && b[r0][c0] == None
    ensures |Empties(Set(b, r0, c0, Some(v)), n)| == |Empties(b, n)| - (if r0 < n then 1 else 0)
  {
    if n > 0 {
      EmptiesFill(b, n - 1, r0, c0, v);
      RowEmptiesFill(b, (n - 1) as Index, 9, r0, c0, v);
    }
  }

  /** Filling an empty cell leaves one empty cell fewer. */
  lemma FillOneEmpty(b: Board, r0: Index, c0: Index, v: int)
    requires b[r0][c0] == None
    ensures |EmptyCells(Set(b, r0, c0, Some(v)))| == |EmptyCells(b)| - 1
  {
    EmptiesFill(b, 9, r0, c0, v);
  }

  /** No cell holds a number other than its solution value. */
  predicate NoWrongEntry(b: Board, solution: Grid)
  {
    forall i, j :: 0 <= i < 9 && 0 <= j < 9 && b[i][j] != None ==> b[i][j] == Some(solution[i][j])
  }

  /** A board with no wrong entry and no empty cell is solved, so taking
      hints on such a board ends at the solution. */
  lemma FullAndRightSolves(b: Board, solution: Grid)
    requires NoWrongEntry(b, solution) && EmptyCells(b) == []
    ensures Solves(b, solution)
  {
    forall i: Index, j: Index ensures b[i][j] == Some(solution[i][j]) {
      EmptyCellsMeaning(b, (i, j));
    }
  }

  /** What handleInputChange accepts: the empty string, or text whose
      parseInt is 1..9. */
  function Accepted(value: string): (r: Option<Option<int>>)
    ensures value == [] ==> r == Some(None)
    ensures value != [] ==> (r.Some? <==> JsString.ParseInt(value).Some? && 1 <= JsString.ParseInt(value).value <= 9)
    ensures value != [] && r.Some? ==> r.value == JsString.ParseInt(value)
  {
    var num := JsString.ParseInt(value);
    if value == [] then Some(None)
    else if num.Some? && 1 <= num.value <= 9 then Some(num)
    else None
  }

  /** Every single digit 1..9 is accepted as itself. */
  lemma DigitAccepted(d: nat)
    requires 1 <= d <= 9
    ensures Accepted(JsString.NatToString(d)) == Some(Some(d))
  {
    JsString.ParseIntOfNat(d);
  }

  class Game {
    const puzzle: Grid
    const solution: Grid
    var board: Board
    var isSolved: bool

    /** The given digits are on the board. */
    predicate GivensKept()
      reads this
    {
      forall i, j :: 0 <= i < 9 && 0 <= j < 9 && puzzle[i][j] != 0 ==> board[i][j] == Some(puzzle[i][j])
    }

    /** The input of a cell is enabled: not a given and not yet solved. */
    predicate Editable(row: Index, col: Index)
      reads this
    {
      puzzle[row][col] == 0 && !isSolved
    }

    /** The mount effect runs initializeBoard. */
    constructor (puzzle: Grid, solution: Grid)
      ensures this.puzzle == puzzle && this.solution == solution
      ensures board == Initial(puzzle) && !isSolved && GivensKept()
    {
      this.puzzle, this.solution := puzzle, solution;
      board, isSolved := Initial(puzzle), false;
    }

    /** initializeBoard (the reset button). */
    method InitializeBoard()
      modifies this
      ensures board == Initial(puzzle) && !isSolved && GivensKept()
    {
      isSolved := false;
      board := Initial(puzzle);
    }

    /** handleInputChange: once solved, or for text it does not accept, the
        board is unchanged; otherwise only that cell changes. It does not
        itself refuse given cells. */
    method InputChange(row: Index, col: Index, value: string)
      modifies this
      ensures isSolved == old(isSolved)
      ensures old(isSolved) || Accepted(value).None? ==> board == old(board)
      ensures !old(isSolved) && Accepted(value).Some? ==> board == Set(old(board), row, col, Accepted(value).value)
      ensures old(Editable(row, col)) && old(GivensKept()) ==> GivensKept()
    {
      if isSolved {
        return;
      }
      var num := JsString.ParseInt(value);
      if value == [] || (num.Some? && 1 <= num.value <= 9) {
        var newValue := if value == [] then None else num;
        board := Set(board, row, col, newValue);
      }
    }

    /** checkSolution: the nested loop stops at the first cell that differs
        from the solution; only a full match sets solved. `correct` is the
        alert shown. */
    method CheckSolution() returns (correct: bool)
      modifies this
      ensures correct == Solves(board, solution)
      ensures board == old(board)
      ensures isSolved == (old(isSolved) || correct)
    {
      var i := 0;
      while i < 9
        invariant 0 <= i <= 9
        invariant forall r, c :: 0 <= r < i && 0 <= c < 9 ==> board[r][c] == Some(solution[r][c])
      {
        var j := 0;
        while j < 9
          invariant 0 <= j <= 9
          invariant forall r, c :: 0 <= r < i && 0 <= c < 9 ==> board[r][c] == Some(solution[r][c])
          invariant forall c :: 0 <= c < j ==> board[i][c] == Some(solution[i][c])
        {
          if board[i][j] != Some(solution[i][j]) {
            return false;
          }
          j := j + 1;
        }
        i := i + 1;
      }
      isSolved := true;
      return true;
    }

    /** The emptyCells list showHint pushes, row by row. */
    method CollectEmpty() returns (emptyCells: seq<(Index, Index)>)
      ensures emptyCells == EmptyCells(board)
    {
      emptyCells := [];
      var i := 0;
      while i < 9
        invariant 0 <= i <= 9
        invariant emptyCells == Empties(board, i)
      {
        var j := 0;
        while j < 9
          invariant 0 <= j <= 9
          invariant emptyCells == Empties(board, i) + RowEmpties(board, i as Index, j)
        {
          if board[i][j] == None {
            emptyCells := emptyCells + [(i as Index, j as Index)];
          }
          j := j + 1;
        }
        i := i + 1;
      }
    }

    /** showHint: unless solved, one empty cell, drawn at random from the
        list, gets its solution value; no-op when solved or full. */
    method ShowHint(rand: real) returns (hinted: Option<(Index, Index)>)
      requires 0.0 <= rand < 1.0
      modifies this
      ensures isSolved == old(isSolved)
      ensures old(isSolved) || EmptyCells(old(board)) == [] ==> hinted == None && board == old(board)
      ensures !old(isSolved) && EmptyCells(old(board)) != [] ==>
                var cells := EmptyCells(old(board));
                hinted == Some(cells[JsMath.PickIndex(rand, |cells|)])
      ensures hinted.Some? ==>
                var (r, c) := hinted.value;
                old(board)[r][c] == None
                && board == Set(old(board), r, c, Some(solution[r][c]))
                && |EmptyCells(board)| == |EmptyCells(old(board))| - 1
      ensures old(NoWrongEntry(board, solution)) ==> NoWrongEntry(board, solution)
      ensures old(GivensKept()) ==> GivensKept()
    {
      if isSolved {
        return None;
      }
      var emptyCells := CollectEmpty();
      if |emptyCells| > 0 {
        var randomCell := emptyCells[JsMath.PickIndex(rand, |emptyCells|)];
        var (r, c) := randomCell;
        EmptyCellsMeaning(board, randomCell);
        FillOneEmpty(board, r, c, solution[r][c]);
        board := Set(board, r, c, Some(solution[r][c]));
        return Some(randomCell);
      }
      return None;
    }
  }
}
