// components/tools/minigames/TicTacToe.tsx — noughts and crosses against an
// AI at three difficulties. The pure engine (winner scan, empty squares,
// winning-move search, minimax) comes first, then the component's state.
module TicTacToe {
  import opened Wrappers
  import JsMath

  datatype Player = X | O
  datatype Difficulty = Easy | Medium | Hard
  datatype Phase = Settings | Playing | Ended

  function Other(p: Player): (q: Player)
    ensures q != p
  {
    if p == X then O else X
  }

  type Square = Option<Player>

  /** Cells 0..8, row by row. */
  type Board = b: seq<Square> | |b| == 9
    witness [None, None, None, None, None, None, None, None, None]

  /** A cell index. */
  type Cell = i: nat | i < 9

  const EmptyBoard: Board := [None, None, None, None, None, None, None, None, None]

  /** The eight lines of WINNING_COMBOS — rows, columns, diagonals — in the
      order they are checked. */
  function Line(k: nat): (l: (nat, nat, nat))
    requires k < 8
    ensures l.0 < 9 && l.1 < 9 && l.2 < 9
  {
    if k == 0 then (0, 1, 2) else if k == 1 then (3, 4, 5) else if k == 2 then (6, 7, 8)
    else if k == 3 then (0, 3, 6) else if k == 4 then (1, 4, 7) else if k == 5 then (2, 5, 8)
    else if k == 6 then (0, 4, 8) else (2, 4, 6)
  }

  datatype Win = Win(winner: Player, line: (nat, nat, nat))

  /** Line k holds three equal marks. */
  predicate LineWon(b: Board, k: nat)
    requires k < 8
  {
    var l := Line(k);
    b[l.0].Some? && b[l.0] == b[l.1] && b[l.0] == b[l.2]
  }

  function WinOf(b: Board, k: nat): Win
    requires k < 8 && LineWon(b, k)
  {
    Win(b[Line(k).0].value, Line(k))
  }

  /** checkWinner from line k on. */
  function WinnerFrom(b: Board, k: nat): Option<Win>
    requires k <= 8
    decreases 8 - k
  {
    if k == 8 then None
    else if LineWon(b, k) then Some(WinOf(b, k))
    else WinnerFrom(b, k + 1)
  }

  function Winner(b: Board): Option<Win>
  {
    WinnerFrom(b, 0)
  }

  lemma {:induction false} WinnerFromMeaning(b: Board, k: nat)
    requires k <= 8
    ensures var r := WinnerFrom(b, k);
      (r.None? <==> forall j :: k <= j < 8 ==> !LineWon(b, j))
      && (r.Some? ==> exists j :: k <= j < 8 && LineWon(b, j) && r.value == WinOf(b, j)
                                  && forall i :: k <= i < j ==> !LineWon(b, i))
    decreases 8 - k
  {
    if k < 8 && !LineWon(b, k) {
      WinnerFromMeaning(b, k + 1);
    }
  }

  /** checkWinner reports the first completed line in the fixed order, with
      the mark on it, and reports nothing exactly when no line is complete. */
  lemma WinnerMeaning(b: Board)
    ensures Winner(b).None? <==> forall j :: 0 <= j < 8 ==> !LineWon(b, j)
    ensures Winner(b).Some? ==> exists j :: 0 <= j < 8 && LineWon(b, j) && Winner(b).value == WinOf(b, j)
                                           && forall i :: 0 <= i < j ==> !LineWon(b, i)
  {
    WinnerFromMeaning(b, 0);
  }

  /** checkWinner: a for loop over the lines that returns at the first one
      completed. */
  method CheckWinner(b: Board) returns (r: Option<Win>)
    ensures r == Winner(b)
  {
    var i := 0;
    while i < 8
      invariant 0 <= i <= 8
      invariant WinnerFrom(b, i) == Winner(b)
    {
      if LineWon(b, i) {
        return Some(WinOf(b, i));
      }
      i := i + 1;
    }
    return None;
  }

  // ---------------------------------------------------------------- squares

  function EmptyFrom(b: Board, k: nat): seq<Cell>
    requires k <= 9
    decreases 9 - k
  {
    if k == 9 then []
    else (if b[k].None? then [k] else []) + EmptyFrom(b, k + 1)
  }

  /** getEmptySquares: the free cells in increasing order. */
  function EmptySquares(b: Board): seq<Cell>
  {
    EmptyFrom(b, 0)
  }

  /** Cells k..8 that are free, each once, in increasing order. */
  predicate FreeCellsFrom(b: Board, k: nat, r: seq<Cell>)
  {
    (forall q :: 0 <= q < |r| ==> k <= r[q] && b[r[q]].None?)
    && (forall j :: k <= j < 9 && b[j].None? ==> j in r)
    && (forall p, q :: 0 <= p < q < |r| ==> r[p] < r[q])
  }

  lemma {:induction false} EmptyFromMeaning(b: Board, k: nat)
    requires k <= 9
    ensures FreeCellsFrom(b, k, EmptyFrom(b, k))
    decreases 9 - k
  {
    if k < 9 {
      EmptyFromMeaning(b, k + 1);
    }
  }

  /** getEmptySquares lists exactly the free cells, in increasing order. */
  lemma EmptySquaresMeaning(b: Board)
    ensures FreeCellsFrom(b, 0, EmptySquares(b))
  {
    EmptyFromMeaning(b, 0);
  }

  /** `board.every(sq => sq !== null)`. */
  predicate Full(b: Board)
  {
    forall i :: 0 <= i < 9 ==> b[i].Some?
  }

  lemma FullIffNoEmpty(b: Board)
    ensures Full(b) <==> EmptySquares(b) == []
  {
    EmptySquaresMeaning(b);
    if !Full(b) {
      var i :| 0 <= i < 9 && b[i].None?;
      assert i in EmptySquares(b);
    }
  }

  function Fill(b: Board, i: nat, p: Player): Board
    requires i < 9
  {
    b[i := Some(p)]
  }

  lemma {:induction false} FillShrinksFrom(b: Board, i: nat, p: Player, k: nat)
    requires i < 9 && b[i].None? && k <= 9
    ensures |EmptyFrom(Fill(b, i, p), k)| == |EmptyFrom(b, k)| - (if k <= i then 1 else 0)
    decreases 9 - k
  {
    if k < 9 {
      FillShrinksFrom(b, i, p, k + 1);
    }
  }

  /** Every move takes one free cell away. */
  lemma FillShrinks(b: Board, i: nat, p: Player)
    requires i < 9 && b[i].None?
    ensures |EmptySquares(Fill(b, i, p))| == |EmptySquares(b)| - 1
  {
    FillShrinksFrom(b, i, p, 0);
  }

  /** In an increasing list holding every free cell from k on, a free cell
      below the q-th entry is one of the first q. */
  lemma IncreasingBefore(e: seq<nat>, q: nat, j: nat)
    requires forall p, t :: 0 <= p < t < |e| ==> e[p] < e[t]
    requires q < |e| && j in e && j < e[q]
    ensures exists p :: 0 <= p < q && e[p] == j
  {
    var p :| 0 <= p < |e| && e[p] == j;
  }

  /** A free cell below the q-th free cell is one of the first q. */
  lemma EmptyBefore(b: Board, q: nat, j: nat)
    requires q < |EmptySquares(b)| && j < EmptySquares(b)[q] && b[j].None?
    ensures exists p :: 0 <= p < q && EmptySquares(b)[p] == j
  {
    var e := EmptySquares(b);
    EmptySquaresMeaning(b);
    assert j in e;
    IncreasingBefore(e, q, j);
  }

  // ---------------------------------------------------------------- winning moves

  /** Putting p's mark on cell i makes checkWinner report p. */
  predicate WinsWith(b: Board, i: nat, p: Player)
    requires i < 9
  {
    var w := Winner(Fill(b, i, p));
    w.Some? && w.value.winner == p
  }

  predicate CanWin(b: Board, p: Player)
  {
    exists j :: 0 <= j < 9 && b[j].None? && WinsWith(b, j, p)
  }

  /** i is the lowest free cell that wins for p. */
  predicate FirstWinAt(b: Board, p: Player, i: nat)
  {
    i < 9 && b[i].None? && WinsWith(b, i, p)
    && forall j :: 0 <= j < i && b[j].None? ==> !WinsWith(b, j, p)
  }

  function FirstWinIn(b: Board, p: Player, idxs: seq<Cell>): Option<Cell>
  {
    if idxs == [] then None
    else if WinsWith(b, idxs[0], p) then Some(idxs[0])
    else FirstWinIn(b, p, idxs[1..])
  }

  lemma {:induction false} FirstWinInMeaning(b: Board, p: Player, idxs: seq<Cell>)
    ensures var r := FirstWinIn(b, p, idxs);
      (r.None? <==> forall q :: 0 <= q < |idxs| ==> !WinsWith(b, idxs[q], p))
      && (r.Some? ==> exists q :: 0 <= q < |idxs| && idxs[q] == r.value && WinsWith(b, r.value, p)
                                  && forall t :: 0 <= t < q ==> !WinsWith(b, idxs[t], p))
    decreases |idxs|
  {
    if idxs != [] && !WinsWith(b, idxs[0], p) {
      FirstWinInMeaning(b, p, idxs[1..]);
      assert forall q :: 1 <= q < |idxs| ==> idxs[1..][q - 1] == idxs[q];
      var r := FirstWinIn(b, p, idxs[1..]);
      if r.Some? {
        var q :| 0 <= q < |idxs[1..]| && idxs[1..][q] == r.value && WinsWith(b, r.value, p)
                 && forall t :: 0 <= t < q ==> !WinsWith(b, idxs[1..][t], p);
        assert idxs[q + 1] == r.value;
      }
    } else if idxs != [] {
      assert idxs[0] == FirstWinIn(b, p, idxs).value;
    }
  }

  /** findWinningMove's answer: the first free cell, in order, that wins. */
  function FirstWin(b: Board, p: Player): Option<Cell>
  {
    FirstWinIn(b, p, EmptySquares(b))
  }

  /** The search finds the lowest winning cell, and finds one whenever there is one. */
  lemma FirstWinMeaning(b: Board, p: Player)
    ensures FirstWin(b, p).Some? ==> FirstWinAt(b, p, FirstWin(b, p).value)
    ensures FirstWin(b, p).None? <==> !CanWin(b, p)
  {
    var e := EmptySquares(b);
    var r := FirstWin(b, p);
    EmptySquaresMeaning(b);
    FirstWinInMeaning(b, p, e);
    if r.Some? {
      var q :| 0 <= q < |e| && e[q] == r.value && forall t :: 0 <= t < q ==> !WinsWith(b, e[t], p);
      forall j | 0 <= j < r.value && b[j].None? ensures !WinsWith(b, j, p) {
        EmptyBefore(b, q, j);
      }
    } else {
      forall j | 0 <= j < 9 && b[j].None? ensures !WinsWith(b, j, p) {
        assert j in e;
      }
    }
  }

  /** findWinningMove: a loop over the free cells that returns at the first
      one whose filling wins for `symbol`. */
  method FindWinningMove(b: Board, symbol: Player) returns (r: Option<Cell>)
    ensures r == FirstWin(b, symbol)
  {
    var empty := EmptySquares(b);
    var k := 0;
    assert empty[0..] == empty;
    while k < |empty|
      invariant 0 <= k <= |empty|
      invariant FirstWinIn(b, symbol, empty[k..]) == FirstWin(b, symbol)
    {
      assert empty[k..][1..] == empty[k + 1..];
      assert empty[k..][0] == empty[k];
      var temp: Board := b[empty[k] := Some(symbol)];
      assert temp == Fill(b, empty[k], symbol);
      var w := CheckWinner(temp);
      if w.Some? && w.value.winner == symbol {
        assert WinsWith(b, empty[k], symbol);
        return Some(empty[k]);
      }
      assert !WinsWith(b, empty[k], symbol);
      k := k + 1;
    }
    assert empty[k..] == [];
    return None;
  }

  // ---------------------------------------------------------------- minimax

  /** Scores are numbers or the reduce seeds -Infinity / +Infinity. */
  datatype Ext = NegInf | Fin(v: int) | PosInf

  /** `a > b` on the extended numbers. */
  predicate Above(a: Ext, b: Ext)
  {
    match a
    case NegInf => false
    case Fin(x) => b.NegInf? || (b.Fin? && x > b.v)
    case PosInf => !b.PosInf?
  }

  /** The comparison of the maximising (`>`) or minimising (`<`) reduce. */
  predicate Improves(a: Ext, b: Ext, maximizing: bool)
  {
    if maximizing then Above(a, b) else Above(b, a)
  }

  datatype Scored = Scored(score: Ext, index: Option<Cell>)

  /** `moves.reduce((best, move) => better ? move : best, seed)`. */
  function Reduce(ms: seq<Scored>, best: Scored, maximizing: bool): Scored
    decreases |ms|
  {
    if ms == [] then best
    else Reduce(ms[1..], if Improves(ms[0].score, best.score, maximizing) then ms[0] else best, maximizing)
  }

  function Mover(ai: Player, maximizing: bool): Player
  {
    if maximizing then ai else Other(ai)
  }

  /** minimax(newBoard, isMaximizing) with aiSymbol = ai and
      playerSymbol = Other(ai). */
  function Minimax(b: Board, ai: Player, maximizing: bool): Scored
    decreases |EmptySquares(b)|, 1, 0
  {
    match Winner(b)
    case Some(w) => Scored(Fin(if w.winner == ai then 1 else -1), None)
    case None =>
      var empty := EmptySquares(b);
      EmptySquaresMeaning(b);
      if |empty| == 0 then Scored(Fin(0), None)
      else Reduce(Moves(b, ai, maximizing, empty), Seed(maximizing), maximizing)
  }

  /** The `{ score, index }` of every free cell in idxs. */
  function Moves(b: Board, ai: Player, maximizing: bool, idxs: seq<Cell>): (ms: seq<Scored>)
    requires forall q :: 0 <= q < |idxs| ==> b[idxs[q]].None?
    ensures |ms| == |idxs|
    decreases |EmptySquares(b)|, 0, |idxs|
  {
    if idxs == [] then []
    else
      var next := Fill(b, idxs[0], Mover(ai, maximizing));
      FillShrinks(b, idxs[0], Mover(ai, maximizing));
      [Scored(Minimax(next, ai, !maximizing).score, Some(idxs[0]))] + Moves(b, ai, maximizing, idxs[1..])
  }

  /** The value minimax gives the position after the mover takes cell j. */
  function ChildScore(b: Board, ai: Player, maximizing: bool, j: nat): Ext
    requires j < 9 && b[j].None?
  {
    FillShrinks(b, j, Mover(ai, maximizing));
    Minimax(Fill(b, j, Mover(ai, maximizing)), ai, !maximizing).score
  }

  lemma {:induction false} MovesAt(b: Board, ai: Player, maximizing: bool, idxs: seq<Cell>, q: nat)
    requires forall t :: 0 <= t < |idxs| ==> b[idxs[t]].None?
    requires q < |idxs|
    ensures Moves(b, ai, maximizing, idxs)[q] == Scored(ChildScore(b, ai, maximizing, idxs[q]), Some(idxs[q]))
    decreases |idxs|
  {
    if q > 0 {
      MovesAt(b, ai, maximizing, idxs[1..], q - 1);
    }
  }

  /** Finite scores under the strict comparison: ms[k] beats everything
      before it and nothing after it beats it. */
  predicate FirstBest(ms: seq<Scored>, k: nat, maximizing: bool)
  {
    k < |ms|
    && (forall j :: 0 <= j < k ==> Improves(ms[k].score, ms[j].score, maximizing))
    && (forall j :: k < j < |ms| ==> !Improves(ms[j].score, ms[k].score, maximizing))
  }

  lemma {:induction false} ReduceFromFinite(ms: seq<Scored>, best: Scored, maximizing: bool)
    requires best.score.Fin? && forall j :: 0 <= j < |ms| ==> ms[j].score.Fin?
    ensures var r := Reduce(ms, best, maximizing);
      (r == best && forall j :: 0 <= j < |ms| ==> !Improves(ms[j].score, best.score, maximizing))
      || exists k :: 0 <= k < |ms| && r == ms[k] && Improves(ms[k].score, best.score, maximizing) && FirstBest(ms, k, maximizing)
    decreases |ms|
  {
    if ms != [] {
      var next := if Improves(ms[0].score, best.score, maximizing) then ms[0] else best;
      ReduceFromFinite(ms[1..], next, maximizing);
      var r := Reduce(ms, best, maximizing);
      assert r == Reduce(ms[1..], next, maximizing);
      if r == next {
        if next == ms[0] && Improves(ms[0].score, best.score, maximizing) {
          assert forall j :: 1 <= j < |ms| ==> ms[j] == ms[1..][j - 1];
          assert FirstBest(ms, 0, maximizing);
        }
      } else {
        var k :| 0 <= k < |ms[1..]| && r == ms[1..][k] && Improves(ms[1..][k].score, next.score, maximizing)
                 && FirstBest(ms[1..], k, maximizing);
        assert forall j :: 1 <= j < |ms| ==> ms[j] == ms[1..][j - 1];
        assert FirstBest(ms, k + 1, maximizing);
      }
    }
  }

  /** With the infinite seed, the reduce returns the first best move. */
  lemma ReducePicksFirstBest(ms: seq<Scored>, maximizing: bool)
    requires |ms| > 0 && forall j :: 0 <= j < |ms| ==> ms[j].score.Fin?
    ensures exists k :: 0 <= k < |ms| && Reduce(ms, Seed(maximizing), maximizing) == ms[k]
                        && FirstBest(ms, k, maximizing)
  {
    var seed := Seed(maximizing);
    assert Improves(ms[0].score, seed.score, maximizing);
    assert Reduce(ms, seed, maximizing) == Reduce(ms[1..], ms[0], maximizing);
    ReduceFromFinite(ms[1..], ms[0], maximizing);
    assert forall j :: 1 <= j < |ms| ==> ms[j] == ms[1..][j - 1];
    var r := Reduce(ms[1..], ms[0], maximizing);
    if r == ms[0] && forall j :: 0 <= j < |ms[1..]| ==> !Improves(ms[1..][j].score, ms[0].score, maximizing) {
      assert FirstBest(ms, 0, maximizing);
    } else {
      var k :| 0 <= k < |ms[1..]| && r == ms[1..][k] && Improves(ms[1..][k].score, ms[0].score, maximizing)
               && FirstBest(ms[1..], k, maximizing);
      assert FirstBest(ms, k + 1, maximizing);
    }
  }

  predicate IsOutcome(e: Ext)
  {
    e == Fin(-1) || e == Fin(0) || e == Fin(1)
  }

  /** Every minimax score is a loss (-1), a draw (0) or a win (1) for the AI. */
  lemma {:induction false} MinimaxRange(b: Board, ai: Player, maximizing: bool)
    ensures IsOutcome(Minimax(b, ai, maximizing).score)
    decreases |EmptySquares(b)|
  {
    var empty := EmptySquares(b);
    EmptySquaresMeaning(b);
    if Winner(b).None? && |empty| > 0 {
      var ms := Moves(b, ai, maximizing, empty);
      forall q | 0 <= q < |ms| ensures IsOutcome(ms[q].score) {
        MovesAt(b, ai, maximizing, empty, q);
        FillShrinks(b, empty[q], Mover(ai, maximizing));
        MinimaxRange(Fill(b, empty[q], Mover(ai, maximizing)), ai, !maximizing);
      }
      ReducePicksFirstBest(ms, maximizing);
    }
  }

  /** The scores of a finished board: +1 if the AI won, -1 if its opponent
      did, 0 for a full board; no move is proposed. */
  lemma MinimaxTerminal(b: Board, ai: Player, maximizing: bool)
    requires Winner(b).Some? || Full(b)
    ensures Minimax(b, ai, maximizing).index.None?
    ensures Minimax(b, ai, maximizing).score
         == (if Winner(b).None? then Fin(0) else if Winner(b).value.winner == ai then Fin(1) else Fin(-1))
  {
    FullIffNoEmpty(b);
  }

  function Seed(maximizing: bool): Scored
  {
    Scored(if maximizing then NegInf else PosInf, None)
  }

  /** On an unfinished board minimax reduces the scored free cells. */
  lemma MinimaxUnfinished(b: Board, ai: Player, maximizing: bool)
    requires Winner(b).None? && !Full(b)
    ensures EmptySquares(b) != []
    ensures FreeCellsFrom(b, 0, EmptySquares(b))
    ensures Minimax(b, ai, maximizing) == Reduce(Moves(b, ai, maximizing, EmptySquares(b)), Seed(maximizing), maximizing)
  {
    FullIffNoEmpty(b);
    EmptySquaresMeaning(b);
  }

  /** Each scored move is the cell's child value, and it is finite. */
  lemma MovesScored(b: Board, ai: Player, maximizing: bool, idxs: seq<Cell>)
    requires forall t :: 0 <= t < |idxs| ==> b[idxs[t]].None?
    ensures forall q :: 0 <= q < |idxs| ==>
              Moves(b, ai, maximizing, idxs)[q] == Scored(ChildScore(b, ai, maximizing, idxs[q]), Some(idxs[q]))
              && Moves(b, ai, maximizing, idxs)[q].score.Fin?
  {
    forall q | 0 <= q < |idxs|
      ensures Moves(b, ai, maximizing, idxs)[q] == Scored(ChildScore(b, ai, maximizing, idxs[q]), Some(idxs[q]))
      ensures Moves(b, ai, maximizing, idxs)[q].score.Fin?
    {
      MovesAt(b, ai, maximizing, idxs, q);
      FillShrinks(b, idxs[q], Mover(ai, maximizing));
      MinimaxRange(Fill(b, idxs[q], Mover(ai, maximizing)), ai, !maximizing);
    }
  }

  /** The reduce's choice among the scored free cells. */
  lemma MinimaxChoice(b: Board, ai: Player, maximizing: bool) returns (k: nat)
    requires Winner(b).None? && !Full(b)
    ensures FreeCellsFrom(b, 0, EmptySquares(b))
    ensures k < |EmptySquares(b)|
    ensures Minimax(b, ai, maximizing) == Moves(b, ai, maximizing, EmptySquares(b))[k]
    ensures FirstBest(Moves(b, ai, maximizing, EmptySquares(b)), k, maximizing)
  {
    MinimaxUnfinished(b, ai, maximizing);
    var ms := Moves(b, ai, maximizing, EmptySquares(b));
    MovesScored(b, ai, maximizing, EmptySquares(b));
    ReducePicksFirstBest(ms, maximizing);
    k :| 0 <= k < |ms| && Reduce(ms, Seed(maximizing), maximizing) == ms[k] && FirstBest(ms, k, maximizing);
  }

  /** No free cell scores better than the k-th scored free cell. */
  lemma NoneBetter(b: Board, ai: Player, maximizing: bool, k: nat, j: Cell)
    requires FreeCellsFrom(b, 0, EmptySquares(b)) && b[j].None?
    requires FirstBest(Moves(b, ai, maximizing, EmptySquares(b)), k, maximizing)
    ensures !Improves(ChildScore(b, ai, maximizing, j), Moves(b, ai, maximizing, EmptySquares(b))[k].score, maximizing)
  {
    var empty := EmptySquares(b);
    var ms := Moves(b, ai, maximizing, empty);
    assert j in empty;
    var p :| 0 <= p < |empty| && empty[p] == j;
    MovesAt(b, ai, maximizing, empty, p);
    if p < k {
      assert Improves(ms[k].score, ms[p].score, maximizing);
    }
  }

  /** Every free cell below the k-th scores strictly worse than it. */
  lemma EarlierWorse(b: Board, ai: Player, maximizing: bool, k: nat, j: Cell)
    requires FreeCellsFrom(b, 0, EmptySquares(b))
    requires FirstBest(Moves(b, ai, maximizing, EmptySquares(b)), k, maximizing)
    requires j < EmptySquares(b)[k] && b[j].None?
    ensures Improves(Moves(b, ai, maximizing, EmptySquares(b))[k].score, ChildScore(b, ai, maximizing, j), maximizing)
  {
    var empty := EmptySquares(b);
    EmptyBefore(b, k, j);
    var p :| 0 <= p < k && empty[p] == j;
    MovesAt(b, ai, maximizing, empty, p);
  }

  /** On an unfinished board minimax proposes a free cell whose value is the
      best any free cell gives the mover, and the lowest such cell. */
  lemma MinimaxBest(b: Board, ai: Player, maximizing: bool)
    requires Winner(b).None? && !Full(b)
    ensures var r := Minimax(b, ai, maximizing);
      r.index.Some? && r.index.value < 9 && b[r.index.value].None?
      && r.score == ChildScore(b, ai, maximizing, r.index.value)
      && (forall j :: 0 <= j < 9 && b[j].None? ==> !Improves(ChildScore(b, ai, maximizing, j), r.score, maximizing))
      && (forall j :: 0 <= j < r.index.value && b[j].None? ==> Improves(r.score, ChildScore(b, ai, maximizing, j), maximizing))
  {
    var k := MinimaxChoice(b, ai, maximizing);
    var empty := EmptySquares(b);
    MovesAt(b, ai, maximizing, empty, k);
    forall j | 0 <= j < 9 && b[j].None?
      ensures !Improves(ChildScore(b, ai, maximizing, j), Minimax(b, ai, maximizing).score, maximizing)
    {
      NoneBetter(b, ai, maximizing, k, j);
    }
    forall j | 0 <= j < empty[k] && b[j].None?
      ensures Improves(Minimax(b, ai, maximizing).score, ChildScore(b, ai, maximizing, j), maximizing)
    {
      EarlierWorse(b, ai, maximizing, k, j);
    }
  }

  /** Playing minimax's move never lowers the value of the game for the AI:
      after any reply by its opponent the AI's position is worth at least
      what it was worth before its move. */
  lemma HardKeepsValue(b: Board, ai: Player, j: nat)
    requires Winner(b).None? && !Full(b)
    requires var r := Minimax(b, ai, true);
             r.index.Some? && r.index.value < 9 && b[r.index.value].None?
             && var after := Fill(b, r.index.value, ai);
             Winner(after).None? && !Full(after) && j < 9 && after[j].None?
    ensures var r := Minimax(b, ai, true);
            var after := Fill(b, r.index.value, ai);
            !Above(r.score, Minimax(Fill(after, j, Other(ai)), ai, true).score)
  {
    MinimaxBest(b, ai, true);
    var r := Minimax(b, ai, true);
    var after := Fill(b, r.index.value, ai);
    MinimaxBest(after, ai, false);
  }

  /** A position worth at least a draw to the AI is not one its opponent has won. */
  lemma NotLostWhileValueHolds(b: Board, ai: Player, maximizing: bool)
    requires Minimax(b, ai, maximizing).score != Fin(-1)
    ensures Winner(b).Some? ==> Winner(b).value.winner == ai
  {
  }

  // ---------------------------------------------------------------- the AI's choice

  /** `emptySquares[Math.floor(Math.random() * emptySquares.length)]`. */
  function RandomPick(b: Board, rand: real): (m: Option<Cell>)
    requires 0.0 <= rand < 1.0
  {
    var empty := EmptySquares(b);
    if |empty| == 0 then None else Some(empty[JsMath.PickIndex(rand, |empty|)])
  }

  /** The cell makeAiMove plays (None stands for `undefined`). */
  function AiChoice(b: Board, difficulty: Difficulty, ai: Player, rand: real): Option<Cell>
    requires 0.0 <= rand < 1.0
  {
    match difficulty
    case Easy => RandomPick(b, rand)
    case Medium =>
      if FirstWin(b, ai).Some? then FirstWin(b, ai)
      else if FirstWin(b, Other(ai)).Some? then FirstWin(b, Other(ai))
      else if b[4].None? then Some(4)
      else RandomPick(b, rand)
    case Hard => Minimax(b, ai, true).index
  }

  /** The move choice inside makeAiMove's timer callback. */
  method ChooseMove(b: Board, difficulty: Difficulty, ai: Player, rand: real) returns (move: Option<Cell>)
    requires 0.0 <= rand < 1.0
    ensures move == AiChoice(b, difficulty, ai, rand)
  {
    var emptySquares := EmptySquares(b);
    if difficulty == Easy {
      move := if |emptySquares| == 0 then None else Some(emptySquares[JsMath.PickIndex(rand, |emptySquares|)]);
    } else if difficulty == Medium {
      var aiWinMove := FindWinningMove(b, ai);
      if aiWinMove.Some? {
        move := aiWinMove;
      } else {
        var playerWinMove := FindWinningMove(b, Other(ai));
        if playerWinMove.Some? {
          move := playerWinMove;
        } else if b[4].None? {
          move := Some(4);
        } else {
          move := if |emptySquares| == 0 then None else Some(emptySquares[JsMath.PickIndex(rand, |emptySquares|)]);
        }
      }
    } else {
      move := Minimax(b, ai, true).index;
    }
  }

  /** A move is legal: a free cell. */
  predicate Legal(b: Board, m: Option<Cell>)
  {
    m.Some? ==> b[m.value].None?
  }

  /** The random pick is a free cell, and there is one unless the board is full. */
  lemma RandomPickLegal(b: Board, rand: real)
    requires 0.0 <= rand < 1.0
    ensures Legal(b, RandomPick(b, rand)) && (RandomPick(b, rand).None? <==> Full(b))
  {
    FullIffNoEmpty(b);
    EmptySquaresMeaning(b);
  }

  lemma MediumLegal(b: Board, ai: Player, rand: real)
    requires 0.0 <= rand < 1.0
    ensures Legal(b, AiChoice(b, Medium, ai, rand))
    ensures !Full(b) ==> AiChoice(b, Medium, ai, rand).Some?
  {
    FirstWinMeaning(b, ai);
    FirstWinMeaning(b, Other(ai));
    RandomPickLegal(b, rand);
  }

  lemma HardLegal(b: Board, ai: Player)
    ensures Legal(b, Minimax(b, ai, true).index)
    ensures Winner(b).None? && !Full(b) ==> Minimax(b, ai, true).index.Some?
  {
    if Winner(b).Some? || Full(b) {
      MinimaxTerminal(b, ai, true);
    } else {
      MinimaxBest(b, ai, true);
    }
  }

  /** Whatever the difficulty, the AI plays on a free cell, and on an
      unfinished board it always plays. */
  lemma AiChoiceLegal(b: Board, difficulty: Difficulty, ai: Player, rand: real)
    requires 0.0 <= rand < 1.0
    ensures var m := AiChoice(b, difficulty, ai, rand);
            Legal(b, m) && (Winner(b).None? && !Full(b) ==> m.Some?)
  {
    match difficulty
    case Easy => RandomPickLegal(b, rand);
    case Medium => MediumLegal(b, ai, rand);
    case Hard => HardLegal(b, ai);
  }

  /** Medium completes its own line when it can; otherwise it blocks the
      opponent's lowest winning cell; otherwise it takes the centre if free. */
  lemma MediumPriorities(b: Board, ai: Player, rand: real)
    requires 0.0 <= rand < 1.0
    ensures var m := AiChoice(b, Medium, ai, rand);
            (CanWin(b, ai) ==> m.Some? && FirstWinAt(b, ai, m.value))
            && (!CanWin(b, ai) && CanWin(b, Other(ai)) ==> m.Some? && FirstWinAt(b, Other(ai), m.value))
            && (!CanWin(b, ai) && !CanWin(b, Other(ai)) && b[4].None? ==> m == Some(4))
  {
    FirstWinMeaning(b, ai);
    FirstWinMeaning(b, Other(ai));
  }

  // ---------------------------------------------------------------- the component

  datatype Tally = Tally(player: nat, ai: nat, draws: nat)
  datatype Outcome = Won(winner: Player, line: (nat, nat, nat)) | Draw

  /** What the result effect depends on. `boardId` identifies the board
      array: every setBoard installs a new one. makeAiMove is rebuilt when
      playerSymbol or difficulty changes. */
  datatype Deps = Deps(boardId: nat, current: Player, phase: Phase, playerSymbol: Player, difficulty: Difficulty)

  datatype State = State(phase: Phase, difficulty: Difficulty, playerSymbol: Player, board: Board,
                         boardId: nat, current: Player, score: Tally, winnerInfo: Option<Outcome>,
                         aiThinking: bool)

  class Session {
    var phase: Phase
    var difficulty: Difficulty
    var playerSymbol: Player
    var board: Board
    var boardId: nat
    var current: Player
    var score: Tally
    var winnerInfo: Option<Outcome>
    var aiThinking: bool
    /** Dependency values at the result effect's last run. */
    var seen: Deps

    function Ai(): Player
      reads this
    {
      Other(playerSymbol)
    }

    function CurrentDeps(): Deps
      reads this
    {
      Deps(boardId, current, phase, playerSymbol, difficulty)
    }

    /** React runs the result effect after a render in which a dependency changed. */
    predicate EffectPending()
      reads this
    {
      CurrentDeps() != seen
    }

    function Snapshot(): State
      reads this
    {
      State(phase, difficulty, playerSymbol, board, boardId, current, score, winnerInfo, aiThinking)
    }

    /** The mounted component, after the mount-time run of the effect (which
        finds nothing to do on an empty board with X, the human, to move). */
    constructor ()
      ensures Snapshot() == State(Settings, Medium, X, EmptyBoard, 0, X, Tally(0, 0, 0), None, false)
      ensures !EffectPending()
    {
      phase, difficulty, playerSymbol := Settings, Medium, X;
      board, boardId, current := EmptyBoard, 0, X;
      score, winnerInfo, aiThinking := Tally(0, 0, 0), None, false;
      seen := Deps(0, X, Settings, X, Medium);
    }

    method SetDifficulty(d: Difficulty)
      modifies this
      ensures Snapshot() == old(Snapshot()).(difficulty := d) && seen == old(seen)
    {
      difficulty := d;
    }

    method SetPlayerSymbol(p: Player)
      modifies this
      ensures Snapshot() == old(Snapshot()).(playerSymbol := p) && seen == old(seen)
    {
      playerSymbol := p;
    }

    /** resetBoard — the "Play again" button. It leaves `phase` alone. */
    method ResetBoard()
      modifies this
      ensures Snapshot() == old(Snapshot()).(board := EmptyBoard, boardId := old(boardId) + 1,
                                             winnerInfo := None, current := X)
      ensures seen == old(seen)
    {
      board, boardId := EmptyBoard, boardId + 1;
      winnerInfo := None;
      current := X;
    }

    /** handleGameStart: X always starts. */
    method HandleGameStart()
      modifies this
      ensures Snapshot() == old(Snapshot()).(phase := Playing, board := EmptyBoard, boardId := old(boardId) + 1,
                                             winnerInfo := None, current := X)
      ensures seen == old(seen)
    {
      phase := Playing;
      current := X;
      ResetBoard();
    }

    /** handleSettingsChange — "Change difficulty": back to the settings
        screen with the tally cleared. */
    method HandleSettingsChange()
      modifies this
      ensures Snapshot() == old(Snapshot()).(phase := Settings, score := Tally(0, 0, 0))
      ensures seen == old(seen)
    {
      phase := Settings;
      score := Tally(0, 0, 0);
    }

    /** handlePlayerMove: refused on a taken cell, after a result, out of
        turn, or while the AI thinks. */
    method HandlePlayerMove(index: nat)
      requires index < 9
      modifies this
      ensures var refused := old(board[index]).Some? || old(winnerInfo).Some?
                             || old(current) != old(playerSymbol) || old(aiThinking);
              Snapshot() == if refused then old(Snapshot())
                            else old(Snapshot()).(board := Fill(old(board), index, old(playerSymbol)),
                                                  boardId := old(boardId) + 1, current := old(Ai()))
      ensures seen == old(seen)
    {
      if board[index].Some? || winnerInfo.Some? || current != playerSymbol || aiThinking {
        return;
      }
      board, boardId := Fill(board, index, playerSymbol), boardId + 1;
      current := Ai();
    }

    /** makeAiMove with its 500 ms timer fired at once. */
    method MakeAiMove(rand: real)
      requires 0.0 <= rand < 1.0
      modifies this
      ensures var m := AiChoice(old(board), old(difficulty), old(Ai()), rand);
              Snapshot() == old(Snapshot()).(board := if m.Some? then Fill(old(board), m.value, old(Ai())) else old(board),
                                             boardId := if m.Some? then old(boardId) + 1 else old(boardId),
                                             current := old(playerSymbol), aiThinking := false)
      ensures seen == old(seen)
    {
      aiThinking := true;
      var move := ChooseMove(board, difficulty, Ai(), rand);
      AiChoiceLegal(board, difficulty, Ai(), rand);
      if move.Some? {
        board, boardId := Fill(board, move.value, Ai()), boardId + 1;
      }
      current := playerSymbol;
      aiThinking := false;
    }

    /** The result effect as written: record a win or a draw and end the
        game, or let the AI move when it is its turn in a game in play. */
    method RunEffect(rand: real)
      requires 0.0 <= rand < 1.0
      modifies this
      ensures seen == old(CurrentDeps())
      ensures old(Winner(board)).Some? ==>
                var w := old(Winner(board)).value;
                Snapshot() == old(Snapshot()).(winnerInfo := Some(Won(w.winner, w.line)), phase := Ended,
                                               score := if w.winner == old(playerSymbol)
                                                        then old(score).(player := old(score).player + 1)
                                                        else old(score).(ai := old(score).ai + 1))
      ensures old(Winner(board)).None? && old(Full(board)) ==>
                Snapshot() == old(Snapshot()).(winnerInfo := Some(Draw), phase := Ended,
                                               score := old(score).(draws := old(score).draws + 1))
      ensures old(Winner(board)).None? && !old(Full(board)) && old(current) == old(Ai()) && old(phase) == Playing ==>
                var m := AiChoice(old(board), old(difficulty), old(Ai()), rand);
                m.Some? && Snapshot() == old(Snapshot()).(board := Fill(old(board), m.value, old(Ai())),
                                                          boardId := old(boardId) + 1,
                                                          current := old(playerSymbol), aiThinking := false)
      ensures old(Winner(board)).None? && !old(Full(board)) && !(old(current) == old(Ai()) && old(phase) == Playing) ==>
                Snapshot() == old(Snapshot())
    {
      seen := CurrentDeps();
      var w := CheckWinner(board);
      var isDraw := w.None? && Full(board);
      if w.Some? {
        winnerInfo := Some(Won(w.value.winner, w.value.line));
        score := if w.value.winner == playerSymbol then score.(player := score.player + 1) else score.(ai := score.ai + 1);
        phase := Ended;
      } else if isDraw {
        winnerInfo := Some(Draw);
        score := score.(draws := score.draws + 1);
        phase := Ended;
      } else if current == Ai() && phase == Playing {
        AiChoiceLegal(board, difficulty, Ai(), rand);
        MakeAiMove(rand);
      }
    }

    /** Play again, corrected: the new game is put back in play. */
    method PlayAgain()
      modifies this
      ensures Snapshot() == old(Snapshot()).(phase := Playing, board := EmptyBoard, boardId := old(boardId) + 1,
                                             winnerInfo := None, current := X)
      ensures seen == old(seen)
    {
      ResetBoard();
      phase := Playing;
    }

    /** The result effect, corrected: a result is recorded only while the
        game is in play, so a later run of the effect (because `phase`
        changed) neither counts the same game again nor ends a game that is
        not being played. */
    method RunEffectGuarded(rand: real)
      requires 0.0 <= rand < 1.0
      modifies this
      ensures seen == old(CurrentDeps())
      ensures old(phase) != Playing ==> Snapshot() == old(Snapshot())
      ensures old(phase) == Playing && old(Winner(board)).Some? ==>
                var w := old(Winner(board)).value;
                Snapshot() == old(Snapshot()).(winnerInfo := Some(Won(w.winner, w.line)), phase := Ended,
                                               score := if w.winner == old(playerSymbol)
                                                        then old(score).(player := old(score).player + 1)
                                                        else old(score).(ai := old(score).ai + 1))
      ensures old(phase) == Playing && old(Winner(board)).None? && old(Full(board)) ==>
                Snapshot() == old(Snapshot()).(winnerInfo := Some(Draw), phase := Ended,
                                               score := old(score).(draws := old(score).draws + 1))
      ensures old(phase) == Playing && old(Winner(board)).None? && !old(Full(board)) && old(current) == old(Ai()) ==>
                var m := AiChoice(old(board), old(difficulty), old(Ai()), rand);
                m.Some? && Snapshot() == old(Snapshot()).(board := Fill(old(board), m.value, old(Ai())),
                                                          boardId := old(boardId) + 1,
                                                          current := old(playerSymbol), aiThinking := false)
      ensures old(phase) == Playing && old(Winner(board)).None? && !old(Full(board)) && old(current) != old(Ai()) ==>
                Snapshot() == old(Snapshot())
    {
      seen := CurrentDeps();
      if phase != Playing {
        return;
      }
      var w := CheckWinner(board);
      var isDraw := w.None? && Full(board);
      if w.Some? {
        winnerInfo := Some(Won(w.value.winner, w.value.line));
        score := if w.value.winner == playerSymbol then score.(player := score.player + 1) else score.(ai := score.ai + 1);
        phase := Ended;
      } else if isDraw {
        winnerInfo := Some(Draw);
        score := score.(draws := score.draws + 1);
        phase := Ended;
      } else if current == Ai() {
        AiChoiceLegal(board, difficulty, Ai(), rand);
        MakeAiMove(rand);
      }
    }
  }

  // ---------------------------------------------------------------- runs of the component

  /** The empty board is not finished. */
  lemma EmptyBoardOpen()
    ensures Winner(EmptyBoard).None? && !Full(EmptyBoard)
  {
    WinnerMeaning(EmptyBoard);
    assert EmptyBoard[0].None?;
  }

  /** A board with a single mark is not finished. */
  lemma OneMarkOpen(i: Cell, p: Player)
    ensures Winner(Fill(EmptyBoard, i, p)).None? && !Full(Fill(EmptyBoard, i, p))
  {
    var b := Fill(EmptyBoard, i, p);
    WinnerMeaning(b);
    assert forall k :: 0 <= k < 8 ==> !LineWon(b, k);
    assert b[if i == 0 then 1 else 0].None?;
  }

  /** As written: after "Play again" the game is never put back in play, so
      once the human has moved the AI never answers and the human may not
      move again — the game is stuck with nothing left for React to run. */
  method PlayAgainStalls(s: Session, rand: real, index: Cell)
    requires 0.0 <= rand < 1.0
    requires s.phase == Ended && s.playerSymbol == X && !s.aiThinking && !s.EffectPending()
    modifies s
    ensures s.board == Fill(EmptyBoard, index, X)
    ensures s.phase == Ended && s.current == s.Ai() && s.winnerInfo.None?
    ensures !s.EffectPending()
  {
    s.ResetBoard();
    EmptyBoardOpen();
    assert s.EffectPending();
    s.RunEffect(rand);
    s.HandlePlayerMove(index);
    OneMarkOpen(index, X);
    assert s.EffectPending();
    s.RunEffect(rand);
  }

  /** Corrected: "Play again" puts the game back in play and the AI answers
      the human's first move. */
  method PlayAgainResumes(s: Session, rand: real, index: Cell)
    requires 0.0 <= rand < 1.0
    requires s.phase == Ended && s.playerSymbol == X && !s.aiThinking && !s.EffectPending()
    modifies s
    ensures var m := AiChoice(Fill(EmptyBoard, index, X), s.difficulty, O, rand);
            m.Some? && s.board == Fill(Fill(EmptyBoard, index, X), m.value, O)
    ensures s.phase == Playing && s.current == s.playerSymbol
  {
    s.PlayAgain();
    EmptyBoardOpen();
    assert s.EffectPending();
    s.RunEffectGuarded(rand);
    s.HandlePlayerMove(index);
    OneMarkOpen(index, X);
    assert s.EffectPending();
    s.RunEffectGuarded(rand);
  }

  /** As written: the run of the effect that records a result changes
      `phase`, which makes React run the effect again, and that run records
      the same result once more. */
  method ResultCountedTwice(s: Session, rand: real)
    requires 0.0 <= rand < 1.0
    requires s.phase == Playing && Winner(s.board).Some? && Winner(s.board).value.winner == s.playerSymbol
    modifies s
    ensures s.score == old(s.score).(player := old(s.score).player + 2)
    ensures s.phase == Ended && !s.EffectPending()
  {
    s.RunEffect(rand);
    assert s.EffectPending();
    s.RunEffect(rand);
  }

  /** Corrected: the second run finds the game no longer in play and leaves
      the tally alone. */
  method ResultCountedOnce(s: Session, rand: real)
    requires 0.0 <= rand < 1.0
    requires s.phase == Playing && Winner(s.board).Some? && Winner(s.board).value.winner == s.playerSymbol
    modifies s
    ensures s.score == old(s.score).(player := old(s.score).player + 1)
    ensures s.phase == Ended && !s.EffectPending()
  {
    s.RunEffectGuarded(rand);
    assert s.EffectPending();
    s.RunEffectGuarded(rand);
  }

  /** As written: "Change difficulty" after a won game changes `phase`, the
      effect runs on the finished board again and ends the game again
      instead of showing the settings; that changes `phase` once more, so the
      old game is counted twice into the cleared tally. */
  method SettingsChangeReEnds(s: Session, rand: real)
    requires 0.0 <= rand < 1.0
    requires s.phase == Ended && Winner(s.board).Some? && !s.EffectPending()
    modifies s
    ensures s.phase == Ended && s.score.player + s.score.ai == 2 && s.score.draws == 0
    ensures !s.EffectPending()
  {
    s.HandleSettingsChange();
    assert s.EffectPending();
    s.RunEffect(rand);
    assert s.EffectPending();
    s.RunEffect(rand);
  }

  /** Corrected: the settings screen stays, with the tally cleared. */
  method SettingsChangeStays(s: Session, rand: real)
    requires 0.0 <= rand < 1.0
    requires s.phase == Ended && Winner(s.board).Some? && !s.EffectPending()
    modifies s
    ensures s.phase == Settings && s.score == Tally(0, 0, 0)
    ensures !s.EffectPending()
  {
    s.HandleSettingsChange();
    assert s.EffectPending();
    ghost var before := s.Snapshot();
    s.RunEffectGuarded(rand);
    assert s.Snapshot() == before;
  }
}
