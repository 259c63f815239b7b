// components/tools/minigames/MindfulChess.tsx — chess against a remote
// engine. The board is read from the piece-placement field of a FEN record
// (section 16.1.3.1 of the PGN standard); legality of moves is the remote
// engine's business, so the legal moves arrive as data. What is local: the
// FEN reader, square names, move targets, the captured-pieces tray and the
// click / promotion / undo state of the component.
module MindfulChess {
  import opened Wrappers
  import opened JsString
  import StableSort

  /** A board cell: a piece letter, or `null`. */
  type Square = Option<char>

  // ---------------------------------------------------------------- fenToBoard

  /** n empty cells. */
  function Nulls(n: nat): (r: seq<Square>)
    ensures |r| == n && forall i :: 0 <= i < n ==> r[i].None?
  {
    seq(n, _ => None)
  }

  /** The cells one character of a rank pushes: a digit d pushes d nulls,
      any other character itself. */
  function CharCells(c: char): seq<Square>
  {
    if IsDigit(c) then Nulls(DigitValue(c)) else [Some(c)]
  }

  /** The row one rank of the placement field becomes. */
  function RowCells(row: string): seq<Square>
    decreases |row|
  {
    if row == [] then [] else RowCells(row[..|row| - 1]) + CharCells(row[|row| - 1])
  }

  /** `fen.split(' ')[0]`, the piece-placement field. */
  function Placement(fen: string): string
  {
    Split(fen, ' ')[0]
  }

  /** `position.split('/')`, the ranks from the eighth down. */
  function Ranks(fen: string): seq<string>
  {
    Split(Placement(fen), '/')
  }

  /** The board fenToBoard builds, one row per rank. */
  function FenBoard(fen: string): seq<seq<Square>>
  {
    seq(|Ranks(fen)|, i requires 0 <= i < |Ranks(fen)| => RowCells(Ranks(fen)[i]))
  }

  /** fenToBoard: for each rank, push cells character by character. */
  method FenToBoard(fen: string) returns (board: seq<seq<Square>>)
    ensures board == FenBoard(fen)
  {
    var position := Split(fen, ' ')[0];
    var rows := Split(position, '/');
    board := [];
    var r := 0;
    while r < |rows|
      invariant 0 <= r <= |rows|
      invariant |board| == r && forall i :: 0 <= i < r ==> board[i] == RowCells(rows[i])
    {
      var boardRow := BuildRow(rows[r]);
      board := board + [boardRow];
      r := r + 1;
    }
  }

  /** The inner loop of fenToBoard over one rank. */
  method BuildRow(row: string) returns (boardRow: seq<Square>)
    ensures boardRow == RowCells(row)
  {
    boardRow := [];
    var k := 0;
    while k < |row|
      invariant 0 <= k <= |row|
      invariant boardRow == RowCells(row[..k])
    {
      var ch := row[k];
      assert row[..k + 1][..k] == row[..k];
      if !IsDigit(ch) {
        boardRow := boardRow + [Some(ch)];
      } else {
        boardRow := PushNulls(boardRow, DigitValue(ch));
      }
      k := k + 1;
    }
    assert row[..|row|] == row;
  }

  /** `for (let i = 0; i < n; i++) boardRow.push(null)`. */
  method PushNulls(before: seq<Square>, n: nat) returns (boardRow: seq<Square>)
    ensures boardRow == before + Nulls(n)
  {
    boardRow := before;
    var i := 0;
    while i < n
      invariant 0 <= i <= n
      invariant boardRow == before + Nulls(i)
    {
      boardRow := boardRow + [None];
      i := i + 1;
    }
  }

  /** Rows are built left to right: the cells of a concatenation are the
      cells of its parts, in order. */
  lemma {:induction false} RowCellsAppend(a: string, b: string)
    ensures RowCells(a + b) == RowCells(a) + RowCells(b)
    decreases |b|
  {
    if b != [] {
      var c := b[|b| - 1];
      assert (a + b)[..|a + b| - 1] == a + b[..|b| - 1];
      assert (a + b)[|a + b| - 1] == c;
      assert RowCells(a + b) == RowCells(a + b[..|b| - 1]) + CharCells(c);
      assert RowCells(b) == RowCells(b[..|b| - 1]) + CharCells(c);
      RowCellsAppend(a, b[..|b| - 1]);
      assert RowCells(a) + RowCells(b) == RowCells(a) + RowCells(b[..|b| - 1]) + CharCells(c);
    } else {
      assert a + b == a;
    }
  }

  function NonDigits(row: string): nat
    decreases |row|
  {
    if row == [] then 0 else NonDigits(row[1..]) + (if IsDigit(row[0]) then 0 else 1)
  }

  function DigitSum(row: string): nat
    decreases |row|
  {
    if row == [] then 0 else DigitSum(row[1..]) + (if IsDigit(row[0]) then DigitValue(row[0]) else 0)
  }

  /** A row has one cell per non-digit character plus as many as the digits add up to. */
  lemma {:induction false} RowLength(row: string)
    ensures |RowCells(row)| == NonDigits(row) + DigitSum(row)
    decreases |row|
  {
    if row != [] {
      RowCellsAppend([row[0]], row[1..]);
      assert [row[0]] + row[1..] == row;
      assert RowCells([row[0]]) == RowCells([]) + CharCells(row[0]);
      RowLength(row[1..]);
    }
  }

  /** A rank without digits has one occupied cell per character. */
  lemma {:induction false} LetterRow(row: string)
    requires forall i :: 0 <= i < |row| ==> !IsDigit(row[i])
    ensures |RowCells(row)| == |row|
    decreases |row|
  {
    if row != [] {
      LetterRow(row[..|row| - 1]);
    }
  }

  /** The eight ranks of the starting position. */
  const StartRanks: seq<string> := ["rnbqkbnr", "pppppppp", "8", "8", "8", "8", "PPPPPPPP", "RNBQKBNR"]

  /** The FEN a new game starts from,
      rnbqkbnr/pppppppp/8/8/8/8/PPPPPPPP/RNBQKBNR w KQkq - 0 1. */
  const StartFen: string := Join(StartRanks, '/') + " w KQkq - 0 1"

  lemma {:induction false} SplitAt(a: string, b: string, sep: char)
    requires sep !in a
    ensures Split(a + [sep] + b, sep) == [a] + Split(b, sep)
    decreases |a|
  {
    if a == [] {
      assert [sep] + b == a + [sep] + b;
      assert ([sep] + b)[1..] == b;
    } else {
      var s := a + [sep] + b;
      assert s[1..] == a[1..] + [sep] + b;
      SplitAt(a[1..], b, sep);
      var rest := Split(s[1..], sep);
      assert rest == [a[1..]] + Split(b, sep);
      assert [a[0]] + a[1..] == a;
      assert rest[1..] == Split(b, sep);
    }
  }

  lemma {:induction false} SplitNone(a: string, sep: char)
    requires sep !in a
    ensures Split(a, sep) == [a]
    decreases |a|
  {
    if a != [] {
      SplitNone(a[1..], sep);
      assert [a[0]] + a[1..] == a;
    }
  }

  /** Splitting a join of separator-free pieces gives the pieces back. */
  lemma {:induction false} SplitJoin(parts: seq<string>, sep: char)
    requires |parts| >= 1 && forall k :: 0 <= k < |parts| ==> sep !in parts[k]
    ensures Split(Join(parts, sep), sep) == parts
    decreases |parts|
  {
    if |parts| == 1 {
      SplitNone(parts[0], sep);
    } else {
      SplitJoin(parts[1..], sep);
      SplitAt(parts[0], Join(parts[1..], sep), sep);
    }
  }

  lemma {:induction false} JoinAvoids(parts: seq<string>, sep: char, c: char)
    requires |parts| >= 1 && c != sep && forall k :: 0 <= k < |parts| ==> c !in parts[k]
    ensures c !in Join(parts, sep)
    decreases |parts|
  {
    if |parts| > 1 {
      JoinAvoids(parts[1..], sep, c);
    }
  }

  /** The ranks of a FEN are the separator-free pieces its placement field
      was joined from. */
  lemma RanksOfJoin(parts: seq<string>, rest: string)
    requires |parts| >= 1 && forall k :: 0 <= k < |parts| ==> '/' !in parts[k] && ' ' !in parts[k]
    ensures Ranks(Join(parts, '/') + [' '] + rest) == parts
  {
    var w := Join(parts, '/');
    JoinAvoids(parts, '/', ' ');
    SplitAt(w, rest, ' ');
    SplitJoin(parts, '/');
  }

  /** No starting rank holds a separator. */
  lemma StartRanksPlain()
    ensures forall k :: 0 <= k < |StartRanks| ==> '/' !in StartRanks[k] && ' ' !in StartRanks[k]
  {
  }

  lemma StartRows()
    ensures Ranks(StartFen) == StartRanks
  {
    var tail := "w KQkq - 0 1";
    assert StartFen == Join(StartRanks, '/') + [' '] + tail;
    StartRanksPlain();
    RanksOfJoin(StartRanks, tail);
  }

  /** A FEN with the starting ranks gives an 8 by 8 board. */
  lemma StartRanksBoard(fen: string)
    requires Ranks(fen) == StartRanks
    ensures |FenBoard(fen)| == 8
    ensures forall i :: 0 <= i < 8 ==> |FenBoard(fen)[i]| == 8
  {
    LetterRow(StartRanks[0]);
    LetterRow(StartRanks[1]);
    LetterRow(StartRanks[6]);
    LetterRow(StartRanks[7]);
    assert RowCells("8") == RowCells([]) + CharCells('8');
  }

  /** The starting position is an 8 by 8 board. */
  lemma StartBoard()
    ensures |FenBoard(StartFen)| == 8
    ensures forall i :: 0 <= i < 8 ==> |FenBoard(StartFen)[i]| == 8
  {
    StartRows();
    StartRanksBoard(StartFen);
  }

  // ---------------------------------------------------------------- square names

  /** Coordinates on the 8 by 8 board the component draws. */
  type Coord = i: nat | i < 8

  /** `${String.fromCharCode(97 + col)}${8 - row}`: file letter, then rank. */
  function SquareName(row: Coord, col: Coord): (s: string)
    ensures |s| == 2 && 'a' <= s[0] <= 'h' && '1' <= s[1] <= '8'
    ensures ParseSquare(s) == Some((row, col))
  {
    [(97 + col) as char] + NatToString(8 - row)
  }

  /** Reads a square name back. */
  function ParseSquare(s: string): Option<(Coord, Coord)>
  {
    if |s| == 2 && 'a' <= s[0] <= 'h' && '1' <= s[1] <= '8'
    then Some(((8 - DigitValue(s[1])) as Coord, (s[0] as int - 97) as Coord))
    else None
  }

  /** Every well-formed name is the name of the square it reads as. */
  lemma ParseSquareRoundTrip(s: string)
    requires ParseSquare(s).Some?
    ensures SquareName(ParseSquare(s).value.0, ParseSquare(s).value.1) == s
  {
    var p := ParseSquare(s).value;
    assert NatToString(8 - p.0) == [s[1]];
  }

  /** Different squares have different names. */
  lemma SquareNameInjective(r1: Coord, c1: Coord, r2: Coord, c2: Coord)
    requires SquareName(r1, c1) == SquareName(r2, c2)
    ensures r1 == r2 && c1 == c2
  {
  }

  // ---------------------------------------------------------------- move targets

  /** possibleMoveSquares: characters 2..3 of each legal move starting with the
      selected square's name, in the order of the moves. */
  function Targets(from: string, moves: seq<string>): seq<string>
    decreases |moves|
  {
    if moves == [] then []
    else (if StartsWith(moves[0], from) then [Substring(moves[0], 2, 4)] else []) + Targets(from, moves[1..])
  }

  /** The highlighted squares are exactly the destinations of the moves that
      leave the selected square. */
  lemma {:induction false} TargetsMeaning(from: string, moves: seq<string>, t: string)
    ensures t in Targets(from, moves) <==>
            exists i :: 0 <= i < |moves| && StartsWith(moves[i], from) && Substring(moves[i], 2, 4) == t
    decreases |moves|
  {
    if moves != [] {
      TargetsMeaning(from, moves[1..], t);
      assert forall i :: 1 <= i < |moves| ==> moves[1..][i - 1] == moves[i];
      if t in Targets(from, moves[1..]) {
        var i :| 0 <= i < |moves[1..]| && StartsWith(moves[1..][i], from) && Substring(moves[1..][i], 2, 4) == t;
        assert moves[i + 1] == moves[1..][i];
      }
    }
  }

  /** `legalMoves.some(m => m.startsWith(prefix))`. */
  predicate AnyStartsWith(moves: seq<string>, prefix: string)
  {
    exists i :: 0 <= i < |moves| && StartsWith(moves[i], prefix)
  }

  // ---------------------------------------------------------------- captured pieces

  datatype Color = White | Black

  /** The keys of initialPieceCount, in their order. */
  const InitialKeys: seq<char> := ['p', 'n', 'b', 'r', 'q', 'P', 'N', 'B', 'R', 'Q']

  /** The pieces initialPieceCount counts: all but the kings. */
  predicate Tracked(c: char)
  {
    c == 'p' || c == 'n' || c == 'b' || c == 'r' || c == 'q' || c == 'P' || c == 'N' || c == 'B' || c == 'R' || c == 'Q'
  }

  lemma TrackedKeys(c: char)
    ensures c in InitialKeys <==> Tracked(c)
  {
    if Tracked(c) {
      assert c == InitialKeys[0] || c == InitialKeys[1] || c == InitialKeys[2] || c == InitialKeys[3]
          || c == InitialKeys[4] || c == InitialKeys[5] || c == InitialKeys[6] || c == InitialKeys[7]
          || c == InitialKeys[8] || c == InitialKeys[9];
    }
  }

  function InitialCount(c: char): nat
  {
    if c == 'p' || c == 'P' then 8
    else if c == 'q' || c == 'Q' then 1
    else if Tracked(c) then 2
    else 0
  }

  /** The tray for `color` lists the other side's pieces: upper case for
      Black, lower case for White. */
  predicate Shown(color: Color, piece: char)
  {
    (color == Black && piece == UpperChar(piece)) || (color == White && piece == LowerChar(piece))
  }

  /** pieceOrderValue of the lower-cased piece; only the ten counted pieces
      are ever sorted. */
  function OrderValue(c: char): real
  {
    var l := LowerChar(c);
    if l == 'q' then 1.0 else if l == 'r' then 2.0 else if l == 'b' then 3.0
    else if l == 'n' then 4.0 else if l == 'p' then 5.0 else 0.0
  }

  /** `.replace(/\//g, '')`. */
  function WithoutSlashes(s: string): (r: string)
    decreases |s|
  {
    if s == [] then [] else (if s[0] == '/' then [] else [s[0]]) + WithoutSlashes(s[1..])
  }

  lemma {:induction false} WithoutSlashesCount(s: string, c: char)
    ensures multiset(WithoutSlashes(s))[c] == if c == '/' then 0 else multiset(s)[c]
    decreases |s|
  {
    if s != [] {
      WithoutSlashesCount(s[1..], c);
      var head := if s[0] == '/' then [] else [s[0]];
      assert s == [s[0]] + s[1..];
      assert multiset(s) == multiset([s[0]]) + multiset(s[1..]);
      assert multiset(WithoutSlashes(s)) == multiset(head) + multiset(WithoutSlashes(s[1..]));
    }
  }

  /** currentCounts[c] || 0: occurrences of a non-digit character. */
  function Counted(fen: string, c: char): nat
  {
    if IsDigit(c) then 0 else multiset(WithoutSlashes(Placement(fen)))[c]
  }

  /** How many of a piece the tray shows: a negative difference shows none. */
  function Missing(fen: string, piece: char): nat
  {
    if InitialCount(piece) > Counted(fen, piece) then InitialCount(piece) - Counted(fen, piece) else 0
  }

  function Repeat(c: char, n: nat): (r: seq<char>)
    ensures |r| == n && forall i :: 0 <= i < n ==> r[i] == c
  {
    seq(n, _ => c)
  }

  /** The `captured` array after the push loop has handled `keys`. */
  function Pushed(fen: string, color: Color, keys: seq<char>): seq<char>
    decreases |keys|
  {
    if keys == [] then []
    else
      var piece := keys[|keys| - 1];
      Pushed(fen, color, keys[..|keys| - 1]) + (if Shown(color, piece) then Repeat(piece, Missing(fen, piece)) else [])
  }

  /** The tray's contents: the pushed pieces sorted by pieceOrderValue. */
  function Captured(fen: string, color: Color): seq<char>
  {
    StableSort.Sort(Pushed(fen, color, InitialKeys), OrderValue)
  }

  function Get(counts: map<char, nat>, c: char): nat
  {
    if c in counts then counts[c] else 0
  }

  /** The forEach that fills currentCounts: one per non-digit character. */
  method CountPieces(flat: string) returns (counts: map<char, nat>)
    ensures forall c :: Get(counts, c) == if IsDigit(c) then 0 else multiset(flat)[c]
  {
    counts := map[];
    var i := 0;
    while i < |flat|
      invariant 0 <= i <= |flat|
      invariant forall c :: Get(counts, c) == if IsDigit(c) then 0 else multiset(flat[..i])[c]
    {
      var ch := flat[i];
      assert flat[..i + 1] == flat[..i] + [ch];
      if !IsDigit(ch) {
        counts := counts[ch := Get(counts, ch) + 1];
      }
      i := i + 1;
    }
    assert flat[..|flat|] == flat;
  }

  /** The `for (const piece in initialPieceCount)` loop. */
  method PushMissing(fen: string, color: Color, counts: map<char, nat>) returns (pushed: seq<char>)
    requires forall c :: Get(counts, c) == Counted(fen, c)
    ensures pushed == Pushed(fen, color, InitialKeys)
  {
    pushed := [];
    var k := 0;
    while k < |InitialKeys|
      invariant 0 <= k <= |InitialKeys|
      invariant pushed == Pushed(fen, color, InitialKeys[..k])
    {
      var piece := InitialKeys[k];
      PushedStep(fen, color, InitialKeys, k);
      if Shown(color, piece) {
        var numCaptured: int := InitialCount(piece) - Get(counts, piece);
        pushed := PushCopies(pushed, piece, numCaptured);
      }
      k := k + 1;
    }
    assert InitialKeys[..|InitialKeys|] == InitialKeys;
  }

  /** One more key handled by the push loop. */
  lemma PushedStep(fen: string, color: Color, keys: seq<char>, k: nat)
    requires k < |keys|
    ensures Pushed(fen, color, keys[..k + 1]) == Pushed(fen, color, keys[..k])
              + (if Shown(color, keys[k]) then Repeat(keys[k], Missing(fen, keys[k])) else [])
  {
    assert keys[..k + 1][..k] == keys[..k];
  }

  /** `for (let i = 0; i < n; i++) captured.push(piece)`: a negative n pushes
      nothing. */
  method PushCopies(pushed: seq<char>, piece: char, n: int) returns (r: seq<char>)
    ensures r == pushed + Repeat(piece, if n >= 0 then n else 0)
  {
    r := pushed;
    var j := 0;
    while j < n
      invariant 0 <= j <= if n >= 0 then n else 0
      invariant r == pushed + Repeat(piece, j)
    {
      assert Repeat(piece, j + 1) == Repeat(piece, j) + [piece];
      r := r + [piece];
      j := j + 1;
    }
  }

  /** CapturedPieces: count the placement's pieces into a dictionary, push
      each missing piece of the shown colour, then sort. */
  method CapturedPieces(fen: string, color: Color) returns (captured: seq<char>)
    ensures captured == Captured(fen, color)
  {
    var flat := WithoutSlashes(Split(fen, ' ')[0]);
    var counts := CountPieces(flat);
    var pushed := PushMissing(fen, color, counts);
    captured := StableSort.Sort(pushed, OrderValue);
  }

  lemma {:induction false} PushedCount(fen: string, color: Color, keys: seq<char>, c: char)
    requires forall i, j :: 0 <= i < j < |keys| ==> keys[i] != keys[j]
    ensures multiset(Pushed(fen, color, keys))[c] == if c in keys && Shown(color, c) then Missing(fen, c) else 0
    decreases |keys|
  {
    if keys != [] {
      var piece := keys[|keys| - 1];
      var front := keys[..|keys| - 1];
      PushedCount(fen, color, front, c);
      assert keys == front + [piece];
      var tail := if Shown(color, piece) then Repeat(piece, Missing(fen, piece)) else [];
      if c == piece {
        assert c !in front;
        if Shown(color, piece) {
          assert multiset(Repeat(piece, Missing(fen, piece)))[c] == Missing(fen, piece) by {
            RepeatCount(piece, Missing(fen, piece));
          }
        }
      } else {
        assert multiset(tail)[c] == 0 by {
          if Shown(color, piece) {
            RepeatCount(piece, Missing(fen, piece));
          }
        }
        assert c in keys <==> c in front;
      }
    }
  }

  lemma {:induction false} RepeatCount(c: char, n: nat)
    ensures multiset(Repeat(c, n))[c] == n && multiset(Repeat(c, n)) == multiset{} [c := n]
    decreases n
  {
    if n > 0 {
      RepeatCount(c, n - 1);
      assert Repeat(c, n) == Repeat(c, n - 1) + [c];
    } else {
      assert Repeat(c, 0) == [];
    }
  }

  /** The starting count less the count on the board, or none if the board
      has at least as many. */
  function Expected(fen: string, color: Color, c: char): nat
  {
    if Tracked(c) && Shown(color, c) && InitialCount(c) > multiset(Placement(fen))[c]
    then InitialCount(c) - multiset(Placement(fen))[c]
    else 0
  }

  lemma PushedExpected(fen: string, color: Color, c: char)
    ensures multiset(Pushed(fen, color, InitialKeys))[c] == Expected(fen, color, c)
  {
    KeysDistinct();
    PushedCount(fen, color, InitialKeys, c);
    TrackedKeys(c);
    if Tracked(c) {
      WithoutSlashesCount(Placement(fen), c);
      assert !IsDigit(c);
      assert Missing(fen, c) == Expected(fen, color, c) || !Shown(color, c);
    }
  }

  /** initialPieceCount has each key once. */
  lemma KeysDistinct()
    ensures forall i, j :: 0 <= i < j < |InitialKeys| ==> InitialKeys[i] != InitialKeys[j]
  {
  }

  /** The tray for `color` holds, of each kind of the opposite colour but the
      king, as many pieces as are missing from the board (none if there are
      at least as many as at the start), and nothing else. */
  lemma CapturedCount(fen: string, color: Color, c: char)
    ensures multiset(Captured(fen, color))[c] == Expected(fen, color, c)
  {
    StableSort.SortPermutes(Pushed(fen, color, InitialKeys), OrderValue);
    PushedExpected(fen, color, c);
  }

  /** The tray is ordered queen, rook, bishop, knight, pawn. */
  lemma CapturedSorted(fen: string, color: Color)
    ensures StableSort.SortedBy(Captured(fen, color), OrderValue)
  {
    StableSort.SortSorted(Pushed(fen, color, InitialKeys), OrderValue);
  }

  /** Kings are never listed. */
  lemma NoKings(fen: string, color: Color)
    ensures 'k' !in Captured(fen, color) && 'K' !in Captured(fen, color)
  {
    CapturedCount(fen, color, 'k');
    CapturedCount(fen, color, 'K');
  }

  // ---------------------------------------------------------------- the component

  datatype Status = InProgress | Check | Checkmate | Stalemate | Drawn

  /** The ChessGame record the engine returns. */
  datatype ChessGame = ChessGame(status: Status, boardFEN: string, updatedBoardFEN: string,
                                 legalMoves: seq<string>, turn: Color, gameEndMessage: Option<string>,
                                 aiMove: Option<string>, moodBoostMessage: string, hint: Option<string>)

  /** A call to the engine: the position and the move played on it (None
      for a new game). */
  datatype Request = Request(fen: string, move: Option<string>)

  datatype Promotion = Promotion(from: string, to: string)

  datatype ChessState = ChessState(game: Option<ChessGame>, isLoading: bool, selected: Option<(Coord, Coord)>,
                                   history: seq<ChessGame>, promotion: Option<Promotion>, requests: seq<Request>)

  /** The piece on a cell of the board read from `fen`; a cell outside it reads as empty. */
  function PieceAt(fen: string, row: Coord, col: Coord): Square
  {
    var board := FenBoard(fen);
    if row < |board| && col < |board[row]| then board[row][col] else None
  }

  /** makeMove's effect: the current game is pushed onto the history, the
      selection and a pending promotion are cleared and the engine is asked
      for the reply. Without a game nothing happens. */
  function AfterMove(st: ChessState, uci: string): ChessState
  {
    match st.game
    case None => st
    case Some(g) =>
      var fen := if g.status == InProgress then g.boardFEN else g.updatedBoardFEN;
      st.(history := st.history + [g], isLoading := true, selected := None, promotion := None,
          requests := st.requests + [Request(fen, Some(uci))])
  }

  class ChessSession {
    var game: Option<ChessGame>
    var isLoading: bool
    var selected: Option<(Coord, Coord)>
    var history: seq<ChessGame>
    var promotion: Option<Promotion>
    /** The calls made to the engine, oldest first. */
    var requests: seq<Request>

    function Snapshot(): ChessState
      reads this
    {
      ChessState(game, isLoading, selected, history, promotion, requests)
    }

    /** A click does nothing while loading, without a game, after the game
        is over, or when it is Black's turn. */
    predicate Blocked()
      reads this
    {
      isLoading || game.None? || (game.value.status != InProgress && game.value.status != Check)
      || game.value.turn != White
    }

    /** Mounting starts a new game. */
    constructor ()
      ensures Snapshot() == ChessState(None, true, None, [], None, [Request(StartFen, None)])
    {
      game, isLoading, selected, history, promotion := None, true, None, [], None;
      requests := [Request(StartFen, None)];
    }

    /** startNewGame, up to the engine's answer. It leaves a pending promotion alone. */
    method StartNewGame()
      modifies this
      ensures Snapshot() == old(Snapshot()).(isLoading := true, game := None, selected := None, history := [],
                                             requests := old(requests) + [Request(StartFen, None)])
    {
      isLoading := true;
      game := None;
      selected := None;
      history := [];
      requests := requests + [Request(StartFen, None)];
    }

    /** The engine's answer to a call arrives. */
    method ReceiveResponse(g: ChessGame)
      modifies this
      ensures Snapshot() == old(Snapshot()).(game := Some(g), isLoading := false)
    {
      game := Some(g);
      isLoading := false;
    }

    method MakeMove(uci: string)
      modifies this
      ensures Snapshot() == AfterMove(old(Snapshot()), uci)
    {
      if game.None? {
        return;
      }
      history := history + [game.value];
      isLoading := true;
      selected := None;
      promotion := None;
      var currentFen := if game.value.status == InProgress then game.value.boardFEN else game.value.updatedBoardFEN;
      requests := requests + [Request(currentFen, Some(uci))];
    }

    /** handleUndo: the last pushed game comes back and is popped. */
    method Undo()
      modifies this
      ensures old(history) == [] ==> Snapshot() == old(Snapshot())
      ensures old(history) != [] ==>
                Snapshot() == old(Snapshot()).(game := Some(old(history)[|old(history)| - 1]),
                                               history := old(history)[..|old(history)| - 1],
                                               selected := None, isLoading := false)
    {
      if |history| == 0 {
        return;
      }
      var lastState := history[|history| - 1];
      game := Some(lastState);
      history := history[..|history| - 1];
      selected := None;
      isLoading := false;
    }

    /** handlePromotionSelect: the pawn move with the chosen piece letter. */
    method PromotionSelect(piece: char)
      requires piece in "qrbn"
      modifies this
      ensures old(promotion).None? ==> Snapshot() == old(Snapshot())
      ensures old(promotion).Some? ==>
                Snapshot() == AfterMove(old(Snapshot()), old(promotion).value.from + old(promotion).value.to + [piece])
    {
      if promotion.Some? {
        var uci := promotion.value.from + promotion.value.to + [piece];
        MakeMove(uci);
      }
    }

    /** handleSquareClick. */
    method SquareClick(row: Coord, col: Coord)
      modifies this
      ensures old(Blocked()) ==> Snapshot() == old(Snapshot())
      ensures !old(Blocked()) && old(selected).None? ==>
                var p := PieceAt(old(game).value.boardFEN, row, col);
                Snapshot() == if p.Some? && p.value == UpperChar(p.value)
                              then old(Snapshot()).(selected := Some((row, col))) else old(Snapshot())
      ensures !old(Blocked()) && old(selected).Some? ==>
                var g := old(game).value;
                var sel := old(selected).value;
                var from := SquareName(sel.0, sel.1);
                var to := SquareName(row, col);
                var uci := from + to;
                Snapshot() == if from == to then old(Snapshot()).(selected := None)
                              else if PieceAt(g.boardFEN, sel.0, sel.1) == Some('P') && sel.0 == 1 && row == 0
                                      && AnyStartsWith(g.legalMoves, uci)
                              then old(Snapshot()).(promotion := Some(Promotion(from, to)))
                              else if AnyStartsWith(g.legalMoves, uci) then AfterMove(old(Snapshot()), uci)
                              else old(Snapshot()).(selected := None)
    {
      if isLoading || game.None? || (game.value.status != InProgress && game.value.status != Check)
         || game.value.turn != White {
        return;
      }
      var squareName := SquareName(row, col);
      if selected.Some? {
        var sel := selected.value;
        var fromSquare := SquareName(sel.0, sel.1);
        if fromSquare == squareName {
          selected := None;
          return;
        }
        var moveUci := fromSquare + squareName;
        var board := FenToBoard(game.value.boardFEN);
        var piece := if sel.0 < |board| && sel.1 < |board[sel.0]| then board[sel.0][sel.1] else None;
        if piece == Some('P') && sel.0 == 1 && row == 0 {
          if AnyStartsWith(game.value.legalMoves, moveUci) {
            promotion := Some(Promotion(fromSquare, squareName));
            return;
          }
        }
        if AnyStartsWith(game.value.legalMoves, moveUci) {
          MakeMove(moveUci);
        } else {
          selected := None;
        }
      } else {
        var board := FenToBoard(game.value.boardFEN);
        var piece := if row < |board| && col < |board[row]| then board[row][col] else None;
        if piece.Some? && piece.value == UpperChar(piece.value) {
          selected := Some((row, col));
        }
      }
    }
  }

  /** Undo takes back exactly the last move: the game and the history are
      as before the move. */
  method MoveThenUndo(s: ChessSession, uci: string)
    requires s.game.Some?
    modifies s
    ensures s.game == old(s.game) && s.history == old(s.history)
    ensures s.selected.None? && !s.isLoading
  {
    s.MakeMove(uci);
    assert s.history == old(s.history) + [old(s.game).value];
    s.Undo();
  }
}
