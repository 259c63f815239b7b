# Aura Wellness — a verified model of the app's local logic

Aura Wellness is a React app for healthcare workers. It offers stress, sleep,
step and event logs, a burnout score, a chat assistant, peer support, calming
tools and a set of mini-games. Most of its "intelligence" comes from a remote
generative-AI service. This project models the logic that runs locally, one
Dafny module per component or hook:

- the mini-games: Tic-Tac-Toe with its three AI levels, the chess board
  helpers, Memory Match, Sudoku, the mini crossword, the riddle game and
  Colour Weave;
- the record stores: the stress-data hook and the chat history;
- the dashboard rules: the task list and its sorts, the burnout score and its
  bands, and the burnout predictor page;
- the daily statistics and rewards of the gamification panel;
- the tools: the story library, the emotion wheel, the breathing exercise and
  the reframing cards;
- the sign-up checks and the settings page.

Shared modules model the JavaScript built-ins the components rely on:

- `JsString`: trim, case mapping, split, `parseInt`, `substring`, `includes`.
- `JsMath`: `Math.floor(Math.random() * n)`, `Math.round`, `Math.min`.
- `StableSort`: `Array.prototype.sort`, which is stable, as a stable insertion
  sort on a real key.
- `Records`: the record shapes of `types.ts`.
- `Wrappers`: an `Option` type.

Components whose state changes become classes. Their fields are the React
state, and their methods are the event handlers and effects. Pure
computations become functions, and each has lemmas stating what it means.
Randomness, the clock, the calendar, ids and translations are parameters:

- a `rand: real` in [0, 1) stands for `Math.random()`;
- an `Instant` stands for the time now;
- a `local` function stands for the calendar fields of an instant;
- a `t: string -> string` stands for the translation function.

One fact about the model is proved beyond the contracts of its operations:
the TicTacToe AI on Hard never plays a move that lowers the minimax value of
its position (`TicTacToe.HardKeepsValue`). The defects found in the source,
among them a crossword no grid can solve, are listed under Findings below.

## Model

| member | source | states |
|---|---|---|
| TicTacToe.Other | components/tools/minigames/TicTacToe.tsx:52 | the AI's symbol differs from the player's |
| TicTacToe.Line | components/tools/minigames/TicTacToe.tsx:14-18 | every winning line names three cells of the board |
| TicTacToe.WinnerFromMeaning | components/tools/minigames/TicTacToe.tsx:31-39 | the scan from line k reports the first line at or after k whose three cells hold one mark, or nothing when there is none |
| TicTacToe.Winner | components/tools/minigames/TicTacToe.tsx:31-39 | checkWinner: null exactly when no line is complete, otherwise a complete line and its symbol (WinnerMeaning) |
| TicTacToe.WinnerMeaning | components/tools/minigames/TicTacToe.tsx:31-39 | checkWinner is null exactly when no line is complete; otherwise it reports a complete line, with that line's mark as winner |
| TicTacToe.CheckWinner | components/tools/minigames/TicTacToe.tsx:31-39 | the loop with an early return computes the first complete line in table order |
| TicTacToe.EmptyFromMeaning | components/tools/minigames/TicTacToe.tsx:80-82 | the free cells from k on, each once, in increasing order |
| TicTacToe.EmptySquares | components/tools/minigames/TicTacToe.tsx:80-82 | getEmptySquares: exactly the free cells, each once, in increasing order (EmptySquaresMeaning) |
| TicTacToe.EmptySquaresMeaning | components/tools/minigames/TicTacToe.tsx:80-82 | getEmptySquares lists exactly the free cells, in increasing order |
| TicTacToe.FullIffNoEmpty | components/tools/minigames/TicTacToe.tsx:124 | the board is full, the draw test of line 154, exactly when no cell is free |
| TicTacToe.FillShrinksFrom | components/tools/minigames/TicTacToe.tsx:128-131 | marking a free cell at or after k removes exactly one free cell from k on |
| TicTacToe.FillShrinks | components/tools/minigames/TicTacToe.tsx:128-131 | every move removes exactly one free cell, so the minimax recursion terminates |
| TicTacToe.IncreasingBefore | components/tools/minigames/TicTacToe.tsx:80-82 | in the increasing list of free cells, a free cell below the q-th one is among the first q |
| TicTacToe.EmptyBefore | components/tools/minigames/TicTacToe.tsx:80-82 | a free cell below the q-th free cell is one of the first q free cells |
| TicTacToe.FirstWinInMeaning | components/tools/minigames/TicTacToe.tsx:91-100 | the search over a list of cells returns the first one whose filling wins for the symbol |
| TicTacToe.FirstWin | components/tools/minigames/TicTacToe.tsx:91-100 | findWinningMove: none exactly when no free cell wins for the symbol, otherwise the first one that does (FirstWinMeaning) |
| TicTacToe.FirstWinMeaning | components/tools/minigames/TicTacToe.tsx:91-100 | findWinningMove returns the lowest free cell that wins for the symbol, and null exactly when no free cell wins |
| TicTacToe.FindWinningMove | components/tools/minigames/TicTacToe.tsx:91-100 | the loop with an early return computes that lowest winning cell |
| TicTacToe.Moves | components/tools/minigames/TicTacToe.tsx:128-133 | one scored move per free cell |
| TicTacToe.MovesAt | components/tools/minigames/TicTacToe.tsx:128-133 | the q-th scored move is that cell with the minimax value of the board after the mover takes it |
| TicTacToe.ReduceFromFinite | components/tools/minigames/TicTacToe.tsx:135-137 | the reduce keeps the earlier move unless a later one is strictly better, so it ends on the first best move |
| TicTacToe.ReducePicksFirstBest | components/tools/minigames/TicTacToe.tsx:135-137 | with the infinite seed, the reduce returns the first best of the scored moves |
| TicTacToe.Minimax | components/tools/minigames/TicTacToe.tsx:119-138 | minimax: an outcome score (MinimaxRange); the terminal score and no move on a finished board (MinimaxTerminal); otherwise a free cell whose child score no other free cell improves on (MinimaxBest) |
| TicTacToe.MinimaxRange | components/tools/minigames/TicTacToe.tsx:119-138 | every minimax score is -1, 0 or 1 |
| TicTacToe.MinimaxTerminal | components/tools/minigames/TicTacToe.tsx:120-126 | a finished board scores +1 if the AI won, -1 if its opponent won and 0 if drawn, with no index |
| TicTacToe.MinimaxUnfinished | components/tools/minigames/TicTacToe.tsx:128-137 | an unfinished board has free cells, and its value is the reduce over their scored moves |
| TicTacToe.MovesScored | components/tools/minigames/TicTacToe.tsx:128-133 | each scored move carries its cell's child value, and that value is finite |
| TicTacToe.MinimaxChoice | components/tools/minigames/TicTacToe.tsx:135-137 | minimax returns the first best of the scored free cells |
| TicTacToe.NoneBetter | components/tools/minigames/TicTacToe.tsx:135-137 | no free cell scores strictly better than the chosen one |
| TicTacToe.EarlierWorse | components/tools/minigames/TicTacToe.tsx:135-137 | every free cell listed before the chosen one scores strictly worse |
| TicTacToe.MinimaxBest | components/tools/minigames/TicTacToe.tsx:119-139 | on an unfinished board minimax proposes a free cell with the best child value for the mover, and the lowest such cell |
| TicTacToe.HardKeepsValue | components/tools/minigames/TicTacToe.tsx:118-139 | after the Hard move and any reply, the AI's position is worth at least what it was worth before the move |
| TicTacToe.NotLostWhileValueHolds | components/tools/minigames/TicTacToe.tsx:120-123 | a position that minimax values above a loss has not been won by the AI's opponent |
| TicTacToe.ChooseMove | components/tools/minigames/TicTacToe.tsx:102-140 | the move chosen inside the timer callback is the AI's choice for that difficulty |
| TicTacToe.RandomPick | components/tools/minigames/TicTacToe.tsx:103 | the random move: a free cell, none only on a full board (RandomPickLegal) |
| TicTacToe.RandomPickLegal | components/tools/minigames/TicTacToe.tsx:103 | the random pick is a free cell, and there is none only on a full board |
| TicTacToe.MediumLegal | components/tools/minigames/TicTacToe.tsx:104-117 | Medium plays a free cell, and always plays on a board that is not full |
| TicTacToe.HardLegal | components/tools/minigames/TicTacToe.tsx:118-139 | Hard plays a free cell, and always plays on an unfinished board |
| TicTacToe.AiChoice | components/tools/minigames/TicTacToe.tsx:102-140 | the AI's move: a free cell, and some move whenever the board is unfinished (AiChoiceLegal); Medium wins, then blocks, then takes the centre (MediumPriorities); Hard's move keeps the minimax value (HardKeepsValue) |
| TicTacToe.AiChoiceLegal | components/tools/minigames/TicTacToe.tsx:102-140 | at every difficulty the AI plays a free cell, and on an unfinished board it always plays |
| TicTacToe.MediumPriorities | components/tools/minigames/TicTacToe.tsx:104-117 | Medium plays its own lowest winning cell, else blocks the opponent's lowest winning cell, else takes a free centre |
| TicTacToe.Session.constructor | components/tools/minigames/TicTacToe.tsx:43-50 | settings screen, Medium, player X, empty board, zero tally, with no effect pending |
| TicTacToe.Session.SetDifficulty | components/tools/minigames/TicTacToe.tsx:181 | only the difficulty changes |
| TicTacToe.Session.SetPlayerSymbol | components/tools/minigames/TicTacToe.tsx:188-189 | only the player's symbol changes |
| TicTacToe.Session.ResetBoard | components/tools/minigames/TicTacToe.tsx:60-64 | a new empty board with X to move and no result; the phase and the tally are kept |
| TicTacToe.Session.HandleGameStart | components/tools/minigames/TicTacToe.tsx:54-58 | play starts on an empty board with X to move |
| TicTacToe.Session.HandleSettingsChange | components/tools/minigames/TicTacToe.tsx:66-69 | back to the settings screen with all three counters zeroed |
| TicTacToe.Session.HandlePlayerMove | components/tools/minigames/TicTacToe.tsx:71-78 | refused on a taken cell, after a result, out of turn or while the AI thinks; otherwise only that cell takes the player's mark and the turn passes to the AI |
| TicTacToe.Session.MakeAiMove | components/tools/minigames/TicTacToe.tsx:85-150 | only the chosen cell changes, to the AI's mark, and the turn returns to the player |
| TicTacToe.Session.RunEffect | components/tools/minigames/TicTacToe.tsx:152-167 | as written: a win adds one to the winner's counter, a draw adds one to draws, and both end the game, whatever the phase; otherwise the AI moves on its turn in play |
| TicTacToe.Session.PlayAgain | components/tools/minigames/TicTacToe.tsx:60-64 | corrected "Play again": as resetBoard, and the game is put back in play |
| TicTacToe.Session.RunEffectGuarded | components/tools/minigames/TicTacToe.tsx:152-167 | corrected effect: a result is recorded only while the game is in play; outside play nothing changes |
| TicTacToe.EmptyBoardOpen | components/tools/minigames/TicTacToe.tsx:46 | the empty board is neither won nor full |
| TicTacToe.OneMarkOpen | components/tools/minigames/TicTacToe.tsx:71-78 | a board with one mark is neither won nor full |
| TicTacToe.PlayAgainStalls | components/tools/minigames/TicTacToe.tsx:60-64 | as written, after "Play again" and one human move, the AI never answers and nothing is left to run |
| TicTacToe.PlayAgainResumes | components/tools/minigames/TicTacToe.tsx:60-64 | with the corrected reset, the AI answers the human's first move |
| TicTacToe.ResultCountedTwice | components/tools/minigames/TicTacToe.tsx:152-167 | as written, a single win adds two to the player's counter |
| TicTacToe.ResultCountedOnce | components/tools/minigames/TicTacToe.tsx:152-167 | with the guarded effect, the win adds exactly one |
| TicTacToe.SettingsChangeReEnds | components/tools/minigames/TicTacToe.tsx:66-69 | as written, "Change difficulty" after a win ends the game again and counts it twice into the cleared tally |
| TicTacToe.SettingsChangeStays | components/tools/minigames/TicTacToe.tsx:66-69 | with the guarded effect, the settings screen stays with a zero tally |
| MindfulChess.Nulls | components/tools/minigames/MindfulChess.tsx:22-24 | n empty cells |
| MindfulChess.FenToBoard | components/tools/minigames/MindfulChess.tsx:11-30 | the nested push loops build one row per rank of the placement field; a digit d gives d empty cells and any other character one cell |
| MindfulChess.BuildRow | components/tools/minigames/MindfulChess.tsx:16-26 | the loop over one rank builds that rank's row of cells |
| MindfulChess.PushNulls | components/tools/minigames/MindfulChess.tsx:22-24 | the digit loop appends exactly that many empty cells |
| MindfulChess.RowCellsAppend | components/tools/minigames/MindfulChess.tsx:18-26 | the row of a concatenation is the concatenation of the rows |
| MindfulChess.RowLength | components/tools/minigames/MindfulChess.tsx:16-28 | a row has one cell per non-digit character plus the sum of its digits |
| MindfulChess.LetterRow | components/tools/minigames/MindfulChess.tsx:18-20 | a rank without digits gives one occupied cell per character |
| MindfulChess.SplitAt | components/tools/minigames/MindfulChess.tsx:13-14 | splitting at a separator splits off the text before it |
| MindfulChess.SplitNone | components/tools/minigames/MindfulChess.tsx:13-14 | text without the separator splits into itself |
| MindfulChess.SplitJoin | components/tools/minigames/MindfulChess.tsx:14 | splitting a join of separator-free parts gives the parts back |
| MindfulChess.JoinAvoids | components/tools/minigames/MindfulChess.tsx:13 | a join of parts without a character, by a separator other than it, is without it |
| MindfulChess.RanksOfJoin | components/tools/minigames/MindfulChess.tsx:13-14 | the ranks read from a FEN are the separator-free pieces its placement field was joined from |
| MindfulChess.FenBoard | components/tools/minigames/MindfulChess.tsx:11-30 | fenToBoard's board, one row per rank: the method FenToBoard computes it; a rank's row has one cell per letter plus the sum of its digits (RowLength); the start position is 8 by 8 (StartBoard) |
| MindfulChess.StartRows | components/tools/minigames/MindfulChess.tsx:176 | the starting FEN's placement field splits into the eight starting ranks |
| MindfulChess.StartRanksBoard | components/tools/minigames/MindfulChess.tsx:176 | a FEN with the starting ranks gives an 8 by 8 board |
| MindfulChess.StartBoard | components/tools/minigames/MindfulChess.tsx:176 | the starting position gives an 8 by 8 board |
| MindfulChess.SquareName | components/tools/minigames/MindfulChess.tsx:214 | the name is the file letter a+col followed by the rank digit 8-row |
| MindfulChess.ParseSquare | components/tools/minigames/MindfulChess.tsx:114 | a well-formed square name reads back to the square that has that name (ParseSquareRoundTrip, SquareNameInjective) |
| MindfulChess.ParseSquareRoundTrip | components/tools/minigames/MindfulChess.tsx:114 | every well-formed square name is the name of the square it reads as, and reading a name gives its square back |
| MindfulChess.SquareNameInjective | components/tools/minigames/MindfulChess.tsx:114 | different squares have different names |
| MindfulChess.Targets | components/tools/minigames/MindfulChess.tsx:101-103 | possibleMoveSquares: the target of each legal move from the selected square, in move order (TargetsMeaning) |
| MindfulChess.TargetsMeaning | components/tools/minigames/MindfulChess.tsx:101-103 | a square is highlighted exactly when it is characters 2-3 of a legal move that starts with the selected square |
| MindfulChess.TrackedKeys | components/tools/minigames/MindfulChess.tsx:40 | the counted pieces are exactly the ten non-king letters |
| MindfulChess.WithoutSlashesCount | components/tools/minigames/MindfulChess.tsx:43 | removing the slashes keeps the count of every other character |
| MindfulChess.Repeat | components/tools/minigames/MindfulChess.tsx:54-56 | n copies of the piece |
| MindfulChess.CountPieces | components/tools/minigames/MindfulChess.tsx:42-47 | the dictionary counts every non-digit character of the placement field |
| MindfulChess.PushMissing | components/tools/minigames/MindfulChess.tsx:49-58 | the push loop adds, per tracked piece shown to that side, the starting count less the board count; a negative difference adds none |
| MindfulChess.CapturedPieces | components/tools/minigames/MindfulChess.tsx:39-60 | the tray is Captured(fen, color): each non-king piece of the other colour, as many times as its starting count exceeds its count on the board, ordered q, r, b, n, p (CapturedCount, CapturedSorted, NoKings) |
| MindfulChess.PushedCount | components/tools/minigames/MindfulChess.tsx:49-58 | each piece is pushed as many times as it is missing |
| MindfulChess.RepeatCount | components/tools/minigames/MindfulChess.tsx:54-56 | n copies hold the piece n times and nothing else |
| MindfulChess.PushedExpected | components/tools/minigames/MindfulChess.tsx:49-58 | the pushed count of each character is its expected missing count |
| MindfulChess.Captured | components/tools/minigames/MindfulChess.tsx:37-60 | the captured tray: each non-king piece of the other colour as often as its start count exceeds its board count (CapturedCount), ordered q, r, b, n, p (CapturedSorted), never a king (NoKings) |
| MindfulChess.CapturedCount | components/tools/minigames/MindfulChess.tsx:37-60 | the tray holds each opposite-colour non-king piece as often as the starting count exceeds the board count |
| MindfulChess.CapturedSorted | components/tools/minigames/MindfulChess.tsx:60 | the tray is ordered queen, rook, bishop, knight, pawn |
| MindfulChess.NoKings | components/tools/minigames/MindfulChess.tsx:40 | kings are never listed |
| MindfulChess.PieceAt | components/tools/minigames/MindfulChess.tsx:242 | the piece the clicked cell of the board holds; SquareClick's contract reads selections and promotions through it |
| MindfulChess.ChessSession.constructor | components/tools/minigames/MindfulChess.tsx:159-178 | mounting asks the engine for the starting position, with an empty history and no selection |
| MindfulChess.ChessSession.StartNewGame | components/tools/minigames/MindfulChess.tsx:171-179 | loading, no game, no selection, empty history, and one request for the starting position |
| MindfulChess.ChessSession.ReceiveResponse | components/tools/minigames/MindfulChess.tsx:177-192 | the engine's game is installed and loading ends |
| MindfulChess.ChessSession.MakeMove | components/tools/minigames/MindfulChess.tsx:181-193 | without a game nothing happens; otherwise the game is pushed on the history, selection and promotion clear, and the move is sent on the position the status selects |
| MindfulChess.ChessSession.Undo | components/tools/minigames/MindfulChess.tsx:195-202 | no-op on an empty history; otherwise the last pushed game comes back and is popped |
| MindfulChess.ChessSession.PromotionSelect | components/tools/minigames/MindfulChess.tsx:204-209 | with a pending promotion, the move sent is from, to and the piece letter; otherwise nothing |
| MindfulChess.ChessSession.SquareClick | components/tools/minigames/MindfulChess.tsx:211-247 | blocked clicks do nothing; the same square deselects; a white pawn from row 1 to row 0 with a matching legal move opens promotion; a matching move is sent, otherwise the selection clears; with nothing selected only a white piece is selected |
| MindfulChess.MoveThenUndo | components/tools/minigames/MindfulChess.tsx:181-202 | a move followed by undo restores the game and the history |
| MemoryMatch.Shuffle | components/tools/minigames/MemoryMatch.tsx:19-23 | the Fisher–Yates loop permutes the array |
| MemoryMatch.CreateShuffledCards | components/tools/minigames/MemoryMatch.tsx:14-25 | the deck is a permutation of the sixteen fresh cards |
| MemoryMatch.DistinctCount | components/tools/minigames/MemoryMatch.tsx:15-18 | in distinct cards each card occurs at most once |
| MemoryMatch.Twice | components/tools/minigames/MemoryMatch.tsx:15-18 | a card at two positions occurs at least twice in the multiset |
| MemoryMatch.PermutationDistinct | components/tools/minigames/MemoryMatch.tsx:19-23 | a permutation of distinct cards is distinct |
| MemoryMatch.ShuffledDeck | components/tools/minigames/MemoryMatch.tsx:14-25 | a shuffled deck has 16 cards with distinct ids 0..15, icon k on cards 2k and 2k+1, all face down and unmatched |
| MemoryMatch.IconOnTwoCards | components/tools/minigames/MemoryMatch.tsx:14-25 | each icon is on exactly two positions |
| MemoryMatch.MarkPair | components/tools/minigames/MemoryMatch.tsx:46-48 | a match marks cards matched and never unmatches nor flips any |
| MemoryMatch.MarkPairAt | components/tools/minigames/MemoryMatch.tsx:46-48 | with distinct ids, exactly the two positions become matched |
| MemoryMatch.Unflip | components/tools/minigames/MemoryMatch.tsx:54-56 | exactly the two positions turn face down; ids and matches are kept |
| MemoryMatch.Game.constructor | components/tools/minigames/MemoryMatch.tsx:31-35 | a fresh shuffled deck, no face-up cards, zero moves, not over, not checking |
| MemoryMatch.Game.CheckPair | components/tools/minigames/MemoryMatch.tsx:37-63 | with two face up, equal icons mark both matched and clear the list, unequal ones set the timer; either way moves rises by exactly one |
| MemoryMatch.Game.GameOverCheck | components/tools/minigames/MemoryMatch.tsx:65-70 | the game becomes over when every card is matched and the deck is non-empty |
| MemoryMatch.Game.CardClick | components/tools/minigames/MemoryMatch.tsx:72-79 | ignored while checking, on a flipped or matched card, or with two face up; otherwise that card flips and its index is appended; matches are kept |
| MemoryMatch.Game.Flip | components/tools/minigames/MemoryMatch.tsx:77-78 | the clicked card turns face up and its index joins the list; the face-up list stays valid and matches are kept |
| MemoryMatch.Game.TimerFires | components/tools/minigames/MemoryMatch.tsx:53-59 | the oldest timer turns its two cards face down, clears the face-up list and ends checking |
| MemoryMatch.Game.Reset | components/tools/minigames/MemoryMatch.tsx:81-87 | as written: a fresh deck, zero moves, not over, but a pending timer survives; the game is consistent exactly when no timer was pending |
| MemoryMatch.Game.ResetCancelling | components/tools/minigames/MemoryMatch.tsx:81-87 | corrected reset: a fresh deck with no pending timer, always consistent |
| MemoryMatch.FreshNotOver | components/tools/minigames/MemoryMatch.tsx:65-70 | a fresh deck is not a finished game and has no card face up |
| MemoryMatch.StaleTimerStrandsCard | components/tools/minigames/MemoryMatch.tsx:53-59 | as written, a reset during the mismatch wait leaves a newly flipped card face up outside the face-up list |
| Sudoku.Set | components/tools/minigames/Sudoku.tsx:30-31 | only that cell changes |
| Sudoku.Initial | components/tools/minigames/Sudoku.tsx:19 | zeros of the puzzle become empty cells and the givens are kept |
| Sudoku.Solves | components/tools/minigames/Sudoku.tsx:36-47 | checkSolution's test: true exactly when the board equals the solution (SolvesIffSolution) |
| Sudoku.SolvesIffSolution | components/tools/minigames/Sudoku.tsx:36-47 | a board solves the puzzle exactly when it is the solution board |
| Sudoku.RowEmptiesMeaning | components/tools/minigames/Sudoku.tsx:53-57 | the row scan lists exactly that row's empty cells |
| Sudoku.EmptiesMeaning | components/tools/minigames/Sudoku.tsx:52-58 | the scan of the first n rows lists exactly their empty cells |
| Sudoku.EmptyCells | components/tools/minigames/Sudoku.tsx:51-58 | the hint's empty cells: a cell is listed exactly when it holds no digit (EmptyCellsMeaning) |
| Sudoku.EmptyCellsMeaning | components/tools/minigames/Sudoku.tsx:51-58 | the hint's list holds exactly the empty cells |
| Sudoku.RowEmptiesFill | components/tools/minigames/Sudoku.tsx:63 | filling an empty cell removes it from its row's list only |
| Sudoku.EmptiesFill | components/tools/minigames/Sudoku.tsx:63 | filling an empty cell of the first n rows removes one entry |
| Sudoku.FillOneEmpty | components/tools/minigames/Sudoku.tsx:60-65 | a hint leaves exactly one empty cell fewer |
| Sudoku.FullAndRightSolves | components/tools/minigames/Sudoku.tsx:36-47 | a board with no wrong entry and no empty cell is solved |
| Sudoku.Accepted | components/tools/minigames/Sudoku.tsx:28-29 | the empty text clears the cell; other text is accepted exactly when parseInt reads 1..9 |
| Sudoku.DigitAccepted | components/tools/minigames/Sudoku.tsx:28-31 | each digit 1..9 is accepted as itself |
| Sudoku.Game.constructor | components/tools/minigames/Sudoku.tsx:22-24 | the mount effect gives the initial board, unsolved, with the givens |
| Sudoku.Game.InitializeBoard | components/tools/minigames/Sudoku.tsx:17-20 | the initial board again, unsolved |
| Sudoku.Game.InputChange | components/tools/minigames/Sudoku.tsx:26-34 | once solved or for rejected text nothing changes; otherwise only that cell; an editable cell keeps the givens |
| Sudoku.Game.CheckSolution | components/tools/minigames/Sudoku.tsx:36-47 | the alert says correct exactly when every cell equals the solution; only then is the game solved; the board is unchanged |
| Sudoku.Game.CollectEmpty | components/tools/minigames/Sudoku.tsx:51-58 | the nested forEach collects the empty cells row by row |
| Sudoku.Game.ShowHint | components/tools/minigames/Sudoku.tsx:49-66 | unless solved or full, exactly one empty cell, drawn from the list, takes its solution value; no wrong entry appears and givens stay |
| MiniCrosswords.InitialGrid | components/tools/minigames/MiniCrosswords.tsx:35 | open cells hold null and blocked cells hold '' |
| MiniCrosswords.NextFocus | components/tools/minigames/MiniCrosswords.tsx:49-53 | focus moves right when that cell is open, else down when that is open, else nowhere; never without a value |
| MiniCrosswords.Solved | components/tools/minigames/MiniCrosswords.tsx:56-74 | checkSolution's test: every letter in its cell; no grid meets it for the shipped clues (NeverSolved), one does for the corrected down clues (CorrectedSolvable) |
| MiniCrosswords.CodeStemClash | components/tools/minigames/MiniCrosswords.tsx:23-29 | CODE and STEM cannot both be in place |
| MiniCrosswords.RestStemClash | components/tools/minigames/MiniCrosswords.tsx:24-29 | REST and STEM cannot both be in place |
| MiniCrosswords.NeverSolved | components/tools/minigames/MiniCrosswords.tsx:15-31 | no grid solves the shipped clues |
| MiniCrosswords.BlockedCellsBreakAnswers | components/tools/minigames/MiniCrosswords.tsx:28-30 | with '' in the blocked cells, ORE and ET cannot be in place |
| MiniCrosswords.CorrectedSolutionShaped | components/tools/minigames/MiniCrosswords.tsx:15-20 | the corrected solution has the layout's shape and leaves the blocked cells '' |
| MiniCrosswords.CorrectedAcrossFilled | components/tools/minigames/MiniCrosswords.tsx:22-25 | CODE and REST are in place in the corrected solution |
| MiniCrosswords.CorrectedDownFilled | components/tools/minigames/MiniCrosswords.tsx:26-31 | CARE and DISK are in place in the corrected solution |
| MiniCrosswords.CorrectedSolvable | components/tools/minigames/MiniCrosswords.tsx:15-31 | with the corrected down clues some grid of the game's shape, blocked cells '', solves the puzzle |
| MiniCrosswords.Crossword.constructor | components/tools/minigames/MiniCrosswords.tsx:35 | the initial grid |
| MiniCrosswords.Crossword.Initialize | components/tools/minigames/MiniCrosswords.tsx:38-40 | the initial grid again |
| MiniCrosswords.Crossword.InputChange | components/tools/minigames/MiniCrosswords.tsx:42-54 | only that cell changes, to the upper-cased first character ('' for an empty value); focus follows NextFocus |
| MiniCrosswords.Crossword.CheckAcross | components/tools/minigames/MiniCrosswords.tsx:58-64 | the flag stays set exactly when it was set and every letter of the across answer is in its cell |
| MiniCrosswords.Crossword.CheckDown | components/tools/minigames/MiniCrosswords.tsx:65-72 | the flag stays set exactly when it was set and every letter of the down answer is in its cell |
| MiniCrosswords.Crossword.CheckSolution | components/tools/minigames/MiniCrosswords.tsx:56-74 | the flag ends true exactly when every letter of every answer is in its cell |
| Riddle.StripArticle | components/tools/minigames/RiddleMeThis.tsx:53 | the article replace: changes the text exactly when it starts with "a", "an" or "the" and a space (StripArticleChanges) |
| Riddle.ArticleLength | components/tools/minigames/RiddleMeThis.tsx:53 | a match of the article pattern is at most three letters long and white space follows it |
| Riddle.StripArticleChanges | components/tools/minigames/RiddleMeThis.tsx:53 | the replace changes the text exactly when the article pattern matches, that is, when the text starts with a, an or the followed by white space |
| Riddle.TrimStartLower | components/tools/minigames/RiddleMeThis.tsx:53 | trimming the start and lower-casing commute |
| Riddle.TrimEndLower | components/tools/minigames/RiddleMeThis.tsx:53 | trimming the end and lower-casing commute |
| Riddle.TrimLower | components/tools/minigames/RiddleMeThis.tsx:53 | trim and lower-casing commute |
| Riddle.Normalize | components/tools/minigames/RiddleMeThis.tsx:53-55 | normalize: blind to case (NormalizeIgnoresCase) and to padding (NormalizeIgnoresPadding); drops a leading article (NormalizeDropsArticle) but keeps a bare one (BareArticleKept) |
| Riddle.NormalizeIgnoresCase | components/tools/minigames/RiddleMeThis.tsx:53-55 | texts equal once lower-cased normalize alike |
| Riddle.NormalizeUpper | components/tools/minigames/RiddleMeThis.tsx:53-55 | an answer typed in capitals normalizes like the answer |
| Riddle.NormalizeIgnoresPadding | components/tools/minigames/RiddleMeThis.tsx:53-55 | surrounding white space never matters |
| Riddle.ArticleTrimmed | components/tools/minigames/RiddleMeThis.tsx:53 | an article, a space and a trimmed word are already trimmed |
| Riddle.ArticleLower | components/tools/minigames/RiddleMeThis.tsx:53 | an article, a space and a lower-case word are already lower case |
| Riddle.ArticleStripped | components/tools/minigames/RiddleMeThis.tsx:53 | the replace removes the article and the space |
| Riddle.NormalizeDropsArticle | components/tools/minigames/RiddleMeThis.tsx:53 | an article, a space and a trimmed lower-case answer normalize to the answer alone |
| Riddle.BareArticleKept | components/tools/minigames/RiddleMeThis.tsx:53 | a bare "the" or "a" is kept |
| Riddle.Game.constructor | components/tools/minigames/RiddleMeThis.tsx:27-31 | first riddle, empty input, no hints, unanswered, no feedback |
| Riddle.Game.SetInput | components/tools/minigames/RiddleMeThis.tsx:28 | only the input changes |
| Riddle.Game.ShowHint | components/tools/minigames/RiddleMeThis.tsx:37-41 | one more hint while hints remain, never more than the riddle has |
| Riddle.Game.RevealAnswer | components/tools/minigames/RiddleMeThis.tsx:43-47 | answers the riddle and shows "revealed" unless there is no riddle or it was answered |
| Riddle.Game.Submit | components/tools/minigames/RiddleMeThis.tsx:49-62 | ignored for blank input, at the end or once answered; otherwise answered exactly when the normalized texts agree, and a wrong answer sets the clearing timer |
| Riddle.Game.FeedbackTimerFires | components/tools/minigames/RiddleMeThis.tsx:60 | as written: the timer clears whatever feedback is shown |
| Riddle.Game.FeedbackTimerFiresCorrected | components/tools/minigames/RiddleMeThis.tsx:60 | corrected: the timer clears only the "incorrect" feedback it was set for |
| Riddle.Game.NextRiddle | components/tools/minigames/RiddleMeThis.tsx:64-72 | one riddle on, with input, hints, answer and feedback reset, only while the index is below the total |
| Riddle.StaleClearHidesCorrect | components/tools/minigames/RiddleMeThis.tsx:55-61 | as written, a wrong then a right answer within 1.5 s ends answered with the "correct" message wiped |
| Riddle.CorrectedClearKeepsCorrect | components/tools/minigames/RiddleMeThis.tsx:55-61 | with the corrected timer the "correct" message stays |
| ColorWeave.ParametersMeet | components/tools/minigames/ColorWeave.tsx:22-26 | with a non-zero cross product, t and u are where the two lines meet |
| ColorWeave.MeetingUnique | components/tools/minigames/ColorWeave.tsx:22-26 | the lines meet at that pair of parameters only |
| ColorWeave.CheckIntersection | components/tools/minigames/ColorWeave.tsx:18-29 | checkIntersection: true exactly when the segments are not parallel and meet strictly inside both (IntersectionMeaning) |
| ColorWeave.IntersectionMeaning | components/tools/minigames/ColorWeave.tsx:18-29 | the test is true exactly when the segments are not parallel and meet strictly inside both; parallel or collinear segments never cross |
| ColorWeave.Count | components/tools/minigames/ColorWeave.tsx:43-53 | the crossing count: 0 exactly when no pair crosses (CountZero); at most three for three lines (CountOfThree) |
| ColorWeave.CountRowBound | components/tools/minigames/ColorWeave.tsx:46-50 | line i crosses at most the lines after it |
| ColorWeave.CountOfThree | components/tools/minigames/ColorWeave.tsx:43-54 | each unordered pair is looked at once, so three lines cross at most three times |
| ColorWeave.CountZero | components/tools/minigames/ColorWeave.tsx:43-53 | the count is 0 exactly when no pair crosses |
| ColorWeave.CountRowZero | components/tools/minigames/ColorWeave.tsx:46-50 | line i's count is 0 exactly when it crosses no later line |
| ColorWeave.Find | components/tools/minigames/ColorWeave.tsx:39-40 | a found point has that id; none is found only when no point has it |
| ColorWeave.FindById | components/tools/minigames/ColorWeave.tsx:39-40 | the point at a position with a unique id is the one found |
| ColorWeave.FindWellFormed | components/tools/minigames/ColorWeave.tsx:39-40 | with ids 1..6 in order, id k finds the k-th point |
| ColorWeave.Lines | components/tools/minigames/ColorWeave.tsx:38-41 | three segments, joining points 1-2, 3-4 and 5-6 |
| ColorWeave.InitialLinesAre | components/tools/minigames/ColorWeave.tsx:11-16 | the first layout gives two diagonals and a horizontal |
| ColorWeave.DiagonalsCross | components/tools/minigames/ColorWeave.tsx:11-16 | the diagonals cross |
| ColorWeave.HorizontalCrossesFirst | components/tools/minigames/ColorWeave.tsx:11-16 | the horizontal crosses the first diagonal |
| ColorWeave.HorizontalCrossesSecond | components/tools/minigames/ColorWeave.tsx:11-16 | the horizontal crosses the second diagonal |
| ColorWeave.InitialCountIsThree | components/tools/minigames/ColorWeave.tsx:11-16 | the first layout starts with three crossings, so unsolved |
| ColorWeave.MovePoint | components/tools/minigames/ColorWeave.tsx:70-72 | only the dragged point moves |
| ColorWeave.Weave.constructor | components/tools/minigames/ColorWeave.tsx:32-54 | the first layout after the mount effect: three crossings, unsolved, nothing grabbed |
| ColorWeave.Weave.CountIntersections | components/tools/minigames/ColorWeave.tsx:44-51 | the nested loops count the crossing pairs |
| ColorWeave.Weave.PointsChanged | components/tools/minigames/ColorWeave.tsx:43-54 | the count and the solved flag are recomputed from the points |
| ColorWeave.Weave.MouseDown | components/tools/minigames/ColorWeave.tsx:62-65 | grabs the point unless solved |
| ColorWeave.Weave.MouseMove | components/tools/minigames/ColorWeave.tsx:67-73 | only the grabbed point moves and the count is redone; nothing happens with no point grabbed or once solved |
| ColorWeave.Weave.MouseUp | components/tools/minigames/ColorWeave.tsx:75-77 | releases the point |
| ColorWeave.Weave.Reset | components/tools/minigames/ColorWeave.tsx:79-82 | the first layout again and, once the effect has run, three crossings and unsolved |
| ColorWeave.SolvedMeansUntangled | components/tools/minigames/ColorWeave.tsx:53 | solved exactly when no two segments cross |
| TaskList.Toggled | components/dashboard/TaskList.tsx:80-82 | only the task with that id has its completion flipped |
| TaskList.WithPriority | components/dashboard/TaskList.tsx:84-86 | only the task with that id takes the priority |
| TaskList.ToggleTwice | components/dashboard/TaskList.tsx:80-82 | toggling twice restores the list |
| TaskList.ToggleOnlyThatTask | components/dashboard/TaskList.tsx:80-82 | toggling changes only `completed`, and only for that id |
| TaskList.PriorityIdempotent | components/dashboard/TaskList.tsx:84-86 | setting a priority twice is setting it once |
| TaskList.CompareAgreesWithKey | components/dashboard/TaskList.tsx:97-108 | the comparator orders any two tasks as their keys do |
| TaskList.DefaultIsStableByCompletion | components/dashboard/TaskList.tsx:91-95 | the default order is a permutation with incomplete tasks first, each group in list order |
| TaskList.SortedTasks | components/dashboard/TaskList.tsx:88-109 | sortedTasks: a permutation of the tasks (SortedTasksPermutes); by priority, open tasks first and then the chosen priority direction (PrioritySortOrder), stable among equal keys (PrioritySortStable); by default, open tasks first in their old order (DefaultIsStableByCompletion) |
| TaskList.SortedTasksPermutes | components/dashboard/TaskList.tsx:88-109 | every order shows each task exactly once |
| TaskList.PrioritySortOrder | components/dashboard/TaskList.tsx:97-108 | in a priority sort incomplete tasks come first, and within each group the ranks run in the chosen direction |
| TaskList.PrioritySortStable | components/dashboard/TaskList.tsx:97-108 | tasks the comparator ties keep their list order |
| TaskList.Board.constructor | components/dashboard/TaskList.tsx:68-78 | six tasks with ids 1..6 and their texts; only task 2 is completed; default order |
| TaskList.Board.ToggleComplete | components/dashboard/TaskList.tsx:80-82 | the list becomes the toggled list |
| TaskList.Board.PriorityChange | components/dashboard/TaskList.tsx:84-86 | the list becomes the re-prioritised list |
| TaskList.Board.SetSortBy | components/dashboard/TaskList.tsx:116-124 | only the sort order changes |
| BurnoutRisk.Recent | components/dashboard/BurnoutRisk.tsx:18-20 | the window is never longer than the log |
| BurnoutRisk.RecentMembers | components/dashboard/BurnoutRisk.tsx:18-20 | the window holds exactly the logs strictly newer than the cutoff |
| BurnoutRisk.RecentNone | components/dashboard/BurnoutRisk.tsx:18-20 | with no log newer than the cutoff the window is empty |
| BurnoutRisk.RecentAppend | components/dashboard/BurnoutRisk.tsx:18-20 | a new log is in the window exactly when it is newer than the cutoff |
| BurnoutRisk.LowSleepDays | components/dashboard/BurnoutRisk.tsx:29 | at most one per sleep log |
| BurnoutRisk.NoRecentStressScoresZero | components/dashboard/BurnoutRisk.tsx:15-22 | without a stress log in the window the score is 0 |
| BurnoutRisk.SumLevelsBounds | components/dashboard/BurnoutRisk.tsx:25 | levels in [lo, hi] sum to between n·lo and n·hi |
| BurnoutRisk.ComponentBounds | components/dashboard/BurnoutRisk.tsx:25-33 | the parts stay within 50, 30 and 20, the stress part when levels are on the 0-10 scale |
| BurnoutRisk.AverageBounds | components/dashboard/BurnoutRisk.tsx:25-26 | an average of values in [0, hi] is in [0, hi] |
| BurnoutRisk.Score | components/dashboard/BurnoutRisk.tsx:14-37 | calculateBurnoutScore: 0 without a stress log after the cutoff (NoRecentStressScoresZero); at most 100, and at least 0 when no level is negative (ScoreRange); one more recent event never lowers it (EventNeverLowers) |
| BurnoutRisk.ScoreRange | components/dashboard/BurnoutRisk.tsx:35-36 | the score is at most 100, and at least 0 while no level is negative |
| BurnoutRisk.StressComponentNonNegative | components/dashboard/BurnoutRisk.tsx:25-26 | non-negative levels give a non-negative stress part |
| BurnoutRisk.SumLevelsLower | components/dashboard/BurnoutRisk.tsx:25 | non-negative levels have a non-negative sum |
| BurnoutRisk.EventNeverLowers | components/dashboard/BurnoutRisk.tsx:33-36 | one more event log never lowers the score |
| BurnoutRisk.RiskBand | components/dashboard/BurnoutRisk.tsx:41-46 | getRiskInfo: the four bands split the scores at 30, 60 and 80 (BandsPartition) and rise with the score (BandMonotone) |
| BurnoutRisk.BandsPartition | components/dashboard/BurnoutRisk.tsx:41-46 | each band is exactly one interval: below 30, 30-59, 60-79, 80 and above |
| BurnoutRisk.BandMonotone | components/dashboard/BurnoutRisk.tsx:41-46 | a higher score is never in a lower band |
| BurnoutPredictor.FallbackSumsTo100 | components/BurnoutPredictorPage.tsx:84-92 | four fallback factors at 25 each, summing to 100 |
| BurnoutPredictor.Usable | components/BurnoutPredictorPage.tsx:79 | the factor check: present and every name non-empty; an empty list passes (EmptyFactorsUsable) |
| BurnoutPredictor.Shown | components/BurnoutPredictorPage.tsx:79-95 | the risk is kept; usable factors are shown as returned, others replaced by the fallback |
| BurnoutPredictor.EmptyFactorsUsable | components/BurnoutPredictorPage.tsx:79 | an empty factor list passes the check |
| BurnoutPredictor.ShownCorrected | components/BurnoutPredictorPage.tsx:79-95 | with the corrected check the shown factors are never empty |
| BurnoutPredictor.SortedFactors | components/BurnoutPredictorPage.tsx:110 | the chart order: a permutation of the factors by increasing contribution (SortedFactorsAscending) |
| BurnoutPredictor.SortedFactorsAscending | components/BurnoutPredictorPage.tsx:110 | the bars are the factors, each once, in ascending contribution |
| BurnoutPredictor.TopFactor | components/BurnoutPredictorPage.tsx:127 | the top factor of a non-empty list: the earliest one with the largest contribution (TopFactorIsEarliestMax) |
| BurnoutPredictor.ReduceFirstMax | components/BurnoutPredictorPage.tsx:127 | the reduce ends on the seed or the earliest element of greatest contribution, and nothing is greater |
| BurnoutPredictor.TopFactorIsEarliestMax | components/BurnoutPredictorPage.tsx:127 | a non-empty list's top factor is its earliest factor of maximal contribution |
| BurnoutPredictor.ColorOf | components/BurnoutPredictorPage.tsx:108 | getRiskColor: red above 70, amber above 35 up to 70, emerald up to 35 (ColorBands) |
| BurnoutPredictor.ColorBands | components/BurnoutPredictorPage.tsx:108 | red above 70, amber above 35 up to 70, emerald otherwise |
| BurnoutPredictor.Page.constructor | components/BurnoutPredictorPage.tsx:45-55 | the form view with the default form, no result and no error |
| BurnoutPredictor.Page.InputChange | components/BurnoutPredictorPage.tsx:58-60 | only that slider's value changes |
| BurnoutPredictor.Page.Submit | components/BurnoutPredictorPage.tsx:62-99 | as written: -1 sets the error with no result; otherwise the result view shows the checked result or the fallback |
| BurnoutPredictor.Page.SubmitCorrected | components/BurnoutPredictorPage.tsx:62-99 | the same with the corrected check; the result view can always be drawn |
| BurnoutPredictor.Page.Reset | components/BurnoutPredictorPage.tsx:101-105 | back to the form with result and error cleared |
| BurnoutPredictor.EmptyFactorsBreakRender | components/BurnoutPredictorPage.tsx:79 | as written, an answer with no factors reaches the result view with no top factor |
| StressData.Names | hooks/useStressData.ts:92 | the names of the peers, in order |
| StressData.Available | hooks/useStressData.ts:92-93 | exactly the profiles whose name is not yet taken |
| StressData.AvailableFrom | hooks/useStressData.ts:93 | exactly the profiles of the list whose name is not taken |
| StressData.Points | hooks/useStressData.ts:89 | wellnessPoints: one more activity adds its points (PointsAppend); activities worth 10 each total 10 per activity (PointsUniform) |
| StressData.PointsAppend | hooks/useStressData.ts:89 | one more activity adds its points to the total |
| StressData.PointsUniform | hooks/useStressData.ts:89 | activities all worth 10 total 10 per activity |
| StressData.SeedPoints | hooks/initialData.ts:67-69 | the three seed activities total 30 points |
| StressData.DistinctCard | hooks/useStressData.ts:92 | peers with distinct names have as many names as peers |
| StressData.StressStore.constructor | hooks/useStressData.ts:24-31 | the given seed logs, no peers and no chats |
| StressData.StressStore.AddStressLog | hooks/useStressData.ts:33-41 | exactly one stress log is appended |
| StressData.StressStore.AddSleepLog | hooks/useStressData.ts:43-50 | exactly one sleep log is appended |
| StressData.StressStore.AddStepLog | hooks/useStressData.ts:52-59 | exactly one step log is appended |
| StressData.StressStore.AddEventLog | hooks/useStressData.ts:61-68 | exactly one event log is appended |
| StressData.StressStore.AddWellnessActivity | hooks/useStressData.ts:70-78 | one activity worth 10 points is appended, and the points total rises by 10 |
| StressData.StressStore.AddEmotionJournalEntry | hooks/useStressData.ts:80-87 | exactly one journal entry is appended |
| StressData.StressStore.AddPeer | hooks/useStressData.ts:91-117 | no-op when every profile is taken; otherwise one untaken profile is added with a chat of one peer greeting under its id, keeping names unique |
| StressData.StressStore.AddPeerMessage | hooks/useStressData.ts:119-134 | the message is appended to that peer's chat, created if absent; other chats are unchanged |
| StressData.PeersBounded | hooks/useStressData.ts:91-106 | at most five peers |
| StressData.ProfileNamesDistinct | hooks/useStressData.ts:5-11 | the five profile names are distinct |
| StressData.ProfileNamesCard | hooks/useStressData.ts:5-11 | there are five profile names, one per profile |
| StressData.NewNameDistinct | hooks/useStressData.ts:91-106 | a peer under a name not yet taken keeps the names distinct |
| StressData.NoneAvailableIff | hooks/useStressData.ts:95 | adding stops exactly when every profile's name is taken |
| ChatHistory.InitialMessagesAgree | hooks/useChatHistory.ts:4-17 | the seed is two model messages with different ids, stamped in order, the same whenever it is made up to stamps |
| ChatHistory.History.constructor | hooks/useChatHistory.ts:20 | the seed messages |
| ChatHistory.History.AddMessage | hooks/useChatHistory.ts:22-24 | exactly one message is appended |
| ChatHistory.History.ClearHistory | hooks/useChatHistory.ts:26-28 | only a fresh seed is left |
| Gamification.TodaysActivities | components/Gamification.tsx:7-13 | exactly the activities stamped on today's day, month and year |
| Gamification.TodaysAppend | components/Gamification.tsx:50 | a new activity is kept exactly when stamped today |
| Gamification.DailySteps | components/Gamification.tsx:51-53 | todaysSteps: a new log adds its steps exactly when stamped today (DailyStepsAppend) |
| Gamification.DailyStepsAppend | components/Gamification.tsx:51-53 | a new step log adds its steps exactly when stamped today |
| Gamification.ChallengesCompleted | components/Gamification.tsx:55-57 | challengesCompleted: a new activity counts exactly when stamped today and starting with the challenge prefix (ChallengesCompletedAppend) |
| Gamification.ChallengesAppend | components/Gamification.tsx:55-57 | a new activity counts exactly when it starts with the challenge prefix |
| Gamification.RunEnd | components/Gamification.tsx:61 | the end of the digit run: digits up to it, a non-digit at it |
| Gamification.TagFollowsIffOccurs | components/Gamification.tsx:61 | the character-by-character test is the same as finding "-minute" at that place |
| Gamification.MinuteFromNone | components/Gamification.tsx:61-63 | the search from p finds nothing exactly when no digit at or after p stands right before "-minute" |
| Gamification.MinuteFromSome | components/Gamification.tsx:61-63 | a match from p is the value of a whole digit run ending right before the first "-minute" that follows a digit |
| Gamification.MinuteMatch | components/Gamification.tsx:61-63 | the /(\d+)-minute/ match: none exactly when no digit stands right before "-minute", else the whole digit run there (MinuteFromMeaning, MinuteMatchOfTag) |
| Gamification.MinuteFromMeaning | components/Gamification.tsx:61-63 | no match exactly when no digit stands right before "-minute"; a match reads the whole digit run ending at the first such place |
| Gamification.MinuteMatchOfTag | components/Gamification.tsx:61-63 | "N-minute" at the head of the text reads N |
| Gamification.MindfulMinutes | components/Gamification.tsx:59-68 | mindfulMinutes: a new activity adds its minutes exactly when stamped today (MindfulMinutesAppend); an activity adds 0, its matched minutes or 5 (ActivityMinutesCases) |
| Gamification.MindfulMinutesAppend | components/Gamification.tsx:50-68 | a new activity adds its minutes to today's total exactly when stamped today |
| Gamification.ActivityMinutesCases | components/Gamification.tsx:59-68 | activities not mentioning meditation add 0; a meditation adds its matched minutes, or 5 without a match |
| Gamification.Unlocked | components/Gamification.tsx:180 | a reward is unlocked at its points: unlocking is a prefix of the list (UnlockedPrefix) and monotone in the points (UnlockedMonotone) |
| Gamification.ChallengesCompletedAppend | components/Gamification.tsx:50-57 | a new activity adds one completed challenge exactly when stamped today and starting with the challenge prefix |
| Gamification.UnlockedPrefix | components/Gamification.tsx:38-47 | thresholds increase, so an unlocked reward unlocks every earlier one |
| Gamification.UnlockedMonotone | components/Gamification.tsx:180 | more points never lock a reward |
| Gamification.ChallengeStorage.constructor | components/Gamification.tsx:75-81 | the three stored keys as given |
| Gamification.Panel.constructor | components/Gamification.tsx:32-35 | no challenge, loading, not completed, empty step box, on the given activity store and challenge storage |
| Gamification.Panel.LoadChallenge | components/Gamification.tsx:73-95 | a non-empty challenge stored under today's date is shown, completed when stored as completed, and storage is untouched; otherwise the generated challenge is shown, not completed, and stored as today's challenge with the flag 'false' |
| Gamification.Panel.CompleteChallenge | components/Gamification.tsx:97-102 | no-op once completed; otherwise one challenge activity is logged, today's challenge count rises by one and the stored flag becomes 'true' |
| Gamification.Panel.CompleteChallengeWhenLoaded | components/Gamification.tsx:97-102 | the corrected button: refuses while the challenge loads; otherwise completes as handleCompleteChallenge does |
| Gamification.Panel.SetStepsToAdd | components/Gamification.tsx:35 | only the step box changes |
| Gamification.Panel.LogSteps | components/Gamification.tsx:104-111 | a positive parsed number logs one step log and one activity, clears the box, and adds its steps to today's total; anything else changes nothing |
| Gamification.ReloadAfterCompletion | components/Gamification.tsx:73-102 | after a load and a completion, a card mounted later the same day on the same storage shows the same challenge, already completed |
| Gamification.ClickWhileLoading | components/Gamification.tsx:169 | with no challenge stored for today, a click while loading, the load and a second click log two completed challenges on one day |
| Gamification.ClickWhileLoadingGuarded | components/Gamification.tsx:169 | the same clicks with the corrected button log one completed challenge, and the card and the storage end completed |
| CalmTales.Lookup | components/tools/CalmTales.tsx:170 | a category without an entry gives no stories |
| CalmTales.AllStories | components/tools/CalmTales.tsx:163 | Object.values(storyCache).flat(): a new category adds its stories at the end (AllStoriesAppend) |
| CalmTales.AllStoriesAppend | components/tools/CalmTales.tsx:163 | a new cache entry adds its stories at the end of the flattened list |
| CalmTales.LookupAppend | components/tools/CalmTales.tsx:152 | a new entry changes only its own category's lookup |
| CalmTales.Remove | components/tools/CalmTales.tsx:60 | every id but that one is kept |
| CalmTales.ToggleFavorite | components/tools/CalmTales.tsx:58-64 | toggleFavorite: flips the story's membership and no other (ToggleFlips); twice is the identity (ToggleTwice) |
| CalmTales.ToggleFlips | components/tools/CalmTales.tsx:58-64 | the toggle flips that story's membership and no other |
| CalmTales.ToggleTwice | components/tools/CalmTales.tsx:58-64 | toggling twice restores every membership, and the list itself for a story that was not a favourite |
| CalmTales.RemoveAppended | components/tools/CalmTales.tsx:60-62 | removing a just-appended new id gives the list back |
| CalmTales.Filtered | components/tools/CalmTales.tsx:170-185 | filteredStories: the stories of the mood (ByMood), favourites first, each group in its old order (FilteredFavouritesFirst) |
| CalmTales.ByMood | components/tools/CalmTales.tsx:173-175 | 'All' keeps every story; a mood keeps exactly the stories having it |
| CalmTales.FilteredFavouritesFirst | components/tools/CalmTales.tsx:172-185 | the listing is a permutation of the mood-filtered stories: the favourites in their order, then the others in theirs |
| CalmTales.Library.constructor | components/tools/CalmTales.tsx:138-143 | empty cache, loading, first category, mood 'All', no story |
| CalmTales.Library.FetchStories | components/tools/CalmTales.tsx:145-156 | a cached category is not fetched again; a fetch adds only the active category's entry |
| CalmTales.Library.SelectCategory | components/tools/CalmTales.tsx:212 | only the category changes |
| CalmTales.Library.SelectMood | components/tools/CalmTales.tsx:222-224 | only the mood changes |
| CalmTales.Library.SelectStory | components/tools/CalmTales.tsx:158-160 | that story is opened |
| CalmTales.Library.BackToLibrary | components/tools/CalmTales.tsx:190 | the reader closes |
| CalmTales.Library.RandomStory | components/tools/CalmTales.tsx:162-168 | no-op on an empty cache; otherwise the story at the random index of the flattened cache |
| CalmTales.Library.ReaderRandomStory | components/tools/CalmTales.tsx:70-73 | the same pick without a guard: an empty list selects undefined and closes the reader |
| CalmTales.Library.ToggleFavoriteOf | components/tools/CalmTales.tsx:58-64 | the favourites become the toggled list |
| CalmTales.Library.SoundToggle | components/tools/CalmTales.tsx:75-82 | the sound playing stops; any other starts |
| EmotionWheel.SecondaryLabels | components/tools/EmotionWheel.tsx:23-30 | five secondary labels per emotion, four for surprise and disgust |
| EmotionWheel.EmotionData | components/tools/EmotionWheel.tsx:23-30 | keyed by the translated labels of the six emotions |
| EmotionWheel.EmotionDataAt | components/tools/EmotionWheel.tsx:23-30 | with distinct labels, each label maps to its English key and secondary labels |
| EmotionWheel.PrimaryKeyMeaning | components/tools/EmotionWheel.tsx:45 | a known label is logged by its English key, anything else as itself |
| EmotionWheel.Wheel.constructor | components/tools/EmotionWheel.tsx:11-17 | the first step with nothing chosen and intensity 5 |
| EmotionWheel.Wheel.PrimarySelect | components/tools/EmotionWheel.tsx:33-36 | the emotion is kept and the step advances one place |
| EmotionWheel.Wheel.SecondarySelect | components/tools/EmotionWheel.tsx:38-41 | the emotion is kept and the step advances one place |
| EmotionWheel.Wheel.SetIntensity | components/tools/EmotionWheel.tsx:95 | the slider's value 1..10 |
| EmotionWheel.Wheel.Continue | components/tools/EmotionWheel.tsx:99 | the step advances one place, to the notes |
| EmotionWheel.Wheel.SetNotes | components/tools/EmotionWheel.tsx:110 | only the notes change |
| EmotionWheel.Wheel.LogEmotion | components/tools/EmotionWheel.tsx:43-48 | exactly one journal entry is appended, with the primary key, and the step advances to complete |
| EmotionWheel.Wheel.Reset | components/tools/EmotionWheel.tsx:50-56 | back to the first step with empty choices and intensity 5 |
| EmotionWheel.Wheel.Back | components/tools/EmotionWheel.tsx:135 | leaves the tool on the first step; otherwise back to the first step, keeping the choices |
| Interventions.Instructions | components/Interventions.tsx:15 | the instruction lines: each is a line of the content starting with a digit (InstructionLines); a line is kept exactly when it starts with a digit (InstructionIffDigitFirst), in order (KeepInOrder) |
| Interventions.InstructionIffDigitFirst | components/Interventions.tsx:15 | a line is kept exactly when it starts with a digit |
| Interventions.KeepInstructions | components/Interventions.tsx:15 | exactly the instruction lines are kept |
| Interventions.KeepInOrder | components/Interventions.tsx:15 | the filter keeps the lines' order |
| Interventions.InstructionLines | components/Interventions.tsx:15 | every instruction is one line of the text and starts with a digit |
| Interventions.Phase | components/Interventions.tsx:38 | "in" exactly on even steps |
| Interventions.BreathingExercise.constructor | components/Interventions.tsx:11-12 | step 0, not complete |
| Interventions.BreathingExercise.Tick | components/Interventions.tsx:17-27 | without instructions nothing moves; otherwise one step per tick up to the count, and complete on reaching it |
| Interventions.BreathingExercise.ShownWhileRunning | components/Interventions.tsx:40-44 | while running, the line shown is the current step's instruction |
| CognitiveReframing.AfterDraws | components/tools/CognitiveReframing.tsx:43 | the card index after some draws: the start index plus the draw count, modulo the five cards (AfterDrawsIsShift); five draws come back to the start (FiveDrawsReturn) |
| CognitiveReframing.AfterDrawsIsShift | components/tools/CognitiveReframing.tsx:43 | k draws move k places round the five cards |
| CognitiveReframing.FiveDrawsReturn | components/tools/CognitiveReframing.tsx:43 | five draws bring back the starting card |
| CognitiveReframing.Deck.constructor | components/tools/CognitiveReframing.tsx:10-12 | card 0, face down, no text |
| CognitiveReframing.Deck.DrawNewCard | components/tools/CognitiveReframing.tsx:40-44 | the next card modulo 5, unflipped, with the text cleared; the index stays below 5 |
| CognitiveReframing.Deck.Flip | components/tools/CognitiveReframing.tsx:63 | the card is face up |
| CognitiveReframing.Deck.SetReframe | components/tools/CognitiveReframing.tsx:73-75 | only the text changes |
| SignUp.Submit | components/auth/SignUp.tsx:18-38 | handleSubmit: succeeds exactly when every field is filled, the passwords agree and the password has at least 8 characters (SuccessIff); the first failed check names the error (ErrorsInOrder) |
| SignUp.SuccessIff | components/auth/SignUp.tsx:18-38 | success exactly when all four fields are filled, the passwords agree and the password has at least 8 characters |
| SignUp.ErrorsInOrder | components/auth/SignUp.tsx:22-33 | each error exactly when its check is the first to fail |
| SignUp.ErrorEmptyIffSuccess | components/auth/SignUp.tsx:20 | the error is cleared first, so the error shown is empty exactly on success |
| Settings.Put | components/Settings.tsx:99-102 | that reminder is replaced and no other |
| Settings.DefaultsOffered | components/Settings.tsx:23-53 | every default interval is one of its menu's options |
| Settings.Toggle | components/Settings.tsx:98-103 | handleReminderToggle: flips only that reminder's switch (ToggleOnlyThatKey); twice is the identity (ToggleTwice) |
| Settings.ToggleOnlyThatKey | components/Settings.tsx:98-103 | a toggle flips only that reminder's switch, keeping its interval |
| Settings.ToggleTwice | components/Settings.tsx:98-103 | toggling twice is the identity |
| Settings.SetInterval | components/Settings.tsx:105-110 | handleReminderIntervalChange: sets only that reminder's interval (IntervalOnlyThatKey) |
| Settings.IntervalOnlyThatKey | components/Settings.tsx:105-110 | an interval change sets only that reminder's interval, keeping its switch |
| Settings.SetField | components/Settings.tsx:93-96 | handleChatSettingChange: sets only the named field (SetFieldOnlyThatField); a menu choice keeps every field on its menu (ChatChoiceOffered) |
| Settings.ChatOptions | components/Settings.tsx:134-164 | the options of the three chat-setting selects, as ChatDefaultsOffered and ChatChoiceOffered use them |
| Settings.ChatDefaultsOffered | hooks/useChatSettings.ts:4-8 | each default chat setting is an option of its select (Settings.tsx lines 134-164) |
| Settings.ChatChoiceOffered | components/Settings.tsx:127-164 | choosing an option of a select keeps every chat setting on its menu |
| Settings.SetFieldOnlyThatField | components/Settings.tsx:93-96 | a chat-setting change updates only the named field |
| Settings.Panel.constructor | components/Settings.tsx:20 | the given settings, with the collective-mind switch off |
| Settings.Panel.ReminderToggle | components/Settings.tsx:98-103 | the reminders become the toggled settings |
| Settings.Panel.ReminderIntervalChange | components/Settings.tsx:105-110 | the reminders take the new interval |
| Settings.Panel.ChatSettingChange | components/Settings.tsx:93-96 | the chat settings take the new field value |
| Settings.Panel.ToggleCollectiveMind | components/Settings.tsx:214 | the switch flips |
| Settings.Panel.ResetHistory | components/Settings.tsx:55-60 | the conversation goes back to the seed only when confirmed |
| JsString.ToLower | components/tools/minigames/RiddleMeThis.tsx:53 | toLowerCase: same length, each character lowered; lowering is idempotent and undoes upper-casing's case (LowerOfUpper) |
| JsString.LowerOfUpper | components/tools/minigames/RiddleMeThis.tsx:53 | lower-casing forgets an earlier change of case |
| JsString.Trim | components/tools/minigames/RiddleMeThis.tsx:53 | trim: drops the leading and the trailing spaces, as TrimStartShape and TrimEndShape state of its two halves; blind to padding (TrimIgnoresPadding); empty exactly for all-space text (TrimEmptyIffAllSpace) |
| JsString.TrimStartShape | components/tools/minigames/RiddleMeThis.tsx:53 | only leading white space is removed, and the rest does not start with white space |
| JsString.TrimEndShape | components/tools/minigames/RiddleMeThis.tsx:53 | only trailing white space is removed, and the rest does not end with white space |
| JsString.TrimIgnoresPadding | components/tools/minigames/RiddleMeThis.tsx:53 | surrounding white space never matters to trim |
| JsString.TrimEmptyIffAllSpace | components/tools/minigames/RiddleMeThis.tsx:51 | the trimmed text is empty exactly when all of it is white space |
| JsString.StartsWith | components/Gamification.tsx:56 | startsWith: the text begins with the prefix; a challenge activity counts through it (ChallengesCompletedAppend) |
| JsString.Contains | components/Gamification.tsx:60 | includes is true exactly when the part occurs somewhere |
| JsString.Substring | components/tools/minigames/MindfulChess.tsx:102 | both ends are clamped and swapped when reversed |
| JsString.Prefix | components/tools/minigames/MiniCrosswords.tsx:45 | the first n characters, or all of a shorter text |
| JsString.Split | components/Interventions.tsx:15 | at least one piece, even for empty text |
| JsString.SplitPiecesFree | components/Interventions.tsx:15 | no piece holds the separator |
| JsString.JoinSplit | components/Interventions.tsx:15 | joining the pieces back gives the text |
| JsString.SplitFirst | components/tools/minigames/MindfulChess.tsx:13 | the first piece is the text before the first separator |
| JsString.ParseInt | components/Gamification.tsx:105 | parseInt: reads back a written number (ParseIntOfNat), reads a leading digit run up to the first non-digit (ParseIntDigitsThen), ignores text after the digits (ParseIntIgnoresTail), NaN without digits (ParseIntNoDigits) |
| JsString.ParseIntOfNat | components/tools/minigames/Sudoku.tsx:28 | parseInt reads back exactly what a number's decimal text says |
| JsString.ParseIntIgnoresTail | components/Gamification.tsx:63 | text after the digits does not change what parseInt reads |
| JsString.ParseIntDigitsThen | components/Gamification.tsx:63 | a digit run followed by a non-digit reads as the run's value |
| JsString.ParseIntNoDigits | components/Gamification.tsx:105-106 | no digit after the optional sign gives NaN |
| JsMath.PickIndex | components/tools/minigames/TicTacToe.tsx:103 | the random index is below n |
| JsMath.Round | components/dashboard/BurnoutRisk.tsx:35 | the nearest integer, halves upwards |
| JsMath.RoundMonotone | components/dashboard/BurnoutRisk.tsx:35 | rounding never reverses an order |
| JsMath.Min | components/dashboard/BurnoutRisk.tsx:30 | the smaller of the two values |
| StableSort.Sort | components/dashboard/TaskList.tsx:97 | the stable Array.prototype.sort: a permutation (SortPermutes), ordered by key (SortSorted), equal keys in their old order (SortStable) |
| StableSort.SortPermutes | components/dashboard/TaskList.tsx:97 | the sort permutes its input |
| StableSort.SortSorted | components/dashboard/TaskList.tsx:97 | the sort orders its input by key |
| StableSort.SortStable | components/dashboard/TaskList.tsx:97 | elements with equal keys keep their order |
| StableSort.TwoKeySort | components/tools/CalmTales.tsx:178-184 | with two key values, the lower group comes first and the higher after, each in its original order |

## Left out

- The remote AI service: predictions, generated stories, challenges and chess answers are parameters or inputs of the methods that receive them.
- The chess engine's legality: the legal moves are data from the engine's answer.
- Timers: the delays of the AI move, the card flip back, the riddle feedback and breathing ticks are separate steps. Only the riddle and card timers can interleave with other handlers, and those are modelled as pending timers.
- React's scheduling: each handler becomes one atomic step with its setters applied in order. The TicTacToe result effect tracks its dependency values explicitly.
- Loading states in between: the `await` of a request and the loading flag around it are collapsed into the step that applies the answer. For the daily challenge a click can still come while loading: it is a step before the load, which reads only the two keys the click does not write.
- Persistence: localStorage-backed state is in memory, as fields of the objects that stand for it. The challenge card's three keys are a `ChallengeStorage` object that outlives a card, so a later card reads what an earlier one wrote. The reader's and the library's favourites are one shared list.
- Time: the current instant, the seven-day cutoff of the burnout score and the local calendar fields of an instant are parameters. They are not computed from a clock.
- Ids: ids built from the current time are parameters.
- Floating point: numbers are exact reals, and `Math.random()` is a parameter in [0, 1).
- Case mapping: `toLowerCase`/`toUpperCase` map only the ASCII letters.
- Text length: for the sign-up password, text length counts characters, not UTF-16 code units.
- Gamification.Panel.LogSteps: the activity text writes the number without the locale's digit grouping of `toLocaleString`.
- Settings.Panel.ReminderIntervalChange: takes the option's value as a number; `Number(value)` on arbitrary text is not modelled.
- MindfulChess.ChessSession.SquareClick: the row and column are restricted to the 8 by 8 board the component draws.
- Sudoku: the puzzle and its solution are parameters. The `gameData` module is not part of this model.
- MiniCrosswords.Crossword.CheckSolution: a down answer reaching past the last row would throw in the source. The shipped clues never do, and the model reads such a cell as absent.
- EmotionWheel.Wheel: each handler requires the step where the screen offers its button. The source's handlers do not check the step themselves.
- Settings: the data export (a file download) is left out.
- Focus only: DOM focus, scrolling, alerts (their outcome is returned), audio playback and styling are left out.

## Findings

| source | as written | input that shows it | evidently intended | confidence | as-written member | corrected member |
|---|---|---|---|---|---|---|
| components/tools/minigames/TicTacToe.tsx:60-64 | "Play again" (resetBoard) clears the board but leaves the game ended, so the AI never moves again | finish a game, press Play again, click a cell | the new game is back in play and the AI answers | not executed | TicTacToe.PlayAgainStalls | TicTacToe.Session.PlayAgain |
| components/tools/minigames/TicTacToe.tsx:152-167 | the result effect depends on the game state it sets, so it runs again and records the same result a second time | the player completes a row | each finished game is counted once | not executed | TicTacToe.ResultCountedTwice | TicTacToe.Session.RunEffectGuarded |
| components/tools/minigames/TicTacToe.tsx:66-69 | "Change difficulty" after a result re-runs the effect on the finished board, which ends the game again and counts it twice into the cleared tally | win a game, press Change difficulty | the settings screen shows with a zero tally | not executed | TicTacToe.SettingsChangeReEnds | TicTacToe.SettingsChangeStays |
| components/tools/minigames/MemoryMatch.tsx:81-87 | reset does not cancel the pending flip-back timer, which later clears the new game's face-up list | flip two different cards, press Reset within 1 s, flip one card | reset cancels the pending timer | not executed | MemoryMatch.StaleTimerStrandsCard | MemoryMatch.Game.ResetCancelling |
| components/tools/minigames/RiddleMeThis.tsx:60 | the timer set by a wrong answer clears whatever feedback is showing when it fires | a wrong answer, then the right one within 1.5 s | only the "incorrect" message is cleared | not executed | Riddle.StaleClearHidesCorrect | Riddle.Game.FeedbackTimerFiresCorrected |
| components/BurnoutPredictorPage.tsx:79 | an empty factor list passes the check, and the result view (lines 127-129) reads the name of an undefined top factor | an answer with risk 50 and factors [] | an empty list falls back to the default factors | not executed | BurnoutPredictor.EmptyFactorsBreakRender | BurnoutPredictor.Page.SubmitCorrected |
| components/Gamification.tsx:169 | the complete button is disabled only by the completion flag, so it works while the challenge loads, and the load then resets the stored flag to 'false' | no challenge stored for today; click before the challenge arrives, then click again | one completion per daily challenge: the button waits for the load | not executed | Gamification.ClickWhileLoading | Gamification.Panel.CompleteChallengeWhenLoaded |
| components/tools/minigames/MiniCrosswords.tsx:22-31 | the clues disagree on crossing cells (CODE puts D and STEM puts S at row 0, column 2) and ORE and ET run through blocked cells, so no grid solves the puzzle | any grid, e.g. one with every answer typed in | down answers that fit the layout and the across answers, such as CARE and DISK | not executed | MiniCrosswords.NeverSolved | MiniCrosswords.CorrectedSolvable |
