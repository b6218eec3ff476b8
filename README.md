# Chess rules engine of a browser chess game, in Dafny

The game keeps an 8x8 board `gameBoard` and the side to move `currentPlayer`
as mutable globals. A move is accepted when the destination is empty or holds
an enemy piece, and the piece's geometry allows it. It must also pass a
self-check probe. The probe makes the move on the board, asks
`isKingInCheck(currentPlayer)`, and then undoes the move. An accepted move is
applied by `movePiece`, which promotes a pawn reaching row 0 or 7 to a queen.
Then the turn passes to the other side.

The model has five modules:

- `ChessBoard` (`board.dfy`): pieces, squares, the board as a nested sequence,
  the row-major square order and the starting layout. A square holds
  `Option<Piece>` in place of the source's one-letter strings (upper case
  white, lower case black, `''` empty).
- `MoveRules` (`move_rules.dfy`): `isPathClear`, `isEnemyPiece`,
  `isValidPawnMove` and the per-kind switch shared by `isValidMove` and
  `canAttack`. All of these are functions of a board value and of the side to
  move `turn`.
- `AttackMap` (`attack_map.dfy`): the king search, the threatened squares and
  check detection, as functions.
- `Legality` (`legality.dfy`): the legality filter of `isValidMove`, the board
  effect of `movePiece`, and the lemmas relating them.
- `GameState` (`game.dfy`): class `Game`, whose fields are the board array
  (`array2`, updated in place) and `currentPlayer`. Each method performs the
  source's loops and array writes, and its contract ties it to the functions
  above applied to `Position()`, the value of the array.

Behaviours of the code that the model keeps as written:

- The pawn direction and home row come from the side to move, not from the
  pawn's colour, so when check is computed for White, black pawns "attack"
  with White's direction.
- A pawn's straight push onto an empty square counts as an attack.
- A king can legally step onto a square in the opponent's threatened set
  (`Legality.ThreatenedKingMoveIsLegal`): the straight-push branch that puts
  the square in the set no longer applies once the king stands on it.
- `isCheckmate` and `isStalemate` always return false, and so do
  `GameState.Game.IsCheckmate` and `GameState.Game.IsStalemate`.
  `DetectCheckmate` and `DetectStalemate` are an extension that is not in the
  source: full detection from the side's legal moves.
- A side with no king is never in check: every `canAttack` test against the
  undefined king coordinates fails (`AttackMap.InCheck`,
  `AttackMap.NoKingNoCheck`).

## Model

| member | source | states |
|---|---|---|
| ChessBoard.InitialBoard | js/game.js:10-19 | Defines the starting layout of the board literal and of `resetGame` (lines 342-351): black back rank and pawns on rows 0-1, four empty rows, white pawns and back rank on rows 6-7 |
| MoveRules.PathClear | js/game.js:200-213 | Defines `isPathClear` on aligned squares: every square strictly between them is empty |
| MoveRules.IsEnemy | js/game.js:219-223 | Defines `isEnemyPiece`: both squares occupied, by pieces of different colours |
| MoveRules.EnemyIsOpponent | js/game.js:219-223 | `isEnemyPiece` holds exactly when the destination holds a piece of the origin piece's opponent, and it is symmetric in the two squares |
| MoveRules.PawnMove | js/game.js:126-146 | Defines `isValidPawnMove`, branch for branch, with the direction and home row of the side to move |
| MoveRules.Geometry | js/game.js:80-101 | Defines the per-kind switch shared by `isValidMove` and `canAttack` (lines 182-197): the pawn rule, rook and bishop lines with a clear path, the queen as either, the knight's L, the king's single step |
| MoveRules.CanAttack | js/game.js:177-198 | Defines `canAttack`: the geometry of the piece on the origin; an empty origin attacks nothing |
| AttackMap.Threatened | js/game.js:291-310 | Defines membership in `getThreatenedSquares(player)`: some piece of the other colour reaches the square by `canAttack` |
| AttackMap.InCheck | js/game.js:148-175 | Defines `isKingInCheck(player)`: the first king of `player` in row-major order is threatened; no king means no check |
| Legality.Probe | js/game.js:106-108 | Defines the two writes of the tentative move, which `movePiece` repeats at lines 231-232: the destination receives the origin's contents, then the origin is cleared |
| Legality.Promote | js/game.js:238-241 | Defines promotion: a pawn on row 0 or 7 becomes a queen of the side to move |
| Legality.ApplyMove | js/game.js:231-241 | Defines the board effect of `movePiece`: the two writes, then promotion |
| Legality.LegalMove | js/game.js:68-124 | Defines what `isValidMove` accepts: an occupied origin, an empty or enemy destination, the piece's geometry, and no check of the side to move after the tentative move |
| ChessBoard.InitialLayout | js/game.js:10-19 | Starting layout by square: rows 2-5 are empty exactly, black pieces on rows 0-1, white on rows 6-7, pawns exactly on rows 1 and 6, a king exactly on column 4 of rows 0 and 7 |
| ChessBoard.Place | js/game.js:107-108 | One board assignment: the named square gets the new value and every other square keeps its contents |
| ChessBoard.BoardExt | js/game.js:10-19 | Two boards equal on every square are the same board |
| ChessBoard.SquareAt | js/game.js:152-153 | Step `i` of the source's nested row/column scan visits the square with row-major index `i` |
| MoveRules.Between | js/game.js:200-213 | Every square strictly inside the walk of `isPathClear` differs from both endpoints |
| MoveRules.WalkArrives | js/game.js:203-210 | Unit steps from `from` land on `to` exactly after `Distance(from, to)` steps (or at once when `from == to`), so the loop ends and never leaves the board |
| MoveRules.PathClearSymmetric | js/game.js:200-213 | For aligned squares, the path is clear from `from` to `to` exactly when it is clear from `to` to `from` |
| MoveRules.PawnRule | js/game.js:126-146 | A pawn move is valid exactly in three cases: a single push onto an empty square; a double push from the home row of the side to move, over an empty square onto an empty square; one step diagonally forward onto an enemy. Direction and home row are those of the side to move |
| MoveRules.PawnOntoOccupied | js/game.js:132-144 | Onto an occupied square only the diagonal branch can hold, so a pawn never "attacks" straight ahead onto a piece |
| MoveRules.QueenIsRookOrBishop | js/game.js:84-95 | The queen rule accepts a move exactly when the rook rule or the bishop rule does |
| MoveRules.LeapersIgnoreBoard | js/game.js:87-98 | The knight and king rules do not depend on the board's contents |
| MoveRules.AttacksOwnSquare | js/game.js:185-194 | Rooks, bishops, queens and kings satisfy `canAttack` from their own square onto it |
| MoveRules.CanAttackFrame | js/game.js:177-213 | `canAttack` depends only on the pieces on the two squares and on which other squares are occupied |
| AttackMap.FirstKingExists | js/game.js:152-161 | A side with a king on some square has a first king in row-major order |
| AttackMap.FindKing | js/game.js:149-161 | The king search returns the first king of `player` in row-major order, and returns none exactly when `player` has no king |
| AttackMap.FindKingIsFirst | js/game.js:152-161 | A king with no king of its side before it in the scan is the one found |
| AttackMap.FindKingFrame | js/game.js:152-161 | Boards with kings of `player` on the same squares give the same search result |
| AttackMap.NoKingNoCheck | js/game.js:148-175 | A side without a king is never in check |
| AttackMap.PawnPushThreatened | js/game.js:291-310 | An enemy pawn threatens the empty square straight ahead of it in the mover's direction |
| AttackMap.OwnSquareThreatened | js/game.js:291-310 | Every enemy rook, bishop, queen and king threatens its own square |
| AttackMap.InitialNoCheck | js/game.js:10-19 | In the starting layout neither side is in check, whichever side is to move |
| Legality.ProbeUndo | js/game.js:104-115 | Undoing the probe's two writes as the source does restores the original board for every pair of squares, `from == to` included |
| Legality.ApplyMoveSquares | js/game.js:225-243 | After `movePiece` from one square to another: the origin is empty; the destination holds the moving piece, or a queen of the side to move when a pawn reaches row 0 or 7; every other square is unchanged |
| Legality.ApplyNullMove | js/game.js:231-232 | A move onto its own square empties that square and changes nothing else |
| Legality.NoSelfCapture | js/game.js:73-76 | A destination holding a piece of the mover's colour is never legal |
| Legality.NoNullMove | js/game.js:73-76 | No piece can legally move onto its own square |
| Legality.PromotionKeepsSafety | js/game.js:238-243 | Promotion to a queen of the side to move never puts that side in check |
| Legality.QueenKeepsCheck | js/game.js:238-243 | If the board with the promoted queen has the mover in check, so does the board with the pawn |
| Legality.LegalMoveLeavesKingSafe | js/game.js:103-123 | Any move `isValidMove` accepts, once applied by `movePiece`, leaves the mover's king out of check |
| Legality.ThreatenedKingMoveIsLegal | js/game.js:271-310 | In one concrete position, a king's move to a square in the opponent's threatened set is accepted |
| GameState.Game.Position | js/game.js:10 | The board value holds, square by square, the contents of the board array |
| GameState.Game.constructor | js/game.js:5-19 | Initial state: the starting layout with White to move |
| GameState.Game.Reset | js/game.js:341-355 | `resetGame`: a fresh board in the starting layout with White to move |
| GameState.Game.IsPieceOfCurrentPlayer | js/game.js:53-66 | The selection guard: true exactly when the square holds a piece of the side to move |
| GameState.Game.IsPathClear | js/game.js:200-213 | The stepping loop returns true exactly when every square strictly between two aligned squares is empty |
| GameState.Game.FindKingSquare | js/game.js:149-161 | The nested scan with `break` finds the first king of `player` in row-major order, or none |
| GameState.Game.IsKingInCheck | js/game.js:148-175 | True exactly when the found king is reachable by `canAttack` from a piece of the other colour, with the pawn rule of the side to move; false when there is no king |
| GameState.Game.AttackerScan | js/game.js:163-174 | The second double loop returns true exactly when some piece of the other colour reaches the given king square by `canAttack` |
| GameState.Game.PieceGeometry | js/game.js:78-101 | The per-kind switch of `isValidMove` computes that kind's geometry, calling `isPathClear` only once the squares are aligned |
| GameState.Game.SetSquare | js/game.js:107-108 | One array write changes exactly that square of the board value |
| GameState.Game.IsValidMove | js/game.js:68-124 | Leaves the board exactly as it found it, and accepts exactly the moves satisfying the destination check, the piece's geometry and the self-check probe |
| GameState.Game.MovePiece | js/game.js:225-243 | The new board is the old board with the move applied and a pawn on row 0 or 7 promoted to a queen of the side to move |
| GameState.Game.PlayMove | js/game.js:43-52 | An accepted move applies `movePiece`, passes the turn to the other side and leaves the mover out of check; a rejected move changes neither the board nor the side to move |
| GameState.Game.LegalMovesFrom | js/game.js:271-289 | The 64-square loop over `isValidMove` yields exactly the legal destinations, in row-major order without repeats, and leaves the board unchanged |
| GameState.Game.HighlightValidMoves | js/game.js:271-289 | The highlighted destinations are exactly the legal ones; those marked threatened are exactly the legal destinations of a selected king that the opponent threatens |
| GameState.Game.GetThreatenedSquares | js/game.js:291-310 | The set holds exactly the squares some piece of the other colour can reach by `canAttack` |
| GameState.Game.IsCheckmate | js/game.js:326-329 | The source's stub: never reports checkmate |
| GameState.Game.IsStalemate | js/game.js:331-334 | The source's stub: never reports stalemate |
| GameState.Game.SideHasLegalMove | js/game.js:318-334 | Extension: true exactly when some piece of the side to move has a legal move; the board is unchanged |
| GameState.Game.DetectCheckmate | js/game.js:318-329 | Extension: checkmate of the side to move, in check with no legal move |
| GameState.Game.DetectStalemate | js/game.js:318-334 | Extension: stalemate of the side to move, not in check with no legal move |

## Left out

- Rendering, DOM and events: `createBoard`, `clearHighlights`, the status line, the CSS classes and the click-event wiring are presentation.
- The first click of `handleClick`: setting `selectedPiece` is presentation state. Its guard is `IsPieceOfCurrentPlayer`, and its highlighting is `HighlightValidMoves`.
- `playMoveSound`: audio output.
- `isPieceOfColor` and `canPieceMove`: dead code that nothing calls. `canPieceMove` repeats the switch that `Geometry` models.
- The string encoding of pieces: `''` counting as both colours under `toUpperCase`/`toLowerCase` only matters for empty squares, and the code guards those separately. The model uses `Option<Piece>`.
- `movePiece` takes DOM squares and `parseInt`s their coordinates. The model takes squares directly, with coordinates in 0..7 by type.
- GameState.Game.IsPathClear: requires that the squares are aligned. Every call site checks alignment first, and otherwise the source loop would run off the board.
- Castling, en passant, under-promotion and repetition draws: the source has none of them.
- Checkmate and stalemate detection: the code's detectors are stubs. The full detection is modelled only as the labelled extension.
- The number of legal moves White has in the starting position (twenty) is not proved: evaluating the self-check of every candidate move on the concrete board is too costly.
