/** The game object: the board array `gameBoard`, mutated in place, and the
    side to move `currentPlayer`. Each method is specified against the
    functions of the pure modules applied to `Position()`, the value of the
    array. */
module GameState {
  import opened ChessBoard
  import opened MoveRules
  import opened AttackMap
  import opened Legality

  class Game {
    var board: array2<Option<Piece>>
    var currentPlayer: Color

    predicate Valid()
      reads this`board
    {
      board.Length0 == 8 && board.Length1 == 8
    }

    /** The contents of the board array as a board value. */
    function Position(): (p: Board)
      reads this`board, board
      requires Valid()
      ensures forall r, c :: 0 <= r < 8 && 0 <= c < 8 ==> p[r][c] == board[r, c]
    {
      var a := board;
      seq(8, r requires 0 <= r < 8 reads a => seq(8, c requires 0 <= c < 8 reads a => a[r, c]))
    }

    /** The script's initial state: the starting layout, White to move. */
    constructor ()
      ensures Valid() && Position() == InitialBoard() && currentPlayer == White
    {
      var init := InitialBoard();
      board := new Option<Piece>[8, 8]((r, c) requires 0 <= r < 8 && 0 <= c < 8 => init[r][c]);
      currentPlayer := White;
      new;
      BoardExt(Position(), InitialBoard());
    }

    /** `resetGame`: a fresh board in the starting layout, White to move. */
    method Reset()
      modifies this
      ensures Valid() && fresh(board)
      ensures Position() == InitialBoard() && currentPlayer == White
    {
      var init := InitialBoard();
      board := new Option<Piece>[8, 8]((r, c) requires 0 <= r < 8 && 0 <= c < 8 => init[r][c]);
      currentPlayer := White;
      BoardExt(Position(), InitialBoard());
    }

    /** The selection guard of the click handler: the square is occupied
        (`square.textContent`) and holds a piece of the side to move. */
    method IsPieceOfCurrentPlayer(s: Square) returns (mine: bool)
      requires Valid()
      ensures mine <==> At(Position(), s).Some? && At(Position(), s).value.color == currentPlayer
    {
      var piece := board[s.row, s.col];
      mine := piece.Some? && piece.value.color == currentPlayer;
    }

    /** `isPathClear`: walk from `from` towards `to` one unit step at a time
        and fail on the first occupied square. */
    method IsPathClear(from: Square, to: Square) returns (clear: bool)
      requires Valid() && Aligned(from, to)
      ensures clear == PathClear(Position(), from, to)
    {
      ghost var b := Position();
      var dx := Sign(to.col - from.col);
      var dy := Sign(to.row - from.row);
      var x := from.col + dx;
      var y := from.row + dy;
      ghost var k := 1;
      ghost var n := Distance(from, to);
      while x != to.col || y != to.row
        invariant 1 <= k && (k <= n || (n == 0 && k == 1 && from == to))
        invariant x == from.col + Step(dx, k) && y == from.row + Step(dy, k)
        invariant forall j :: 0 < j < k && j < n ==> At(b, Between(from, to, j)).None?
        decreases n - k
      {
        WalkArrives(from, to, k);
        var here := Between(from, to, k);
        assert y == here.row && x == here.col;
        if board[y, x].Some? {
          assert At(b, here).Some?;
          return false;
        }
        x := x + dx;
        y := y + dy;
        k := k + 1;
      }
      WalkArrives(from, to, k);
      return true;
    }

    /** The king search of `isKingInCheck`: a row-major scan that stops at
        the first king of `player`; `None` stands for the coordinates left
        undefined when there is none. */
    method FindKingSquare(player: Color) returns (king: Option<Square>)
      requires Valid()
      ensures king == FindKing(Position(), player)
    {
      ghost var b := Position();
      king := None;
      var row := 0;
      while row < 8
        invariant 0 <= row <= 8
        invariant king.None?
        invariant forall s :: Index(s) < row * 8 ==> !KingAt(b, player, s)
        decreases 8 - row
      {
        var col := 0;
        while col < 8
          invariant 0 <= col <= 8
          invariant king.None?
          invariant forall s :: Index(s) < row * 8 + col ==> !KingAt(b, player, s)
          decreases 8 - col
        {
          if board[row, col] == Some(Piece(King, player)) {
            king := Some(Square(row, col));
            FindKingIsFirst(b, player, Square(row, col));
            break;
          }
          col := col + 1;
        }
        if king.Some? {
          break;
        }
        row := row + 1;
      }
    }

    /** `isKingInCheck(player)`: find the first king of `player` in row-major
        order, then ask `canAttack` of every piece of the other colour. */
    method IsKingInCheck(player: Color) returns (inCheck: bool)
      requires Valid()
      ensures inCheck == InCheck(Position(), currentPlayer, player)
    {
      var king := FindKingSquare(player);
      if king.None? {
        // With no king the source compares against undefined coordinates
        // and every branch of canAttack is false.
        return false;
      }
      inCheck := AttackerScan(player, king.value);
    }

    /** The second double loop of `isKingInCheck`: whether some piece of the
        other colour than `player` can reach `king` by `canAttack`. */
    method AttackerScan(player: Color, king: Square) returns (found: bool)
      requires Valid()
      ensures found == Threatened(Position(), currentPlayer, player, king)
    {
      ghost var b := Position();
      var row := 0;
      while row < 8
        invariant 0 <= row <= 8
        invariant forall s {:trigger CanAttack(b, currentPlayer, s, king)} :: Index(s) < row * 8 && IsColor(b, s, Opponent(player)) ==>
                    !CanAttack(b, currentPlayer, s, king)
        decreases 8 - row
      {
        var col := 0;
        while col < 8
          invariant 0 <= col <= 8
          invariant forall s {:trigger CanAttack(b, currentPlayer, s, king)} :: Index(s) < row * 8 + col && IsColor(b, s, Opponent(player)) ==>
                      !CanAttack(b, currentPlayer, s, king)
          decreases 8 - col
        {
          var piece := board[row, col];
          if piece.Some? && piece.value.color == Opponent(player) {
            if CanAttack(Position(), currentPlayer, Square(row, col), king) {
              assert IsColor(b, Square(row, col), Opponent(player));
              return true;
            }
          }
          col := col + 1;
        }
        row := row + 1;
      }
      return false;
    }

    /** The switch on the piece letter in `isValidMove`: the geometry of a
        piece of kind `kind` standing on `from`. */
    method PieceGeometry(kind: Kind, from: Square, to: Square) returns (isValid: bool)
      requires Valid()
      ensures isValid == Geometry(Position(), currentPlayer, kind, from, to)
    {
      var dx := Abs(to.col - from.col);
      var dy := Abs(to.row - from.row);
      isValid := false;
      match kind {
        case Pawn =>
          isValid := PawnMove(Position(), currentPlayer, from, to);
        case Rook =>
          if from.row == to.row || from.col == to.col {
            isValid := IsPathClear(from, to);
          }
        case Knight =>
          isValid := (dx == 1 && dy == 2) || (dx == 2 && dy == 1);
        case Bishop =>
          if dx == dy {
            isValid := IsPathClear(from, to);
          }
        case Queen =>
          if (from.row == to.row || from.col == to.col) || dx == dy {
            isValid := IsPathClear(from, to);
          }
        case King =>
          isValid := dx <= 1 && dy <= 1;
      }
    }

    /** One assignment `gameBoard[row][col] = v`. */
    method SetSquare(s: Square, v: Option<Piece>)
      requires Valid()
      modifies board
      ensures Position() == Place(old(Position()), s, v)
    {
      ghost var before := Position();
      board[s.row, s.col] := v;
      BoardExt(Position(), Place(before, s, v));
    }

    /** `isValidMove`: the destination check, the geometry of the piece, then
        the self-check probe, which makes the move on the board, asks
        `isKingInCheck(currentPlayer)` and undoes the move. The board is left
        exactly as it was on every path. */
    method IsValidMove(from: Square, to: Square) returns (valid: bool)
      requires Valid()
      modifies board
      ensures Position() == old(Position())
      ensures valid == LegalMove(old(Position()), currentPlayer, from, to)
    {
      if board[to.row, to.col].Some? && !IsEnemy(Position(), from, to) {
        return false;
      }
      var piece := board[from.row, from.col];
      if piece.None? {
        return false;
      }
      var isValid := PieceGeometry(piece.value.kind, from, to);
      if isValid {
        ghost var before := Position();
        var originalPiece := board[to.row, to.col];
        SetSquare(to, board[from.row, from.col]);
        SetSquare(from, None);
        var wouldBeInCheck := IsKingInCheck(currentPlayer);
        SetSquare(from, board[to.row, to.col]);
        SetSquare(to, originalPiece);
        ProbeUndo(before, from, to);
        if wouldBeInCheck {
          return false;
        }
      }
      return isValid;
    }

    /** The board effect of `movePiece`: the destination receives the piece,
        the origin is cleared, and a pawn now on row 0 or 7 becomes a queen
        of the side to move. */
    method MovePiece(from: Square, to: Square)
      requires Valid()
      modifies board
      ensures Position() == ApplyMove(old(Position()), currentPlayer, from, to)
    {
      SetSquare(to, board[from.row, from.col]);
      SetSquare(from, None);
      var moved := board[to.row, to.col];
      if moved.Some? && moved.value.kind == Pawn && (to.row == 0 || to.row == 7) {
        var promotionPiece := Piece(Queen, currentPlayer);
        SetSquare(to, Some(promotionPiece));
      }
    }

    /** The second click of the click handler: an accepted move is applied
        and the turn passes to the other side; a rejected move changes
        neither the board nor the side to move. */
    method PlayMove(from: Square, to: Square) returns (moved: bool)
      requires Valid()
      modifies this, board
      ensures Valid() && board == old(board)
      ensures moved == LegalMove(old(Position()), old(currentPlayer), from, to)
      ensures moved ==> Position() == ApplyMove(old(Position()), old(currentPlayer), from, to)
      ensures moved ==> currentPlayer == Opponent(old(currentPlayer))
      ensures moved ==> !InCheck(Position(), old(currentPlayer), old(currentPlayer))
      ensures !moved ==> Position() == old(Position()) && currentPlayer == old(currentPlayer)
    {
      moved := IsValidMove(from, to);
      if moved {
        MovePiece(from, to);
        LegalMoveLeavesKingSafe(old(Position()), currentPlayer, from, to);
        currentPlayer := if currentPlayer == White then Black else White;
      }
    }

    /** The enumeration of `highlightValidMoves`: every destination, in
        row-major order, that `isValidMove` accepts. */
    method LegalMovesFrom(from: Square) returns (moves: seq<Square>)
      requires Valid()
      modifies board
      ensures Position() == old(Position())
      ensures forall s :: s in moves <==> LegalMove(old(Position()), currentPlayer, from, s)
      ensures forall i, j :: 0 <= i < j < |moves| ==> Index(moves[i]) < Index(moves[j])
    {
      moves := [];
      for i := 0 to 8
        invariant Position() == old(Position())
        invariant forall s :: s in moves <==> Index(s) < i * 8 && LegalMove(old(Position()), currentPlayer, from, s)
        invariant forall a :: 0 <= a < |moves| ==> Index(moves[a]) < i * 8
        invariant forall a, b :: 0 <= a < b < |moves| ==> Index(moves[a]) < Index(moves[b])
      {
        for j := 0 to 8
          invariant Position() == old(Position())
          invariant forall s :: s in moves <==> Index(s) < i * 8 + j && LegalMove(old(Position()), currentPlayer, from, s)
          invariant forall a :: 0 <= a < |moves| ==> Index(moves[a]) < i * 8 + j
          invariant forall a, b :: 0 <= a < b < |moves| ==> Index(moves[a]) < Index(moves[b])
        {
          var ok := IsValidMove(from, Square(i, j));
          if ok {
            moves := moves + [Square(i, j)];
          }
          forall s | Index(s) == i * 8 + j
            ensures s == Square(i, j)
          {
            IndexInjective(s, Square(i, j));
          }
        }
      }
    }

    /** `highlightValidMoves`: the destinations `isValidMove` accepts, and
        among them, when the selected piece is a king, those threatened by
        the other side (highlighted as threatened moves, yet still playable). */
    method HighlightValidMoves(from: Square) returns (validMoves: seq<Square>, threatenedMoves: set<Square>)
      requires Valid()
      modifies board
      ensures Position() == old(Position())
      ensures forall s :: s in validMoves <==> LegalMove(old(Position()), currentPlayer, from, s)
      ensures forall s :: s in threatenedMoves <==>
                s in validMoves && At(old(Position()), from).Some? && At(old(Position()), from).value.kind == King
                && Threatened(old(Position()), currentPlayer, currentPlayer, s)
    {
      var piece := board[from.row, from.col];
      var isKing := piece.Some? && piece.value.kind == King;
      var threatenedSquares: set<Square> := {};
      if isKing {
        threatenedSquares := GetThreatenedSquares(currentPlayer);
      }
      validMoves := LegalMovesFrom(from);
      threatenedMoves := set s | s in validMoves && isKing && s in threatenedSquares;
    }

    /** `getThreatenedSquares(player)`: every destination `canAttack` allows
        to some piece of the other colour. */
    method GetThreatenedSquares(player: Color) returns (threatened: set<Square>)
      requires Valid()
      ensures forall t :: t in threatened <==> Threatened(Position(), currentPlayer, player, t)
    {
      ghost var b := Position();
      var opponentColor := Opponent(player);
      threatened := {};
      for row := 0 to 8
        invariant forall t :: t in threatened ==> Threatened(b, currentPlayer, player, t)
        invariant forall s, t :: Index(s) < row * 8 && IsColor(b, s, opponentColor) && CanAttack(b, currentPlayer, s, t)
                    ==> t in threatened
      {
        for col := 0 to 8
          invariant forall t :: t in threatened ==> Threatened(b, currentPlayer, player, t)
          invariant forall s, t :: Index(s) < row * 8 + col && IsColor(b, s, opponentColor) && CanAttack(b, currentPlayer, s, t)
                      ==> t in threatened
        {
          var piece := board[row, col];
          if piece.Some? && piece.value.color == opponentColor {
            var from := Square(row, col);
            for i := 0 to 8
              invariant forall t :: t in threatened ==> Threatened(b, currentPlayer, player, t)
              invariant forall s, t :: Index(s) < row * 8 + col && IsColor(b, s, opponentColor) && CanAttack(b, currentPlayer, s, t)
                          ==> t in threatened
              invariant forall t :: Index(t) < i * 8 && CanAttack(b, currentPlayer, from, t) ==> t in threatened
            {
              for j := 0 to 8
                invariant forall t :: t in threatened ==> Threatened(b, currentPlayer, player, t)
                invariant forall s, t :: Index(s) < row * 8 + col && IsColor(b, s, opponentColor) && CanAttack(b, currentPlayer, s, t)
                            ==> t in threatened
                invariant forall t :: Index(t) < i * 8 + j && CanAttack(b, currentPlayer, from, t) ==> t in threatened
              {
                if CanAttack(Position(), currentPlayer, from, Square(i, j)) {
                  assert IsColor(b, from, opponentColor);
                  threatened := threatened + {Square(i, j)};
                }
                forall t | Index(t) == i * 8 + j
                  ensures t == Square(i, j)
                {
                  IndexInjective(t, Square(i, j));
                }
              }
            }
          }
          forall s | Index(s) == row * 8 + col
            ensures s == Square(row, col)
          {
            IndexInjective(s, Square(row, col));
          }
        }
      }
    }

    /** Whether some piece of the side to move has a legal move: the
        enumeration of `LegalMovesFrom` over every square of that side. */
    method SideHasLegalMove() returns (any: bool)
      requires Valid()
      modifies board
      ensures Position() == old(Position())
      ensures any == HasLegalMove(old(Position()), currentPlayer)
    {
      for i := 0 to 64
        invariant Position() == old(Position())
        invariant forall s, t :: Index(s) < i && IsColor(old(Position()), s, currentPlayer) ==>
                    !LegalMove(old(Position()), currentPlayer, s, t)
      {
        var s := SquareAt(i);
        var mine := IsPieceOfCurrentPlayer(s);
        if mine {
          var moves := LegalMovesFrom(s);
          if |moves| > 0 {
            assert LegalMove(old(Position()), currentPlayer, s, moves[0]);
            return true;
          }
        }
        forall t | Index(t) == i
          ensures t == s
        {
          IndexInjective(t, s);
        }
      }
      return false;
    }

    /** `isCheckmate` as written: a stub that never reports checkmate. */
    method IsCheckmate() returns (mate: bool)
      ensures !mate
    {
      mate := false;
    }

    /** `isStalemate` as written: a stub that never reports stalemate. */
    method IsStalemate() returns (stale: bool)
      ensures !stale
    {
      stale := false;
    }

    /** Extension, not in the source: checkmate of the side to move, in check
        with no legal move. */
    method DetectCheckmate() returns (mate: bool)
      requires Valid()
      modifies board
      ensures Position() == old(Position())
      ensures mate == Checkmate(old(Position()), currentPlayer)
    {
      var inCheck := IsKingInCheck(currentPlayer);
      var any := SideHasLegalMove();
      mate := inCheck && !any;
    }

    /** Extension, not in the source: stalemate of the side to move, not in
        check and no legal move. */
    method DetectStalemate() returns (stale: bool)
      requires Valid()
      modifies board
      ensures Position() == old(Position())
      ensures stale == Stalemate(old(Position()), currentPlayer)
    {
      var inCheck := IsKingInCheck(currentPlayer);
      var any := SideHasLegalMove();
      stale := !inCheck && !any;
    }
  }
}
