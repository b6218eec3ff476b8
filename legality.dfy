/** The legality filter of `isValidMove` and the board effect of `movePiece`,
    as functions of a board value and the side to move. */
module Legality {
  import opened ChessBoard
  import opened MoveRules
  import opened AttackMap

  /** The two writes shared by the self-check probe and `movePiece`: the
      destination receives the origin's contents, then the origin is cleared. */
  function Probe(b: Board, from: Square, to: Square): Board {
    Place(Place(b, to, At(b, from)), from, None)
  }

  /** Undoing the probe as `isValidMove` does (the origin takes back what
      the destination holds, then the destination takes back its original
      contents) gives back the board the probe started from, for every pair
      of squares, `from == to` included. */
  lemma ProbeUndo(b: Board, from: Square, to: Square)
    ensures var p := Probe(b, from, to);
            Place(Place(p, from, At(p, to)), to, At(b, to)) == b
  {
    var p := Probe(b, from, to);
    BoardExt(Place(Place(p, from, At(p, to)), to, At(b, to)), b);
  }

  /** A pawn standing on row 0 or row 7 becomes a queen of the side to move. */
  function Promote(b: Board, turn: Color, to: Square): Board {
    match At(b, to)
    case Some(Piece(Pawn, _)) =>
      if to.row == 0 || to.row == 7 then Place(b, to, Some(Piece(Queen, turn))) else b
    case _ => b
  }

  /** The board effect of `movePiece`. */
  function ApplyMove(b: Board, turn: Color, from: Square, to: Square): Board {
    Promote(Probe(b, from, to), turn, to)
  }

  /** `isValidMove`: the origin holds a piece, the destination is empty or
      holds an enemy, the piece's geometry allows the move, and after the
      tentative move the side to move is not in check. */
  ghost predicate LegalMove(b: Board, turn: Color, from: Square, to: Square) {
    match At(b, from)
    case None => false
    case Some(p) =>
      && (At(b, to).None? || IsEnemy(b, from, to))
      && Geometry(b, turn, p.kind, from, to)
      && !InCheck(Probe(b, from, to), turn, turn)
  }

  predicate Promotes(b: Board, from: Square, to: Square) {
    At(b, from).Some? && At(b, from).value.kind == Pawn && (to.row == 0 || to.row == 7)
  }

  /** What `movePiece` does to each square: the destination receives the
      moving piece (a queen of the side to move when a pawn reaches row 0 or
      7), the origin is emptied, every other square keeps its contents. */
  lemma ApplyMoveSquares(b: Board, turn: Color, from: Square, to: Square)
    requires from != to
    ensures At(ApplyMove(b, turn, from, to), from).None?
    ensures At(ApplyMove(b, turn, from, to), to) ==
            if Promotes(b, from, to) then Some(Piece(Queen, turn)) else At(b, from)
    ensures forall s :: s != from && s != to ==> At(ApplyMove(b, turn, from, to), s) == At(b, s)
  {
  }

  /** A move onto the square it starts from empties that square: the write
      to the destination is undone by the clearing of the origin. */
  lemma ApplyNullMove(b: Board, turn: Color, s: Square)
    ensures At(ApplyMove(b, turn, s, s), s).None?
    ensures forall t :: t != s ==> At(ApplyMove(b, turn, s, s), t) == At(b, t)
  {
  }

  /** A destination holding a piece of the mover's colour is never legal. */
  lemma NoSelfCapture(b: Board, turn: Color, from: Square, to: Square, c: Color)
    requires IsColor(b, from, c) && IsColor(b, to, c)
    ensures !LegalMove(b, turn, from, to)
  {
  }

  /** In particular a piece can never "move" onto its own square. */
  lemma NoNullMove(b: Board, turn: Color, s: Square)
    ensures !LegalMove(b, turn, s, s)
  {
  }

  /** Promotion of the mover's pawn cannot put the mover in check: it changes
      neither where the mover's king stands nor which squares are occupied,
      and the new queen is not an enemy piece. */
  lemma PromotionKeepsSafety(b: Board, turn: Color, to: Square)
    ensures InCheck(Promote(b, turn, to), turn, turn) ==> InCheck(b, turn, turn)
  {
    if At(b, to).Some? && At(b, to).value.kind == Pawn && (to.row == 0 || to.row == 7) {
      var a := Place(b, to, Some(Piece(Queen, turn)));
      assert Promote(b, turn, to) == a;
      if InCheck(a, turn, turn) {
        QueenKeepsCheck(b, a, turn, to);
      }
    }
  }

  /** Replacing the mover's pawn by a queen of the side to move, as
      `Promote` does, turns no check of the mover into a non-check. */
  lemma QueenKeepsCheck(b: Board, a: Board, turn: Color, to: Square)
    requires At(b, to).Some? && At(b, to).value.kind == Pawn
    requires a == Place(b, to, Some(Piece(Queen, turn)))
    requires InCheck(a, turn, turn)
    ensures InCheck(b, turn, turn)
  {
    SameKings(b, a, turn, to);
    FindKingFrame(a, b, turn);
    var k := FindKing(a, turn).value;
    var s :| IsColor(a, s, Opponent(turn)) && CanAttack(a, turn, s, k);
    SameAttack(b, a, turn, to, s, k);
  }

  lemma SameKings(b: Board, a: Board, turn: Color, to: Square)
    requires At(b, to).Some? && At(b, to).value.kind == Pawn
    requires a == Place(b, to, Some(Piece(Queen, turn)))
    ensures forall s :: KingAt(a, turn, s) <==> KingAt(b, turn, s)
  {
  }

  lemma SameAttack(b: Board, a: Board, turn: Color, to: Square, s: Square, k: Square)
    requires At(b, to).Some? && At(b, to).value.kind == Pawn
    requires a == Place(b, to, Some(Piece(Queen, turn)))
    requires IsColor(a, s, Opponent(turn)) && CanAttack(a, turn, s, k) && KingAt(a, turn, k)
    ensures IsColor(b, s, Opponent(turn)) && CanAttack(b, turn, s, k)
  {
    CanAttackFrame(a, b, turn, s, k);
  }

  /** Any move `isValidMove` accepts, once applied by `movePiece`, leaves the
      side that made it out of check. */
  lemma LegalMoveLeavesKingSafe(b: Board, turn: Color, from: Square, to: Square)
    requires LegalMove(b, turn, from, to)
    ensures !InCheck(ApplyMove(b, turn, from, to), turn, turn)
  {
    PromotionKeepsSafety(Probe(b, from, to), turn, to);
  }

  /** Some piece of `side` has a legal move. */
  ghost predicate HasLegalMove(b: Board, side: Color) {
    exists from, to :: IsColor(b, from, side) && LegalMove(b, side, from, to)
  }

  /** Checkmate and stalemate of the side to move: not part of the source,
      whose detectors always answer false. */
  ghost predicate Checkmate(b: Board, side: Color) {
    InCheck(b, side, side) && !HasLegalMove(b, side)
  }

  ghost predicate Stalemate(b: Board, side: Color) {
    !InCheck(b, side, side) && !HasLegalMove(b, side)
  }

  function EmptyBoard(): (b: Board)
    ensures forall s :: At(b, s).None?
  {
    seq(8, _ => EmptyRank())
  }

  /** A white king on row 4, column 4 and a black pawn on row 5, column 3,
      White to move. */
  function PushQuirkBoard(): Board {
    Place(Place(EmptyBoard(), Square(4, 4), Some(Piece(King, White))), Square(5, 3), Some(Piece(Pawn, Black)))
  }

  /** A king can legally step onto a square its opponent "threatens": the
      black pawn threatens the empty square in front of it (row 4, column 3)
      through the straight-push branch of the pawn rule, but once the king
      stands there only the diagonal branch applies and the king is safe. */
  lemma ThreatenedKingMoveIsLegal()
    ensures var b := PushQuirkBoard();
            LegalMove(b, White, Square(4, 4), Square(4, 3))
            && Threatened(b, White, White, Square(4, 3))
  {
    var b := PushQuirkBoard();
    var from, to, pawn := Square(4, 4), Square(4, 3), Square(5, 3);
    assert CanAttack(b, White, pawn, to);
    var p := Probe(b, from, to);
    assert KingAt(p, White, to);
    forall s | Index(s) < Index(to)
      ensures !KingAt(p, White, s)
    {
    }
    FindKingIsFirst(p, White, to);
    forall s | IsColor(p, s, Black)
      ensures !CanAttack(p, White, s, to)
    {
      assert s == pawn;
    }
  }
}
