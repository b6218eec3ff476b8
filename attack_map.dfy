/** King search, attacked squares and check detection (`isKingInCheck`,
    `getThreatenedSquares`), as functions of a board value.

    Pawns "attack" with the move rule of the side to move, straight pushes
    included; this is the source's behaviour and is kept. */
module AttackMap {
  import opened ChessBoard
  import opened MoveRules

  predicate KingAt(b: Board, player: Color, s: Square) {
    At(b, s) == Some(Piece(King, player))
  }

  /** `k` holds a king of `player` and no earlier square of the row-major scan does. */
  ghost predicate FirstKing(b: Board, player: Color, k: Square) {
    KingAt(b, player, k) && forall s :: Index(s) < Index(k) ==> !KingAt(b, player, s)
  }

  /** Wherever a king of `player` stands, a first one exists: descend to an
      earlier king until there is none. */
  lemma {:induction false} FirstKingExists(b: Board, player: Color, k: Square)
    requires KingAt(b, player, k)
    ensures exists f :: FirstKing(b, player, f)
    decreases Index(k)
  {
    if !FirstKing(b, player, k) {
      var s :| Index(s) < Index(k) && KingAt(b, player, s);
      FirstKingExists(b, player, s);
    }
  }

  /** The king the source's first double loop finds: the first one in row-major order. */
  ghost function FindKing(b: Board, player: Color): (r: Option<Square>)
    ensures r.Some? ==> FirstKing(b, player, r.value)
    ensures r.None? <==> forall s :: !KingAt(b, player, s)
  {
    if exists k :: KingAt(b, player, k) then
      var any :| KingAt(b, player, any);
      FirstKingExists(b, player, any);
      var k :| FirstKing(b, player, k);
      Some(k)
    else
      None
  }

  /** A king of `player` with no king of `player` before it in the scan is the one found. */
  lemma FindKingIsFirst(b: Board, player: Color, k: Square)
    requires KingAt(b, player, k)
    requires forall s :: Index(s) < Index(k) ==> !KingAt(b, player, s)
    ensures FindKing(b, player) == Some(k)
  {
    var r := FindKing(b, player);
    assert r.Some?;
    if Index(r.value) < Index(k) {
    } else if Index(k) < Index(r.value) {
    } else {
      IndexInjective(r.value, k);
    }
  }

  /** The king search looks only at which squares hold a king of `player`. */
  lemma FindKingFrame(b1: Board, b2: Board, player: Color)
    requires forall s :: KingAt(b1, player, s) <==> KingAt(b2, player, s)
    ensures FindKing(b1, player) == FindKing(b2, player)
  {
    var r := FindKing(b1, player);
    if r.Some? {
      FindKingIsFirst(b2, player, r.value);
    }
  }

  /** Some piece of the opponent of `player` can reach `t` by `canAttack`. */
  ghost predicate Threatened(b: Board, turn: Color, player: Color, t: Square) {
    exists s :: IsColor(b, s, Opponent(player)) && CanAttack(b, turn, s, t)
  }

  /** `isKingInCheck(player)`: the found king is threatened; with no king the
      source compares against undefined coordinates and every rule fails. */
  ghost predicate InCheck(b: Board, turn: Color, player: Color) {
    match FindKing(b, player)
    case None => false
    case Some(k) => Threatened(b, turn, player, k)
  }

  /** A side without a king is never in check. */
  lemma NoKingNoCheck(b: Board, turn: Color, player: Color)
    requires forall s :: !KingAt(b, player, s)
    ensures !InCheck(b, turn, player)
  {
  }

  /** By the pawn quirk, an enemy pawn threatens the empty square straight
      ahead of it in the mover's direction. */
  lemma PawnPushThreatened(b: Board, turn: Color, player: Color, s: Square, t: Square)
    requires At(b, s) == Some(Piece(Pawn, Opponent(player)))
    requires t.col == s.col && t.row == s.row + Direction(turn) && At(b, t).None?
    ensures Threatened(b, turn, player, t)
  {
    assert CanAttack(b, turn, s, t);
  }

  /** Every enemy rook, bishop, queen and king "threatens" its own square. */
  lemma OwnSquareThreatened(b: Board, turn: Color, player: Color, s: Square)
    requires IsColor(b, s, Opponent(player)) && At(b, s).value.kind in {Rook, Bishop, Queen, King}
    ensures Threatened(b, turn, player, s)
  {
    AttacksOwnSquare(b, turn, s);
  }

  /** In the starting position neither king is in check, whichever side is
      to move: every enemy piece is at least six rows away from the king. */
  lemma InitialNoCheck(turn: Color, player: Color)
    ensures !InCheck(InitialBoard(), turn, player)
  {
    var b := InitialBoard();
    var k := Square(if player == White then 7 else 0, 4);
    InitialLayout(k);
    forall s | Index(s) < Index(k)
      ensures !KingAt(b, player, s)
    {
      InitialLayout(s);
    }
    FindKingIsFirst(b, player, k);
    forall s | IsColor(b, s, Opponent(player))
      ensures !CanAttack(b, turn, s, k)
    {
      InitialLayout(s);
    }
  }
}
