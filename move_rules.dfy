/** Per-kind move geometry, path obstruction and the pawn rule.

    Every rule reads the board only. The pawn's direction is taken from the
    side to move (`turn`, the source's global `currentPlayer`), not from the
    pawn's own colour. */
module MoveRules {
  import opened ChessBoard

  function Abs(x: int): (a: nat)
    ensures a == x || a == -x
  {
    if x < 0 then -x else x
  }

  /** `Math.sign` on integers. */
  function Sign(x: int): (s: int)
    ensures s == 0 <==> x == 0
    ensures s == 1 <==> x > 0
    ensures s == -1 <==> x < 0
  {
    if x < 0 then -1 else if x > 0 then 1 else 0
  }

  /** `k` steps of size `s`, for a sign `s` in {-1, 0, 1}. */
  function Step(s: int, k: int): int {
    if s > 0 then k else if s < 0 then -k else 0
  }

  /** `from` and `to` share a row, a column or a diagonal. */
  predicate Aligned(from: Square, to: Square) {
    from.row == to.row || from.col == to.col || Abs(to.row - from.row) == Abs(to.col - from.col)
  }

  /** Number of unit steps from `from` to `to` along their common line. */
  function Distance(from: Square, to: Square): nat {
    var dy := Abs(to.row - from.row);
    var dx := Abs(to.col - from.col);
    if dy < dx then dx else dy
  }

  /** The square `k` unit steps from `from` towards `to`. */
  function Between(from: Square, to: Square, k: int): (s: Square)
    requires Aligned(from, to) && 0 < k < Distance(from, to)
    ensures s != from && s != to
  {
    Square(from.row + Step(Sign(to.row - from.row), k), from.col + Step(Sign(to.col - from.col), k))
  }

  /** Walking `Distance(from, to)` unit steps from `from` arrives at `to`, and no earlier step does. */
  lemma WalkArrives(from: Square, to: Square, k: int)
    requires Aligned(from, to) && 1 <= k
    ensures from.row + Step(Sign(to.row - from.row), k) == to.row && from.col + Step(Sign(to.col - from.col), k) == to.col
            <==> k == Distance(from, to) || from == to
  {
  }

  /** Every square strictly between `from` and `to` is empty. */
  predicate PathClear(b: Board, from: Square, to: Square)
    requires Aligned(from, to)
  {
    forall k :: 0 < k < Distance(from, to) ==> At(b, Between(from, to, k)).None?
  }

  /** The squares strictly between two aligned squares are the same seen from
      either end, so obstruction does not depend on the direction of travel. */
  lemma PathClearSymmetric(b: Board, from: Square, to: Square)
    requires Aligned(from, to)
    ensures Aligned(to, from)
    ensures PathClear(b, from, to) <==> PathClear(b, to, from)
  {
    var n := Distance(from, to);
    assert Distance(to, from) == n;
    forall k | 0 < k < n
      ensures Between(from, to, k) == Between(to, from, n - k)
    {
    }
    if PathClear(b, from, to) {
      forall k | 0 < k < n
        ensures At(b, Between(to, from, k)).None?
      {
        assert Between(to, from, k) == Between(from, to, n - k);
      }
    }
    if PathClear(b, to, from) {
      forall k | 0 < k < n
        ensures At(b, Between(from, to, k)).None?
      {
        assert Between(from, to, k) == Between(to, from, n - k);
      }
    }
  }

  /** `isEnemyPiece`: the destination holds a piece of the other colour. */
  predicate IsEnemy(b: Board, from: Square, to: Square) {
    At(b, from).Some? && At(b, to).Some? && At(b, from).value.color != At(b, to).value.color
  }

  /** An enemy is a piece of the opponent's colour, whichever square is asked about first. */
  lemma EnemyIsOpponent(b: Board, from: Square, to: Square)
    ensures IsEnemy(b, from, to) <==> At(b, from).Some? && IsColor(b, to, Opponent(At(b, from).value.color))
    ensures IsEnemy(b, from, to) <==> IsEnemy(b, to, from)
  {
  }

  function Direction(turn: Color): int {
    if turn == White then -1 else 1
  }

  function HomeRow(turn: Color): Coord {
    if turn == White then 6 else 1
  }

  /** `isValidPawnMove`, with the direction and the home row of the side to move. */
  predicate PawnMove(b: Board, turn: Color, from: Square, to: Square) {
    var dx := Abs(to.col - from.col);
    var dy := to.row - from.row;
    var dir := Direction(turn);
    if dx == 0 && At(b, to).None? then
      dy == dir
      || (dy == 2 * dir && from.row == HomeRow(turn) && At(b, Square(from.row + dir, from.col)).None?)
    else
      dx == 1 && dy == dir && At(b, to).Some? && IsEnemy(b, from, to)
  }

  /** The pawn rule as three separate cases: a single push onto an empty
      square, a double push from the home row over an empty square onto an
      empty square, a diagonal step forward onto an enemy; nothing else. */
  lemma PawnRule(b: Board, turn: Color, from: Square, to: Square)
    ensures PawnMove(b, turn, from, to) <==>
      var dir := Direction(turn);
      || (to.col == from.col && to.row == from.row + dir && At(b, to).None?)
      || (to.col == from.col && to.row == from.row + 2 * dir && from.row == HomeRow(turn)
          && At(b, Square(from.row + dir, from.col)).None? && At(b, to).None?)
      || (Abs(to.col - from.col) == 1 && to.row == from.row + dir && IsEnemy(b, from, to))
  {
  }

  /** On an occupied target (the king's square in check detection) only the
      diagonal branch of the pawn rule can hold. */
  lemma PawnOntoOccupied(b: Board, turn: Color, from: Square, to: Square)
    requires At(b, to).Some?
    ensures PawnMove(b, turn, from, to) <==>
      Abs(to.col - from.col) == 1 && to.row - from.row == Direction(turn) && IsEnemy(b, from, to)
  {
  }

  /** The switch on the piece letter shared by `isValidMove` and `canAttack`. */
  predicate Geometry(b: Board, turn: Color, kind: Kind, from: Square, to: Square) {
    var dx := Abs(to.col - from.col);
    var dy := Abs(to.row - from.row);
    match kind
    case Pawn => PawnMove(b, turn, from, to)
    case Rook => (from.row == to.row || from.col == to.col) && PathClear(b, from, to)
    case Knight => (dx == 1 && dy == 2) || (dx == 2 && dy == 1)
    case Bishop => dx == dy && PathClear(b, from, to)
    case Queen => ((from.row == to.row || from.col == to.col) || dx == dy) && PathClear(b, from, to)
    case King => dx <= 1 && dy <= 1
  }

  /** A queen moves exactly where a rook or a bishop on its square could. */
  lemma QueenIsRookOrBishop(b: Board, turn: Color, from: Square, to: Square)
    ensures Geometry(b, turn, Queen, from, to) <==>
            Geometry(b, turn, Rook, from, to) || Geometry(b, turn, Bishop, from, to)
  {
  }

  /** Knights and kings jump: their geometry does not look at the board at all. */
  lemma LeapersIgnoreBoard(b1: Board, b2: Board, turn: Color, from: Square, to: Square)
    ensures Geometry(b1, turn, Knight, from, to) == Geometry(b2, turn, Knight, from, to)
    ensures Geometry(b1, turn, King, from, to) == Geometry(b2, turn, King, from, to)
  {
  }

  /** `canAttack`: the geometry of whatever piece stands on `from`. */
  predicate CanAttack(b: Board, turn: Color, from: Square, to: Square) {
    match At(b, from)
    case None => false
    case Some(p) => Geometry(b, turn, p.kind, from, to)
  }

  /** Sliding pieces and the king "attack" their own square: the path of
      length zero is clear. */
  lemma AttacksOwnSquare(b: Board, turn: Color, s: Square)
    requires At(b, s).Some? && At(b, s).value.kind in {Rook, Bishop, Queen, King}
    ensures CanAttack(b, turn, s, s)
  {
  }

  /** `canAttack` reads the pieces on `from` and `to` and, elsewhere, only
      whether a square is occupied. */
  lemma CanAttackFrame(b1: Board, b2: Board, turn: Color, from: Square, to: Square)
    requires At(b1, from) == At(b2, from) && At(b1, to) == At(b2, to)
    requires forall s :: At(b1, s).None? <==> At(b2, s).None?
    ensures CanAttack(b1, turn, from, to) <==> CanAttack(b2, turn, from, to)
  {
    if Aligned(from, to) {
      assert PathClear(b1, from, to) <==> PathClear(b2, from, to) by {
        forall k | 0 < k < Distance(from, to)
          ensures At(b1, Between(from, to, k)).None? <==> At(b2, Between(from, to, k)).None?
        {
        }
      }
    }
  }
}
