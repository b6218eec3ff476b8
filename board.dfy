/** The board of the chess engine: pieces, squares and the 8x8 grid.

    The source encodes a square as a one-letter string (upper case white,
    lower case black, '' empty); here a square holds an `Option<Piece>`. */
module ChessBoard {

  datatype Option<+T> = None | Some(value: T)

  datatype Color = White | Black

  datatype Kind = Pawn | Knight | Bishop | Rook | Queen | King

  datatype Piece = Piece(kind: Kind, color: Color)

  /** A row or column index; row 0 is Black's home rank, row 7 White's. */
  type Coord = x: int | 0 <= x < 8

  datatype Square = Square(row: Coord, col: Coord)

  /** Eight rows of eight squares, indexed `b[row][col]` as `gameBoard` is. */
  type Board = b: seq<seq<Option<Piece>>> | |b| == 8 && forall r :: 0 <= r < 8 ==> |b[r]| == 8
    witness seq(8, _ => seq(8, _ => None))

  function Opponent(c: Color): (o: Color)
    ensures o != c
  {
    if c == White then Black else White
  }

  function At(b: Board, s: Square): Option<Piece> {
    b[s.row][s.col]
  }

  predicate IsColor(b: Board, s: Square, c: Color) {
    At(b, s).Some? && At(b, s).value.color == c
  }

  /** One assignment `gameBoard[row][col] = v`. */
  function Place(b: Board, s: Square, v: Option<Piece>): (r: Board)
    ensures At(r, s) == v
    ensures forall t :: t != s ==> At(r, t) == At(b, t)
  {
    b[s.row := b[s.row][s.col := v]]
  }

  /** Position of a square in the row-major scan order of the source's loops. */
  function Index(s: Square): (i: nat)
    ensures i < 64
  {
    s.row * 8 + s.col
  }

  /** The square the row-major scan visits at step `i`. */
  function SquareAt(i: int): (s: Square)
    requires 0 <= i < 64
    ensures Index(s) == i
  {
    Square(i / 8, i % 8)
  }

  lemma IndexInjective(s: Square, t: Square)
    requires Index(s) == Index(t)
    ensures s == t
  {
  }

  /** Two boards that hold the same thing on every square are the same board. */
  lemma {:induction false} BoardExt(a: Board, b: Board)
    requires forall s: Square :: At(a, s) == At(b, s)
    ensures a == b
  {
    forall r | 0 <= r < 8
      ensures a[r] == b[r]
    {
      forall c | 0 <= c < 8
        ensures a[r][c] == b[r][c]
      {
        assert At(a, Square(r, c)) == At(b, Square(r, c));
      }
    }
  }

  function BackRank(c: Color): (rank: seq<Option<Piece>>)
    ensures |rank| == 8
  {
    [Some(Piece(Rook, c)), Some(Piece(Knight, c)), Some(Piece(Bishop, c)), Some(Piece(Queen, c)),
     Some(Piece(King, c)), Some(Piece(Bishop, c)), Some(Piece(Knight, c)), Some(Piece(Rook, c))]
  }

  function PawnRank(c: Color): (rank: seq<Option<Piece>>)
    ensures |rank| == 8
  {
    seq(8, _ => Some(Piece(Pawn, c)))
  }

  function EmptyRank(): (rank: seq<Option<Piece>>)
    ensures |rank| == 8
  {
    seq(8, _ => None)
  }

  /** The layout of the `gameBoard` literal and of `resetGame`. */
  function InitialBoard(): Board {
    [BackRank(Black), PawnRank(Black), EmptyRank(), EmptyRank(),
     EmptyRank(), EmptyRank(), PawnRank(White), BackRank(White)]
  }

  /** The starting position square by square: back ranks on rows 0 and 7,
      pawns on rows 1 and 6, black in the low rows, white in the high rows. */
  lemma InitialLayout(s: Square)
    ensures 2 <= s.row <= 5 <==> At(InitialBoard(), s).None?
    ensures s.row <= 1 ==> IsColor(InitialBoard(), s, Black)
    ensures s.row >= 6 ==> IsColor(InitialBoard(), s, White)
    ensures (s.row == 1 || s.row == 6) <==> At(InitialBoard(), s).Some? && At(InitialBoard(), s).value.kind == Pawn
    ensures At(InitialBoard(), s).Some? && At(InitialBoard(), s).value.kind == King <==> s.col == 4 && (s.row == 0 || s.row == 7)
  {
  }
}
