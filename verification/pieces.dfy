/** The two sides and the seven kinds of Janggi piece. */
module Pieces {

  /** The two players. BLUE moves first. */
  datatype Side = Red | Blue

  /** The other side. Flipping the side to move is this function. */
  function Opponent(s: Side): (o: Side)
    ensures o != s
  {
    match s
    case Red => Blue
    case Blue => Red
  }

  datatype Kind = Soldier | Chariot | Horse | Elephant | Cannon | Guard | General

  /** A piece is its kind and its owner; it has no identity beyond the cell it occupies. */
  datatype Piece = Piece(kind: Kind, side: Side)
}
