/** Facts about the opening position. */
module Layout {
  import opened Wrappers
  import opened Pieces
  import opened Board

  /** Every piece there is: seven kinds for each of the two sides. */
  const AllPieces: seq<Piece> := [
    Piece(Soldier, Red), Piece(Chariot, Red), Piece(Horse, Red), Piece(Elephant, Red),
    Piece(Cannon, Red), Piece(Guard, Red), Piece(General, Red),
    Piece(Soldier, Blue), Piece(Chariot, Blue), Piece(Horse, Blue), Piece(Elephant, Blue),
    Piece(Cannon, Blue), Piece(Guard, Blue), Piece(General, Blue)]

  /** The cells of b holding one of the pieces listed in ps. */
  function SquaresOfAny(b: Grid, ps: seq<Piece>): set<Pos> {
    set p | p in b && b[p] in ps
  }

  /** The sum of the counts of the pieces listed in ps. */
  function Tally(b: Grid, ps: seq<Piece>): nat {
    if ps == [] then 0 else Count(b, ps[0]) + Tally(b, ps[1..])
  }

  /** Counting piece by piece over a list without repeats counts each occupied cell once. */
  lemma {:induction false} TallyIsCardinality(b: Grid, ps: seq<Piece>)
    requires forall i, j :: 0 <= i < j < |ps| ==> ps[i] != ps[j]
    ensures |SquaresOfAny(b, ps)| == Tally(b, ps)
  {
    if ps == [] {
      assert SquaresOfAny(b, ps) == {};
    } else {
      var rest := ps[1..];
      TallyIsCardinality(b, rest);
      assert SquaresOfAny(b, ps) == Squares(b, ps[0]) + SquaresOfAny(b, rest) by {
        forall p | p in SquaresOfAny(b, ps) ensures p in Squares(b, ps[0]) + SquaresOfAny(b, rest) {
          if b[p] != ps[0] {
            var i :| 0 <= i < |ps| && ps[i] == b[p];
            assert rest[i - 1] == b[p];
          }
        }
      }
      assert Squares(b, ps[0]) * SquaresOfAny(b, rest) == {} by {
        forall p | p in Squares(b, ps[0]) ensures p !in SquaresOfAny(b, rest) {
        }
      }
    }
  }

  /** The back rank from column 0 to 8: chariot, elephant, horse, guard, (empty), guard, elephant, horse, chariot. */
  function BackRank(col: int): Option<Kind> {
    if col == 0 || col == 8 then Some(Chariot)
    else if col == 1 || col == 6 then Some(Elephant)
    else if col == 2 || col == 7 then Some(Horse)
    else if col == 3 || col == 5 then Some(Guard)
    else None
  }

  /** What starts on a side's rank (0 = its back rank) and column, the same for both sides. */
  function StartKind(rank: int, col: int): Option<Kind> {
    if rank == 0 then BackRank(col)
    else if rank == 1 && col == 4 then Some(General)
    else if rank == 2 && (col == 1 || col == 7) then Some(Cannon)
    else if rank == 3 && col % 2 == 0 then Some(Soldier)
    else None
  }

  /** The opening as a picture: RED in rows 0..4 counting ranks down, BLUE in rows 5..9 counting up. */
  function StartPiece(p: Pos): Cell {
    if !InBoard(p) then None
    else
      var side := if p.row < 5 then Red else Blue;
      var rank := if side == Red then p.row else Rows - 1 - p.row;
      match StartKind(rank, p.col)
      case None => None
      case Some(k) => Some(Piece(k, side))
  }

  /** The opening position is the mirrored picture, cell by cell. */
  lemma InitialAt(p: Pos)
    ensures Get(Initial, p) == StartPiece(p)
  {
    if p.row == 0 { InitialRow(p, 0); }
    else if p.row == 1 { InitialRow(p, 1); }
    else if p.row == 2 { InitialRow(p, 2); }
    else if p.row == 3 { InitialRow(p, 3); }
    else if p.row == 4 { InitialRow(p, 4); }
    else if p.row == 5 { InitialRow(p, 5); }
    else if p.row == 6 { InitialRow(p, 6); }
    else if p.row == 7 { InitialRow(p, 7); }
    else if p.row == 8 { InitialRow(p, 8); }
    else if p.row == 9 { InitialRow(p, 9); }
  }

  lemma InitialRow(p: Pos, r: int)
    requires p.row == r && 0 <= r < Rows
    ensures Get(Initial, p) == StartPiece(p)
  {
    assert p == Pos(r, p.col);
  }

  /** Where the pieces of one kind and side start. */
  function StartSquares(k: Kind, s: Side): set<Pos> {
    var back := if s == Red then 0 else 9;
    var cannons := if s == Red then 2 else 7;
    var soldiers := if s == Red then 3 else 6;
    match k
    case Soldier => {Pos(soldiers, 0), Pos(soldiers, 2), Pos(soldiers, 4), Pos(soldiers, 6), Pos(soldiers, 8)}
    case Cannon => {Pos(cannons, 1), Pos(cannons, 7)}
    case General => {Pos(if s == Red then 1 else 8, 4)}
    case Chariot => {Pos(back, 0), Pos(back, 8)}
    case Elephant => {Pos(back, 1), Pos(back, 6)}
    case Horse => {Pos(back, 2), Pos(back, 7)}
    case Guard => {Pos(back, 3), Pos(back, 5)}
  }

  lemma StartSquaresMatch(p: Pos, k: Kind, s: Side)
    ensures StartPiece(p) == Some(Piece(k, s)) <==> p in StartSquares(k, s)
  {
  }

  /** The squares each piece starts on, read off the opening position. */
  lemma InitialSquares(k: Kind, s: Side)
    ensures Squares(Initial, Piece(k, s)) == StartSquares(k, s)
    ensures Count(Initial, Piece(k, s)) == Complement(k)
  {
    forall p ensures p in Squares(Initial, Piece(k, s)) <==> p in StartSquares(k, s) {
      InitialAt(p);
      StartSquaresMatch(p, k, s);
    }
    StartSquaresSize(k, s);
  }

  lemma StartSquaresSize(k: Kind, s: Side)
    ensures |StartSquares(k, s)| == Complement(k)
  {
    var soldiers := if s == Red then 3 else 6;
    match k
    case Soldier =>
      var q := {Pos(soldiers, 0), Pos(soldiers, 2), Pos(soldiers, 4), Pos(soldiers, 6), Pos(soldiers, 8)};
      assert |q| == 5;
    case General =>
    case _ =>
  }

  /** The total of the standard complements over the pieces listed in ps. */
  function Standard(ps: seq<Piece>): nat {
    if ps == [] then 0 else Complement(ps[0].kind) + Standard(ps[1..])
  }

  lemma EveryPieceListed(pc: Piece)
    ensures pc in AllPieces
  {
    match pc.side
    case Red => {
      match pc.kind
      case Soldier => assert pc == AllPieces[0];
      case Chariot => assert pc == AllPieces[1];
      case Horse => assert pc == AllPieces[2];
      case Elephant => assert pc == AllPieces[3];
      case Cannon => assert pc == AllPieces[4];
      case Guard => assert pc == AllPieces[5];
      case General => assert pc == AllPieces[6];
    }
    case Blue => {
      match pc.kind
      case Soldier => assert pc == AllPieces[7];
      case Chariot => assert pc == AllPieces[8];
      case Horse => assert pc == AllPieces[9];
      case Elephant => assert pc == AllPieces[10];
      case Cannon => assert pc == AllPieces[11];
      case Guard => assert pc == AllPieces[12];
      case General => assert pc == AllPieces[13];
    }
  }

  lemma AllPiecesDistinct()
    ensures forall i, j :: 0 <= i < j < |AllPieces| ==> AllPieces[i] != AllPieces[j]
  {
  }

  lemma StandardTotal()
    ensures Standard(AllPieces) == 32
  {
  }

  lemma {:induction false} TallyOfStandard(b: Grid, ps: seq<Piece>)
    requires forall k: Kind, s: Side :: Count(b, Piece(k, s)) == Complement(k)
    ensures Tally(b, ps) == Standard(ps)
  {
    if ps != [] {
      assert ps[0] == Piece(ps[0].kind, ps[0].side);
      TallyOfStandard(b, ps[1..]);
    }
  }

  /** A board with the standard number of each piece holds 32 pieces. */
  lemma StandardSize(b: Grid)
    requires forall k: Kind, s: Side :: Count(b, Piece(k, s)) == Complement(k)
    ensures |b| == 32
  {
    AllPiecesDistinct();
    StandardTotal();
    TallyIsCardinality(b, AllPieces);
    assert b.Keys == SquaresOfAny(b, AllPieces) by {
      forall p | p in b ensures b[p] in AllPieces {
        EveryPieceListed(b[p]);
      }
    }
    assert |b| == |b.Keys|;
    TallyOfStandard(b, AllPieces);
  }

  lemma InitialCounts()
    ensures forall k: Kind, s: Side :: Count(Initial, Piece(k, s)) == Complement(k)
  {
    forall k: Kind, s: Side ensures Count(Initial, Piece(k, s)) == Complement(k) {
      InitialSquares(k, s);
    }
  }

  /** The opening: every piece on the board, 1 general, 2 guards, horses, elephants, chariots and
      cannons, and 5 soldiers a side, 32 pieces in all. */
  lemma InitialLayout()
    ensures WellFormed(Initial)
    ensures forall k: Kind, s: Side :: Count(Initial, Piece(k, s)) == Complement(k)
    ensures |Initial| == 32
  {
    InitialOnBoard();
    InitialCounts();
    StandardSize(Initial);
  }

  lemma InitialOnBoard()
    ensures WellFormed(Initial)
  {
  }
}
