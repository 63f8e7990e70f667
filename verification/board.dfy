/**
  The 10 x 9 board, its two palaces, compass geometry and the opening layout.
  Row 0 is RED's back rank (drawn at the top), row 9 is BLUE's.
 */
module Board {
  import opened Wrappers
  import opened Pieces

  /** A cell coordinate: row 0..9, column 0..8. */
  datatype Pos = Pos(row: int, col: int)

  const Rows: int := 10
  const Cols: int := 9

  predicate InBoard(p: Pos) {
    0 <= p.row < Rows && 0 <= p.col < Cols
  }

  /** The eighteen palace cells in the order the game lists them: BLUE's palace, then RED's. */
  const Fortress: seq<Pos> := [
    Pos(7, 3), Pos(7, 4), Pos(7, 5), Pos(8, 3), Pos(8, 4), Pos(8, 5), Pos(9, 3), Pos(9, 4), Pos(9, 5),
    Pos(2, 3), Pos(2, 4), Pos(2, 5), Pos(1, 3), Pos(1, 4), Pos(1, 5), Pos(0, 3), Pos(0, 4), Pos(0, 5)]

  /** Membership in the palace list, stated as the two 3 x 3 blocks in columns 3..5. */
  predicate InFortress(p: Pos) {
    3 <= p.col <= 5 && (0 <= p.row <= 2 || 7 <= p.row <= 9)
  }

  /** The palace list holds exactly the cells of the two blocks, and they lie on the board. */
  lemma FortressShape(p: Pos)
    ensures p in Fortress <==> InFortress(p)
    ensures InFortress(p) ==> InBoard(p)
  {
    if InFortress(p) {
      assert p == Pos(p.row, p.col);
    }
  }

  /** The region a scan is confined to. */
  datatype Region = WholeBoard | Palace

  predicate InRegion(rg: Region, p: Pos) {
    match rg
    case WholeBoard => InBoard(p)
    case Palace => InFortress(p)
  }

  /** The eight compass directions; N points towards row 0, W towards column 0. */
  datatype Dir = N | S | W | E | NW | NE | SW | SE

  /** The cell k steps from p in direction d. */
  function RayAt(p: Pos, d: Dir, k: int): Pos {
    match d
    case N => Pos(p.row - k, p.col)
    case S => Pos(p.row + k, p.col)
    case W => Pos(p.row, p.col - k)
    case E => Pos(p.row, p.col + k)
    case NW => Pos(p.row - k, p.col - k)
    case NE => Pos(p.row - k, p.col + k)
    case SW => Pos(p.row + k, p.col - k)
    case SE => Pos(p.row + k, p.col + k)
  }

  function Shift(p: Pos, d: Dir): Pos {
    RayAt(p, d, 1)
  }

  /** A cell holds at most one piece; an empty cell is `None`. */
  type Cell = Option<Piece>

  /** The board as the map of its occupied cells: a cell missing from the map is empty. */
  type Grid = map<Pos, Piece>

  function Get(b: Grid, p: Pos): Cell {
    if p in b then Some(b[p]) else None
  }

  /** Writes one cell (a piece, or empty) and leaves every other cell alone. */
  function Put(b: Grid, p: Pos, c: Cell): (r: Grid)
    ensures Get(r, p) == c
    ensures forall q :: q != p ==> Get(r, q) == Get(b, q)
  {
    match c
    case None => b - {p}
    case Some(pc) => b[p := pc]
  }

  /** Every occupied cell lies on the 10 x 9 board. */
  predicate WellFormed(b: Grid) {
    forall p :: p in b ==> InBoard(p)
  }

  /** Two boards that agree on every cell are the same board. */
  lemma GridExt(a: Grid, b: Grid)
    requires forall q :: Get(a, q) == Get(b, q)
    ensures a == b
  {
    assert a.Keys == b.Keys by {
      forall q | q in a ensures q in b {
        assert Get(a, q).Some?;
      }
      forall q | q in b ensures q in a {
        assert Get(b, q).Some?;
      }
    }
    forall q | q in a ensures a[q] == b[q] {
      assert Get(a, q) == Get(b, q);
    }
  }

  /** A cell a piece of `side` may end on: empty, or held by the other side. */
  predicate EmptyOrEnemy(b: Grid, side: Side, q: Pos) {
    Get(b, q).None? || Get(b, q).value.side != side
  }

  /** The opening position: RED on rows 0..3, BLUE on rows 6..9. */
  const Initial: Grid := map[
    Pos(6, 0) := Piece(Soldier, Blue), Pos(6, 2) := Piece(Soldier, Blue), Pos(6, 4) := Piece(Soldier, Blue),
    Pos(6, 6) := Piece(Soldier, Blue), Pos(6, 8) := Piece(Soldier, Blue),
    Pos(3, 0) := Piece(Soldier, Red), Pos(3, 2) := Piece(Soldier, Red), Pos(3, 4) := Piece(Soldier, Red),
    Pos(3, 6) := Piece(Soldier, Red), Pos(3, 8) := Piece(Soldier, Red),
    Pos(7, 1) := Piece(Cannon, Blue), Pos(7, 7) := Piece(Cannon, Blue),
    Pos(2, 1) := Piece(Cannon, Red), Pos(2, 7) := Piece(Cannon, Red),
    Pos(8, 4) := Piece(General, Blue), Pos(1, 4) := Piece(General, Red),
    Pos(9, 0) := Piece(Chariot, Blue), Pos(9, 8) := Piece(Chariot, Blue),
    Pos(0, 0) := Piece(Chariot, Red), Pos(0, 8) := Piece(Chariot, Red),
    Pos(9, 1) := Piece(Elephant, Blue), Pos(9, 6) := Piece(Elephant, Blue),
    Pos(0, 1) := Piece(Elephant, Red), Pos(0, 6) := Piece(Elephant, Red),
    Pos(9, 2) := Piece(Horse, Blue), Pos(9, 7) := Piece(Horse, Blue),
    Pos(0, 2) := Piece(Horse, Red), Pos(0, 7) := Piece(Horse, Red),
    Pos(9, 3) := Piece(Guard, Blue), Pos(9, 5) := Piece(Guard, Blue),
    Pos(0, 3) := Piece(Guard, Red), Pos(0, 5) := Piece(Guard, Red)]

  /** The cells holding exactly the piece pc. */
  function Squares(b: Grid, pc: Piece): set<Pos> {
    set p | p in b && b[p] == pc
  }

  /** How many of the piece pc stand on the board. */
  function Count(b: Grid, pc: Piece): nat {
    |Squares(b, pc)|
  }

  /** The number of pieces of each kind a side starts with. */
  function Complement(k: Kind): nat {
    match k
    case Soldier => 5
    case General => 1
    case _ => 2
  }
}
