/**
  The move generators: for each piece kind, the geometrically possible moves of a piece of the
  side to move standing on p, before any check for exposing one's own general. Every
  generator begins with the pass move unless the side to move is flagged in check.
 */
module Generators {
  import opened Wrappers
  import opened Pieces
  import opened Board
  import opened Moves

  /** m is the move from p on board b: it starts at p and its snapshots are b's cells. */
  predicate Issued(b: Grid, p: Pos, m: Move) {
    m == MkMove(b, p, m.dst)
  }

  /** The pass move, offered unless the side to move is flagged in check. */
  function Pass(b: Grid, inCheck: bool, p: Pos): (r: seq<Move>)
    ensures forall m :: m in r <==> !inCheck && m == MkMove(b, p, p)
  {
    if inCheck then [] else [MkMove(b, p, p)]
  }

  /**
    One step from p in each direction of ds, in order; a step is offered when its cell lies in
    the region and is empty or enemy-held.
   */
  function Steps(b: Grid, side: Side, p: Pos, ds: seq<Dir>, rg: Region): (r: seq<Move>)
    ensures forall m :: m in r <==>
      && Issued(b, p, m) && InRegion(rg, m.dst) && EmptyOrEnemy(b, side, m.dst)
      && exists d :: d in ds && m.dst == Shift(p, d)
  {
    if ds == [] then []
    else
      var q := Shift(p, ds[0]);
      (if InRegion(rg, q) && EmptyOrEnemy(b, side, q) then [MkMove(b, p, q)] else [])
      + Steps(b, side, p, ds[1..], rg)
  }

  /** Whether a slide may end by taking pc; a cannon never takes a cannon. */
  predicate Capturable(pc: Piece, side: Side, spareCannons: bool) {
    pc.side != side && !(spareCannons && pc.kind == Cannon)
  }

  /**
    The cells k..maxK steps from p along d, scanned outwards: cells outside the region are
    skipped, empty cells are offered, and the first occupied cell ends the scan, offered only
    when its piece may be taken.
   */
  function Slide(b: Grid, side: Side, p: Pos, d: Dir, k: int, maxK: int, rg: Region, spareCannons: bool): (r: seq<Move>)
    ensures forall m :: m in r ==> Issued(b, p, m)
    decreases maxK - k
  {
    if k > maxK then []
    else
      var q := RayAt(p, d, k);
      if !InRegion(rg, q) then Slide(b, side, p, d, k + 1, maxK, rg, spareCannons)
      else
        match Get(b, q)
        case None => [MkMove(b, p, q)] + Slide(b, side, p, d, k + 1, maxK, rg, spareCannons)
        case Some(pc) => if Capturable(pc, side, spareCannons) then [MkMove(b, p, q)] else []
  }

  /** A chariot-style slide, distances 1..maxK, along each direction of ds in order. */
  function Slides(b: Grid, side: Side, p: Pos, ds: seq<Dir>, maxK: int, rg: Region): (r: seq<Move>)
    ensures forall m :: m in r ==> Issued(b, p, m)
  {
    if ds == [] then [] else Slide(b, side, p, ds[0], 1, maxK, rg, false) + Slides(b, side, p, ds[1..], maxK, rg)
  }

  /** The direction a soldier of `side` advances in: RED towards row 9, BLUE towards row 0. */
  function Forward(side: Side): Dir {
    match side
    case Red => S
    case Blue => N
  }

  /** The two forward diagonals of `side`, left first. */
  function ForwardDiagonals(side: Side): seq<Dir> {
    match side
    case Red => [SW, SE]
    case Blue => [NW, NE]
  }

  /**
    Soldier: inside any palace, one diagonal step forward onto another palace cell; then one
    step forward, left or right on the board.
   */
  function SoldierMoves(b: Grid, side: Side, inCheck: bool, p: Pos): (r: seq<Move>)
    ensures forall m :: m in r ==> Issued(b, p, m)
    ensures !inCheck ==> r != [] && r[0] == MkMove(b, p, p)
  {
    Pass(b, inCheck, p)
    + (if InFortress(p) then Steps(b, side, p, ForwardDiagonals(side), Palace) else [])
    + Steps(b, side, p, [Forward(side), W, E], WholeBoard)
  }

  /**
    Chariot: inside a palace, up to two steps along each diagonal within the palace; then
    any distance along the four lines of the board, stopping at the first piece.
   */
  function ChariotMoves(b: Grid, side: Side, inCheck: bool, p: Pos): (r: seq<Move>)
    ensures forall m :: m in r ==> Issued(b, p, m)
    ensures !inCheck ==> r != [] && r[0] == MkMove(b, p, p)
  {
    Pass(b, inCheck, p)
    + (if InFortress(p) then Slides(b, side, p, [NW, NE, SW, SE], 2, Palace) else [])
    + Slides(b, side, p, [N, S, W, E], 9, WholeBoard)
  }

  /** The move from p to q, offered when q is on the board and empty or enemy-held. */
  function Land(b: Grid, side: Side, p: Pos, q: Pos): (r: seq<Move>)
    ensures forall m :: m in r <==> m == MkMove(b, p, q) && InBoard(q) && EmptyOrEnemy(b, side, q)
  {
    if InBoard(q) && EmptyOrEnemy(b, side, q) then [MkMove(b, p, q)] else []
  }

  /**
    One leg of a horse: when the orthogonal neighbour along o is on the board and empty, the
    two cells one diagonal step beyond it (along f1 and f2).
   */
  function HorseLeg(b: Grid, side: Side, p: Pos, o: Dir, f1: Dir, f2: Dir): (r: seq<Move>)
    ensures forall m :: m in r ==> Issued(b, p, m)
  {
    var leg := Shift(p, o);
    if InBoard(leg) && Get(b, leg).None? then Land(b, side, p, Shift(leg, f1)) + Land(b, side, p, Shift(leg, f2))
    else []
  }

  /** Horse: along each of the four lines one step, then one diagonal step outwards. */
  function HorseMoves(b: Grid, side: Side, inCheck: bool, p: Pos): (r: seq<Move>)
    ensures forall m :: m in r ==> Issued(b, p, m)
    ensures !inCheck ==> r != [] && r[0] == MkMove(b, p, p)
  {
    Pass(b, inCheck, p)
    + HorseLeg(b, side, p, N, NW, NE) + HorseLeg(b, side, p, S, SW, SE)
    + HorseLeg(b, side, p, W, NW, SW) + HorseLeg(b, side, p, E, NE, SE)
  }

  /**
    One branch of an elephant leg: from the free neighbour `leg`, two diagonal steps along f.
    Both the middle cell and the end cell must be empty: the game compares the end cell's
    occupant with the enemy side's name, which never equals a piece, so an elephant never
    captures.
   */
  function ElephantFork(b: Grid, p: Pos, leg: Pos, f: Dir): seq<Move> {
    var mid := Shift(leg, f);
    var end := Shift(mid, f);
    if InBoard(mid) && Get(b, mid).None? && InBoard(end) && Get(b, end).None? then [MkMove(b, p, end)] else []
  }

  function ElephantLeg(b: Grid, p: Pos, o: Dir, f1: Dir, f2: Dir): (r: seq<Move>)
    ensures forall m :: m in r ==> Issued(b, p, m)
  {
    var leg := Shift(p, o);
    if InBoard(leg) && Get(b, leg).None? then ElephantFork(b, p, leg, f1) + ElephantFork(b, p, leg, f2) else []
  }

  /** Elephant: along each of the four lines one step, then two diagonal steps outwards. */
  function ElephantMoves(b: Grid, side: Side, inCheck: bool, p: Pos): (r: seq<Move>)
    ensures forall m :: m in r ==> Issued(b, p, m)
    ensures !inCheck ==> r != [] && r[0] == MkMove(b, p, p)
  {
    Pass(b, inCheck, p)
    + ElephantLeg(b, p, N, NW, NE) + ElephantLeg(b, p, S, SW, SE)
    + ElephantLeg(b, p, W, NW, SW) + ElephantLeg(b, p, E, NE, SE)
  }

  /**
    One direction of the cannon's orthogonal scan from distance l. `screened` is the game's
    flag that a screen has been passed. Before the screen, the first piece met becomes the
    screen unless it is a cannon, which ends the direction. Once screened, the cells beyond
    are scanned like a chariot's, except that a cannon is never taken. The second component
    is the flag as the scan leaves it: still set when the screen was the last cell in reach.
   */
  function CannonScan(b: Grid, side: Side, p: Pos, d: Dir, l: int, screened: bool): (r: (seq<Move>, bool))
    ensures forall m :: m in r.0 ==> Issued(b, p, m)
    decreases 10 - l
  {
    if l > 9 then ([], screened)
    else if screened then (Slide(b, side, p, d, l, 9, WholeBoard, true), false)
    else
      var q := RayAt(p, d, l);
      if InBoard(q) && Get(b, q).Some? then
        if Get(b, q).value.kind == Cannon then ([], false) else CannonScan(b, side, p, d, l + 1, true)
      else CannonScan(b, side, p, d, l + 1, false)
  }

  /** The cannon's orthogonal moves, each direction starting unscreened. */
  function CannonLines(b: Grid, side: Side, p: Pos): seq<Move> {
    CannonScan(b, side, p, N, 1, false).0 + CannonScan(b, side, p, S, 1, false).0
    + CannonScan(b, side, p, W, 1, false).0 + CannonScan(b, side, p, E, 1, false).0
  }

  /** Cannon: the pass, then the orthogonal scan. */
  function CannonMoves(b: Grid, side: Side, inCheck: bool, p: Pos): (r: seq<Move>)
    ensures forall m :: m in r ==> Issued(b, p, m)
    ensures !inCheck ==> r != [] && r[0] == MkMove(b, p, p)
  {
    Pass(b, inCheck, p) + CannonLines(b, side, p)
  }

  /** Guard and general: one step in any of the eight directions, onto a palace cell. */
  function PalaceMoves(b: Grid, side: Side, inCheck: bool, p: Pos): (r: seq<Move>)
    ensures forall m :: m in r ==> Issued(b, p, m)
    ensures !inCheck ==> r != [] && r[0] == MkMove(b, p, p)
  {
    Pass(b, inCheck, p) + Steps(b, side, p, [NW, N, NE, W, E, SW, S, SE], Palace)
  }

  /** The generator for a piece of kind k. */
  function PieceMoves(b: Grid, side: Side, inCheck: bool, p: Pos, k: Kind): (r: seq<Move>)
    ensures forall m :: m in r ==> Issued(b, p, m)
    ensures !inCheck ==> r != [] && r[0] == MkMove(b, p, p)
  {
    match k
    case Soldier => SoldierMoves(b, side, inCheck, p)
    case Chariot => ChariotMoves(b, side, inCheck, p)
    case Horse => HorseMoves(b, side, inCheck, p)
    case Elephant => ElephantMoves(b, side, inCheck, p)
    case Cannon => CannonMoves(b, side, inCheck, p)
    case Guard => PalaceMoves(b, side, inCheck, p)
    case General => PalaceMoves(b, side, inCheck, p)
  }

  /** The moves of whatever stands on p, if it belongs to the side to move. */
  function CellMoves(b: Grid, side: Side, inCheck: bool, p: Pos): (r: seq<Move>)
    ensures forall m :: m in r ==> Issued(b, p, m)
    ensures r != [] ==> Get(b, p).Some? && Get(b, p).value.side == side
  {
    match Get(b, p)
    case None => []
    case Some(pc) =>
      if pc.side == side then
        PieceMoves(b, side, inCheck, p, pc.kind)
      else []
  }

  /** The per-cell generator of the side to move, as a function value. */
  function CellsOf(b: Grid, side: Side, inCheck: bool): Pos -> seq<Move> {
    q => CellMoves(b, side, inCheck, q)
  }

  /** The moves `cell` gives for row r, from column c rightwards. */
  function RowScan(cell: Pos -> seq<Move>, r: int, c: int): seq<Move>
    decreases Cols - c
  {
    if c >= Cols then [] else cell(Pos(r, c)) + RowScan(cell, r, c + 1)
  }

  /** The moves `cell` gives for rows r..9, top to bottom, each row left to right. */
  function BoardScan(cell: Pos -> seq<Move>, r: int): seq<Move>
    decreases Rows - r
  {
    if r >= Rows then [] else RowScan(cell, r, 0) + BoardScan(cell, r + 1)
  }

  /** A move of the row scan comes from one of the row's cells. */
  lemma {:induction false} RowScanSound(cell: Pos -> seq<Move>, r: int, c: int, m: Move) returns (j: int)
    requires m in RowScan(cell, r, c)
    ensures c <= j < Cols && m in cell(Pos(r, j))
    decreases Cols - c
  {
    if m in cell(Pos(r, c)) {
      j := c;
    } else {
      j := RowScanSound(cell, r, c + 1, m);
    }
  }

  /** A move of the board scan comes from one of the board's cells. */
  lemma {:induction false} BoardScanSound(cell: Pos -> seq<Move>, r: int, m: Move) returns (q: Pos)
    requires 0 <= r && m in BoardScan(cell, r)
    ensures r <= q.row && InBoard(q) && m in cell(q)
    decreases Rows - r
  {
    if m in RowScan(cell, r, 0) {
      var j := RowScanSound(cell, r, 0, m);
      q := Pos(r, j);
    } else {
      q := BoardScanSound(cell, r + 1, m);
    }
  }

  /** Every move `cell` gives for a cell of the row is in the row scan. */
  lemma {:induction false} RowScanComplete(cell: Pos -> seq<Move>, r: int, c: int, j: int, m: Move)
    requires c <= j < Cols && m in cell(Pos(r, j))
    ensures m in RowScan(cell, r, c)
    decreases Cols - c
  {
    if c < j {
      RowScanComplete(cell, r, c + 1, j, m);
    }
  }

  /** Every move `cell` gives for a cell of rows r..9 is in the board scan. */
  lemma {:induction false} BoardScanComplete(cell: Pos -> seq<Move>, r: int, i: int, j: int, m: Move)
    requires r <= i < Rows && 0 <= j < Cols && m in cell(Pos(i, j))
    ensures m in BoardScan(cell, r)
    decreases Rows - r
  {
    if r < i {
      BoardScanComplete(cell, r + 1, i, j, m);
      assert m in BoardScan(cell, r + 1);
    } else {
      RowScanComplete(cell, r, 0, j, m);
      assert m in RowScan(cell, r, 0);
    }
  }

  /** What every scanned move carries: a board source holding a piece of the side to move. */
  lemma ScannedMoves(b: Grid, side: Side, inCheck: bool)
    ensures forall m :: m in BoardScan(CellsOf(b, side, inCheck), 0) ==>
      && InBoard(m.src) && Issued(b, m.src, m)
      && Get(b, m.src).Some? && Get(b, m.src).value.side == side
  {
    forall m | m in BoardScan(CellsOf(b, side, inCheck), 0)
      ensures InBoard(m.src) && Issued(b, m.src, m) && Get(b, m.src).Some? && Get(b, m.src).value.side == side
    {
      var q := BoardScanSound(CellsOf(b, side, inCheck), 0, m);
      assert m in CellMoves(b, side, inCheck, q);
    }
  }

  /**
    Every geometrically possible move of the side to move, scanning the board row by row:
    each starts on a board cell holding one of that side's pieces.
   */
  function AllPossibleMoves(b: Grid, side: Side, inCheck: bool): (ms: seq<Move>)
    ensures forall m :: m in ms ==>
      && InBoard(m.src) && Issued(b, m.src, m)
      && Get(b, m.src).Some? && Get(b, m.src).value.side == side
  {
    ScannedMoves(b, side, inCheck);
    BoardScan(CellsOf(b, side, inCheck), 0)
  }
}
