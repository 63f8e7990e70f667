/**
  The movement rules stated arithmetically, the way a player would state them: by row and
  column differences, cells strictly between, screens. Each generator is proved to offer
  exactly the moves its rule allows.
 */
module Rules {
  import opened Wrappers
  import opened Pieces
  import opened Board
  import opened Moves
  import opened Generators

  function Abs(x: int): nat {
    if x < 0 then -x else x
  }

  function Sign(x: int): int {
    if x > 0 then 1 else if x < 0 then -1 else 0
  }

  /** q is on the board and empty. */
  predicate Free(b: Grid, q: Pos) {
    InBoard(q) && Get(b, q).None?
  }

  /** The row offset of one soldier step forward: RED advances towards row 9, BLUE towards row 0. */
  function Advance(side: Side): int {
    match side
    case Red => 1
    case Blue => -1
  }

  // ---------------------------------------------------------------------------------------------
  // The rules
  // ---------------------------------------------------------------------------------------------

  /**
    Soldier: one step forward, or one step sideways; or, from any palace cell, one diagonal
    step forward onto a palace cell. Never backwards.
   */
  predicate SoldierReach(b: Grid, side: Side, p: Pos, q: Pos) {
    && InBoard(q) && EmptyOrEnemy(b, side, q)
    && (|| (q.row == p.row + Advance(side) && q.col == p.col)
        || (q.row == p.row && Abs(q.col - p.col) == 1)
        || (InFortress(p) && InFortress(q) && q.row == p.row + Advance(side) && Abs(q.col - p.col) == 1))
  }

  /** The guard's and the general's step to a neighbouring cell. */
  predicate KingStep(p: Pos, q: Pos) {
    Abs(q.row - p.row) <= 1 && Abs(q.col - p.col) <= 1 && q != p
  }

  /** Guard and general: one step in any of the eight directions, staying inside a palace. */
  predicate PalaceReach(b: Grid, side: Side, p: Pos, q: Pos) {
    KingStep(p, q) && InFortress(q) && EmptyOrEnemy(b, side, q)
  }

  /**
    Horse: two cells along a line and one across, provided the first cell along the line is
    on the board and empty.
   */
  predicate HorseReach(b: Grid, side: Side, p: Pos, q: Pos) {
    var dr := q.row - p.row;
    var dc := q.col - p.col;
    && InBoard(q) && EmptyOrEnemy(b, side, q)
    && (|| (Abs(dr) == 2 && Abs(dc) == 1 && Free(b, Pos(p.row + Sign(dr), p.col)))
        || (Abs(dr) == 1 && Abs(dc) == 2 && Free(b, Pos(p.row, p.col + Sign(dc)))))
  }

  /**
    Elephant: three cells along a line and two across, through the orthogonal neighbour and
    then one diagonal cell, both on the board and empty; the end cell must be empty too, so
    an elephant never captures.
   */
  predicate ElephantReach(b: Grid, p: Pos, q: Pos) {
    var dr := q.row - p.row;
    var dc := q.col - p.col;
    && Free(b, q)
    && (|| (Abs(dr) == 3 && Abs(dc) == 2 && Free(b, Pos(p.row + Sign(dr), p.col))
            && Free(b, Pos(p.row + 2 * Sign(dr), p.col + Sign(dc))))
        || (Abs(dr) == 2 && Abs(dc) == 3 && Free(b, Pos(p.row, p.col + Sign(dc)))
            && Free(b, Pos(p.row + Sign(dr), p.col + 2 * Sign(dc)))))
  }

  /** p and q are different cells of one row or one column. */
  predicate Orthogonal(p: Pos, q: Pos) {
    (p.row == q.row) != (p.col == q.col)
  }

  /** x lies strictly between p and q on their common row or column. */
  predicate Between(p: Pos, q: Pos, x: Pos) {
    || (x.row == p.row && x.row == q.row && (p.col < x.col < q.col || q.col < x.col < p.col))
    || (x.col == p.col && x.col == q.col && (p.row < x.row < q.row || q.row < x.row < p.row))
  }

  /** Every cell strictly between p and q is empty. */
  ghost predicate LineClear(b: Grid, p: Pos, q: Pos) {
    forall x :: Between(p, q, x) ==> Get(b, x).None?
  }

  /**
    The chariot's palace diagonal: from a palace cell, one or two diagonal steps onto a
    palace cell, the cell passed over (for two steps) being empty.
   */
  predicate PalaceDiagonal(b: Grid, p: Pos, q: Pos) {
    var dr := q.row - p.row;
    var dc := q.col - p.col;
    && InFortress(p) && InFortress(q) && Abs(dr) == Abs(dc) && 1 <= Abs(dr) <= 2
    && (Abs(dr) == 2 ==> Get(b, Pos(p.row + Sign(dr), p.col + Sign(dc))).None?)
  }

  /** Chariot: any distance along a row or column over empty cells, or a palace diagonal. */
  ghost predicate ChariotReach(b: Grid, side: Side, p: Pos, q: Pos) {
    && InBoard(q) && EmptyOrEnemy(b, side, q)
    && ((Orthogonal(p, q) && LineClear(b, p, q)) || PalaceDiagonal(b, p, q))
  }

  /** x is the cannon's screen between p and q: the only piece strictly between, and no cannon. */
  ghost predicate Screen(b: Grid, p: Pos, q: Pos, x: Pos) {
    && Between(p, q, x) && Get(b, x).Some? && Get(b, x).value.kind != Cannon
    && forall y :: Between(p, q, y) && y != x ==> Get(b, y).None?
  }

  /**
    Cannon: along a row or column over exactly one piece, which is not a cannon, to an empty
    cell or an enemy piece that is not a cannon.
   */
  ghost predicate CannonReach(b: Grid, side: Side, p: Pos, q: Pos) {
    && InBoard(q) && Orthogonal(p, q)
    && (Get(b, q).None? || (Get(b, q).value.side != side && Get(b, q).value.kind != Cannon))
    && exists x :: Screen(b, p, q, x)
  }

  /** Where the rule for a piece of kind k lets it move from p (the pass aside). */
  ghost predicate Reach(b: Grid, side: Side, p: Pos, q: Pos, k: Kind) {
    match k
    case Soldier => SoldierReach(b, side, p, q)
    case Chariot => ChariotReach(b, side, p, q)
    case Horse => HorseReach(b, side, p, q)
    case Elephant => ElephantReach(b, p, q)
    case Cannon => CannonReach(b, side, p, q)
    case Guard => PalaceReach(b, side, p, q)
    case General => PalaceReach(b, side, p, q)
  }

  /** m is issued from p and is either the pass, allowed only out of check, or a move `reach` allows. */
  predicate Allowed(b: Grid, inCheck: bool, p: Pos, m: Move, reach: bool) {
    Issued(b, p, m) && ((m.dst == p && !inCheck) || reach)
  }

  // ---------------------------------------------------------------------------------------------
  // Soldier
  // ---------------------------------------------------------------------------------------------

  /** Which direction of ds a step was generated from. */
  lemma StepsIndex(b: Grid, side: Side, p: Pos, ds: seq<Dir>, rg: Region, m: Move) returns (i: nat)
    requires m in Steps(b, side, p, ds, rg)
    ensures i < |ds| && m.dst == Shift(p, ds[i])
    ensures InRegion(rg, m.dst) && EmptyOrEnemy(b, side, m.dst) && Issued(b, p, m)
  {
    var x :| x in ds && m.dst == Shift(p, x);
    i :| i < |ds| && ds[i] == x;
  }

  lemma LineStepsSound(b: Grid, side: Side, p: Pos, m: Move, ds: seq<Dir>, dr: int)
    requires |ds| == 3 && Shift(p, ds[0]) == Pos(p.row + dr, p.col)
    requires Shift(p, ds[1]) == Pos(p.row, p.col - 1) && Shift(p, ds[2]) == Pos(p.row, p.col + 1)
    requires m in Steps(b, side, p, ds, WholeBoard)
    ensures InBoard(m.dst) && EmptyOrEnemy(b, side, m.dst)
    ensures (m.dst.row == p.row + dr && m.dst.col == p.col) || (m.dst.row == p.row && Abs(m.dst.col - p.col) == 1)
  {
    var i := StepsIndex(b, side, p, ds, WholeBoard, m);
    if i == 0 {
    } else if i == 1 {
    } else {
    }
  }

  lemma LineStepsComplete(b: Grid, side: Side, p: Pos, m: Move, ds: seq<Dir>, dr: int)
    requires |ds| == 3 && Shift(p, ds[0]) == Pos(p.row + dr, p.col)
    requires Shift(p, ds[1]) == Pos(p.row, p.col - 1) && Shift(p, ds[2]) == Pos(p.row, p.col + 1)
    requires Issued(b, p, m) && InBoard(m.dst) && EmptyOrEnemy(b, side, m.dst)
    requires (m.dst.row == p.row + dr && m.dst.col == p.col) || (m.dst.row == p.row && Abs(m.dst.col - p.col) == 1)
    ensures m in Steps(b, side, p, ds, WholeBoard)
  {
    if m.dst.col == p.col {
      assert m.dst == Shift(p, ds[0]);
    } else if m.dst.col < p.col {
      assert m.dst == Shift(p, ds[1]);
    } else {
      assert m.dst == Shift(p, ds[2]);
    }
  }

  lemma DiagonalStepsSound(b: Grid, side: Side, p: Pos, m: Move, ds: seq<Dir>, dr: int)
    requires |ds| == 2 && Shift(p, ds[0]) == Pos(p.row + dr, p.col - 1) && Shift(p, ds[1]) == Pos(p.row + dr, p.col + 1)
    requires m in Steps(b, side, p, ds, Palace)
    ensures EmptyOrEnemy(b, side, m.dst) && InFortress(m.dst) && m.dst.row == p.row + dr && Abs(m.dst.col - p.col) == 1
  {
    var i := StepsIndex(b, side, p, ds, Palace, m);
    if i == 0 {
    } else {
    }
  }

  lemma DiagonalStepsComplete(b: Grid, side: Side, p: Pos, m: Move, ds: seq<Dir>, dr: int)
    requires |ds| == 2 && Shift(p, ds[0]) == Pos(p.row + dr, p.col - 1) && Shift(p, ds[1]) == Pos(p.row + dr, p.col + 1)
    requires Issued(b, p, m) && EmptyOrEnemy(b, side, m.dst) && InFortress(m.dst)
    requires m.dst.row == p.row + dr && Abs(m.dst.col - p.col) == 1
    ensures m in Steps(b, side, p, ds, Palace)
  {
    if m.dst.col < p.col {
      assert m.dst == Shift(p, ds[0]);
    } else {
      assert m.dst == Shift(p, ds[1]);
    }
  }

  /** The soldier's direction lists, as row and column offsets. */
  lemma SoldierDirections(side: Side, p: Pos)
    ensures Shift(p, Forward(side)) == Pos(p.row + Advance(side), p.col)
    ensures Shift(p, W) == Pos(p.row, p.col - 1) && Shift(p, E) == Pos(p.row, p.col + 1)
    ensures |ForwardDiagonals(side)| == 2
    ensures Shift(p, ForwardDiagonals(side)[0]) == Pos(p.row + Advance(side), p.col - 1)
    ensures Shift(p, ForwardDiagonals(side)[1]) == Pos(p.row + Advance(side), p.col + 1)
  {
  }

  lemma SoldierSound(b: Grid, side: Side, inCheck: bool, p: Pos, m: Move)
    requires m in SoldierMoves(b, side, inCheck, p)
    ensures Allowed(b, inCheck, p, m, SoldierReach(b, side, p, m.dst))
  {
    SoldierDirections(side, p);
    var diagonal := if InFortress(p) then Steps(b, side, p, ForwardDiagonals(side), Palace) else [];
    var line := Steps(b, side, p, [Forward(side), W, E], WholeBoard);
    assert m in Pass(b, inCheck, p) || m in diagonal || m in line;
    if m in line {
      LineStepsSound(b, side, p, m, [Forward(side), W, E], Advance(side));
    } else if m in diagonal {
      DiagonalStepsSound(b, side, p, m, ForwardDiagonals(side), Advance(side));
      FortressShape(m.dst);
    }
  }

  lemma SoldierComplete(b: Grid, side: Side, inCheck: bool, p: Pos, m: Move)
    requires Issued(b, p, m) && SoldierReach(b, side, p, m.dst)
    ensures m in SoldierMoves(b, side, inCheck, p)
  {
    SoldierDirections(side, p);
    var dr := Advance(side);
    if InFortress(p) && InFortress(m.dst) && m.dst.row == p.row + dr && Abs(m.dst.col - p.col) == 1 {
      DiagonalStepsComplete(b, side, p, m, ForwardDiagonals(side), dr);
    } else {
      LineStepsComplete(b, side, p, m, [Forward(side), W, E], dr);
    }
  }

  /** The soldier generator offers exactly the moves of the soldier rule. */
  lemma SoldierRule(b: Grid, side: Side, inCheck: bool, p: Pos, m: Move)
    ensures m in SoldierMoves(b, side, inCheck, p) <==> Allowed(b, inCheck, p, m, SoldierReach(b, side, p, m.dst))
  {
    if m in SoldierMoves(b, side, inCheck, p) {
      SoldierSound(b, side, inCheck, p, m);
    }
    if Allowed(b, inCheck, p, m, SoldierReach(b, side, p, m.dst)) && !(m.dst == p && !inCheck) {
      SoldierComplete(b, side, inCheck, p, m);
    }
  }

  /** A soldier never moves backwards. */
  lemma SoldierNeverRetreats(b: Grid, side: Side, inCheck: bool, p: Pos, m: Move)
    requires m in SoldierMoves(b, side, inCheck, p)
    ensures m.src == p
    ensures m.dst.row == p.row || m.dst.row == p.row + Advance(side)
  {
    SoldierRule(b, side, inCheck, p, m);
  }

  // ---------------------------------------------------------------------------------------------
  // Guard and general
  // ---------------------------------------------------------------------------------------------

  lemma KingStepsSound(b: Grid, side: Side, p: Pos, m: Move, ds: seq<Dir>)
    requires m in Steps(b, side, p, ds, Palace)
    ensures PalaceReach(b, side, p, m.dst)
  {
    var x :| x in ds && m.dst == Shift(p, x);
  }

  lemma KingStepsComplete(b: Grid, side: Side, p: Pos, m: Move)
    requires Issued(b, p, m) && PalaceReach(b, side, p, m.dst)
    ensures m in Steps(b, side, p, [NW, N, NE, W, E, SW, S, SE], Palace)
  {
    var ds := [NW, N, NE, W, E, SW, S, SE];
    var i := 3 * (m.dst.row - p.row + 1) + (m.dst.col - p.col + 1);
    var k := if i < 4 then i else i - 1;
    assert m.dst == Shift(p, ds[k]);
  }

  /** The guard and general generator offers exactly the one-step moves that stay in a palace. */
  lemma PalaceRule(b: Grid, side: Side, inCheck: bool, p: Pos, m: Move)
    ensures m in PalaceMoves(b, side, inCheck, p) <==> Allowed(b, inCheck, p, m, PalaceReach(b, side, p, m.dst))
  {
    var ds := [NW, N, NE, W, E, SW, S, SE];
    if m in Steps(b, side, p, ds, Palace) {
      KingStepsSound(b, side, p, m, ds);
    }
    if Issued(b, p, m) && PalaceReach(b, side, p, m.dst) {
      KingStepsComplete(b, side, p, m);
    }
  }

  // ---------------------------------------------------------------------------------------------
  // Horse
  // ---------------------------------------------------------------------------------------------

  /** The orthogonal first step o and one diagonal f beyond it form an elephant (or horse) path. */
  predicate ForkShape(o: Dir, f: Dir) {
    match o
    case N => f == NW || f == NE
    case S => f == SW || f == SE
    case W => f == NW || f == SW
    case E => f == NE || f == SE
    case _ => false
  }

  /** The four legs: the orthogonal first step, then the two diagonal steps beyond it. */
  predicate LegShape(o: Dir, f1: Dir, f2: Dir) {
    || (o == N && f1 == NW && f2 == NE)
    || (o == S && f1 == SW && f2 == SE)
    || (o == W && f1 == NW && f2 == SW)
    || (o == E && f1 == NE && f2 == SE)
  }

  /** Where a horse path from p leads: the leg and the end, as offsets. */
  lemma HorseGeometry(p: Pos, o: Dir, f: Dir)
    requires ForkShape(o, f)
    ensures var leg := Shift(p, o); var q := Shift(leg, f);
      var dr := q.row - p.row; var dc := q.col - p.col;
      && ((o == N || o == S) ==> (Abs(dr) == 2 && Abs(dc) == 1 && leg == Pos(p.row + Sign(dr), p.col)))
      && ((o == W || o == E) ==> (Abs(dr) == 1 && Abs(dc) == 2 && leg == Pos(p.row, p.col + Sign(dc))))
  {
  }

  /** A horse path through an empty leg ends where the horse rule lets it go. */
  lemma HorsePathReach(b: Grid, side: Side, p: Pos, o: Dir, f: Dir)
    requires ForkShape(o, f) && Free(b, Shift(p, o))
    requires InBoard(Shift(Shift(p, o), f)) && EmptyOrEnemy(b, side, Shift(Shift(p, o), f))
    ensures HorseReach(b, side, p, Shift(Shift(p, o), f))
  {
    HorseGeometry(p, o, f);
  }

  lemma HorseLegSound(b: Grid, side: Side, p: Pos, o: Dir, f1: Dir, f2: Dir, m: Move)
    requires LegShape(o, f1, f2)
    requires m in HorseLeg(b, side, p, o, f1, f2)
    ensures Issued(b, p, m) && HorseReach(b, side, p, m.dst)
  {
    var leg := Shift(p, o);
    assert Free(b, leg);
    var f := if m in Land(b, side, p, Shift(leg, f1)) then f1 else f2;
    assert m in Land(b, side, p, Shift(leg, f));
    HorsePathReach(b, side, p, o, f);
  }

  lemma HorseSound(b: Grid, side: Side, inCheck: bool, p: Pos, m: Move)
    requires m in HorseMoves(b, side, inCheck, p)
    ensures Allowed(b, inCheck, p, m, HorseReach(b, side, p, m.dst))
  {
    if m in HorseLeg(b, side, p, N, NW, NE) {
      HorseLegSound(b, side, p, N, NW, NE, m);
    } else if m in HorseLeg(b, side, p, S, SW, SE) {
      HorseLegSound(b, side, p, S, SW, SE, m);
    } else if m in HorseLeg(b, side, p, W, NW, SW) {
      HorseLegSound(b, side, p, W, NW, SW, m);
    } else if m in HorseLeg(b, side, p, E, NE, SE) {
      HorseLegSound(b, side, p, E, NE, SE, m);
    }
  }

  /** The path of a horse move: the orthogonal step o onto an empty cell, then one diagonal step f. */
  lemma HorsePath(b: Grid, side: Side, p: Pos, q: Pos) returns (o: Dir, f: Dir)
    requires HorseReach(b, side, p, q)
    ensures ForkShape(o, f) && Free(b, Shift(p, o)) && q == Shift(Shift(p, o), f)
  {
    var dr := q.row - p.row;
    var dc := q.col - p.col;
    if Abs(dr) == 2 {
      o := if dr < 0 then N else S;
      f := if dr < 0 then (if dc < 0 then NW else NE) else (if dc < 0 then SW else SE);
    } else {
      o := if dc < 0 then W else E;
      f := if dc < 0 then (if dr < 0 then NW else SW) else (if dr < 0 then NE else SE);
    }
  }

  lemma HorseLegComplete(b: Grid, side: Side, p: Pos, o: Dir, f1: Dir, f2: Dir, f: Dir, m: Move)
    requires LegShape(o, f1, f2) && (f == f1 || f == f2) && Issued(b, p, m)
    requires Free(b, Shift(p, o)) && m.dst == Shift(Shift(p, o), f) && InBoard(m.dst) && EmptyOrEnemy(b, side, m.dst)
    ensures m in HorseLeg(b, side, p, o, f1, f2)
  {
    assert m in Land(b, side, p, Shift(Shift(p, o), f));
  }

  lemma HorseComplete(b: Grid, side: Side, inCheck: bool, p: Pos, m: Move)
    requires Issued(b, p, m) && HorseReach(b, side, p, m.dst)
    ensures m in HorseMoves(b, side, inCheck, p)
  {
    var o, f := HorsePath(b, side, p, m.dst);
    match o
    case N => HorseLegComplete(b, side, p, N, NW, NE, f, m);
    case S => HorseLegComplete(b, side, p, S, SW, SE, f, m);
    case W => HorseLegComplete(b, side, p, W, NW, SW, f, m);
    case E => HorseLegComplete(b, side, p, E, NE, SE, f, m);
  }

  /** The horse generator offers exactly the moves of the horse rule. */
  lemma HorseRule(b: Grid, side: Side, inCheck: bool, p: Pos, m: Move)
    ensures m in HorseMoves(b, side, inCheck, p) <==> Allowed(b, inCheck, p, m, HorseReach(b, side, p, m.dst))
  {
    if m in HorseMoves(b, side, inCheck, p) {
      HorseSound(b, side, inCheck, p, m);
    }
    if Allowed(b, inCheck, p, m, HorseReach(b, side, p, m.dst)) && !(m.dst == p && !inCheck) {
      HorseComplete(b, side, inCheck, p, m);
    }
  }

  // ---------------------------------------------------------------------------------------------
  // Elephant
  // ---------------------------------------------------------------------------------------------

  /** Where an elephant path from p leads: the leg, the middle cell and the end, as offsets. */
  lemma ForkGeometry(p: Pos, o: Dir, f: Dir)
    requires ForkShape(o, f)
    ensures var leg := Shift(p, o); var mid := Shift(leg, f); var q := Shift(mid, f);
      var dr := q.row - p.row; var dc := q.col - p.col;
      && ((o == N || o == S) ==>
            (Abs(dr) == 3 && Abs(dc) == 2
             && leg == Pos(p.row + Sign(dr), p.col) && mid == Pos(p.row + 2 * Sign(dr), p.col + Sign(dc))))
      && ((o == W || o == E) ==>
            (Abs(dr) == 2 && Abs(dc) == 3
             && leg == Pos(p.row, p.col + Sign(dc)) && mid == Pos(p.row + Sign(dr), p.col + 2 * Sign(dc))))
  {
  }

  /** An elephant path over empty cells ends where the elephant rule lets it go. */
  lemma PathReach(b: Grid, p: Pos, o: Dir, f: Dir)
    requires ForkShape(o, f) && Free(b, Shift(p, o)) && Free(b, Shift(Shift(p, o), f))
    requires Free(b, Shift(Shift(Shift(p, o), f), f))
    ensures ElephantReach(b, p, Shift(Shift(Shift(p, o), f), f))
  {
    ForkGeometry(p, o, f);
  }

  lemma ElephantForkSound(b: Grid, p: Pos, o: Dir, f: Dir, m: Move)
    requires ForkShape(o, f) && Free(b, Shift(p, o))
    requires m in ElephantFork(b, p, Shift(p, o), f)
    ensures Issued(b, p, m) && ElephantReach(b, p, m.dst)
  {
    var mid := Shift(Shift(p, o), f);
    assert Free(b, mid) && Free(b, Shift(mid, f)) && m == MkMove(b, p, Shift(mid, f));
    PathReach(b, p, o, f);
  }

  lemma ElephantLegSound(b: Grid, p: Pos, o: Dir, f1: Dir, f2: Dir, m: Move)
    requires LegShape(o, f1, f2)
    requires m in ElephantLeg(b, p, o, f1, f2)
    ensures Issued(b, p, m) && ElephantReach(b, p, m.dst)
  {
    if m in ElephantFork(b, p, Shift(p, o), f1) {
      ElephantForkSound(b, p, o, f1, m);
    } else {
      ElephantForkSound(b, p, o, f2, m);
    }
  }

  lemma ElephantSound(b: Grid, side: Side, inCheck: bool, p: Pos, m: Move)
    requires m in ElephantMoves(b, side, inCheck, p)
    ensures Allowed(b, inCheck, p, m, ElephantReach(b, p, m.dst))
  {
    if m in ElephantLeg(b, p, N, NW, NE) {
      ElephantLegSound(b, p, N, NW, NE, m);
    } else if m in ElephantLeg(b, p, S, SW, SE) {
      ElephantLegSound(b, p, S, SW, SE, m);
    } else if m in ElephantLeg(b, p, W, NW, SW) {
      ElephantLegSound(b, p, W, NW, SW, m);
    } else if m in ElephantLeg(b, p, E, NE, SE) {
      ElephantLegSound(b, p, E, NE, SE, m);
    }
  }

  /** The path of an elephant move: the orthogonal step o, then two diagonal steps f, all on empty cells. */
  lemma ElephantPath(b: Grid, p: Pos, q: Pos) returns (o: Dir, f: Dir)
    requires ElephantReach(b, p, q)
    ensures ForkShape(o, f) && Free(b, Shift(p, o)) && Free(b, Shift(Shift(p, o), f))
    ensures q == Shift(Shift(Shift(p, o), f), f) && Free(b, q)
  {
    var dr := q.row - p.row;
    var dc := q.col - p.col;
    if Abs(dr) == 3 {
      o := if dr < 0 then N else S;
      f := if dr < 0 then (if dc < 0 then NW else NE) else (if dc < 0 then SW else SE);
    } else {
      o := if dc < 0 then W else E;
      f := if dc < 0 then (if dr < 0 then NW else SW) else (if dr < 0 then NE else SE);
    }
  }

  lemma ElephantLegComplete(b: Grid, p: Pos, o: Dir, f1: Dir, f2: Dir, f: Dir, m: Move)
    requires LegShape(o, f1, f2) && (f == f1 || f == f2) && Issued(b, p, m)
    requires Free(b, Shift(p, o)) && Free(b, Shift(Shift(p, o), f))
    requires m.dst == Shift(Shift(Shift(p, o), f), f) && Free(b, m.dst)
    ensures m in ElephantLeg(b, p, o, f1, f2)
  {
    assert m in ElephantFork(b, p, Shift(p, o), f);
  }

  lemma ElephantComplete(b: Grid, side: Side, inCheck: bool, p: Pos, m: Move)
    requires Issued(b, p, m) && ElephantReach(b, p, m.dst)
    ensures m in ElephantMoves(b, side, inCheck, p)
  {
    var o, f := ElephantPath(b, p, m.dst);
    match o
    case N => ElephantLegComplete(b, p, N, NW, NE, f, m);
    case S => ElephantLegComplete(b, p, S, SW, SE, f, m);
    case W => ElephantLegComplete(b, p, W, NW, SW, f, m);
    case E => ElephantLegComplete(b, p, E, NE, SE, f, m);
  }

  /** The elephant generator offers exactly the moves of the elephant rule. */
  lemma ElephantRule(b: Grid, side: Side, inCheck: bool, p: Pos, m: Move)
    ensures m in ElephantMoves(b, side, inCheck, p) <==> Allowed(b, inCheck, p, m, ElephantReach(b, p, m.dst))
  {
    if m in ElephantMoves(b, side, inCheck, p) {
      ElephantSound(b, side, inCheck, p, m);
    }
    if Allowed(b, inCheck, p, m, ElephantReach(b, p, m.dst)) && !(m.dst == p && !inCheck) {
      ElephantComplete(b, side, inCheck, p, m);
    }
  }

  // ---------------------------------------------------------------------------------------------
  // Slides
  // ---------------------------------------------------------------------------------------------

  /**
    The scan from distance k stops at distance j: j is in the region, every in-region cell
    before it is empty, and its own cell is empty or may be taken.
   */
  ghost predicate Hit(b: Grid, side: Side, p: Pos, d: Dir, k: int, maxK: int, rg: Region, spare: bool, j: int) {
    && k <= j <= maxK && InRegion(rg, RayAt(p, d, j))
    && (forall i :: k <= i < j && InRegion(rg, RayAt(p, d, i)) ==> Get(b, RayAt(p, d, i)).None?)
    && (Get(b, RayAt(p, d, j)).None? || Capturable(Get(b, RayAt(p, d, j)).value, side, spare))
  }

  /** Every move of a slide goes to a distance where the scan may stop. */
  lemma {:induction false} SlideSound(b: Grid, side: Side, p: Pos, d: Dir, k: int, maxK: int, rg: Region, spare: bool, m: Move)
    returns (j: int)
    requires m in Slide(b, side, p, d, k, maxK, rg, spare)
    ensures Hit(b, side, p, d, k, maxK, rg, spare, j) && m == MkMove(b, p, RayAt(p, d, j))
    decreases maxK - k
  {
    var q := RayAt(p, d, k);
    if !InRegion(rg, q) || (Get(b, q).None? && m != MkMove(b, p, q)) {
      j := SlideSound(b, side, p, d, k + 1, maxK, rg, spare, m);
    } else {
      j := k;
    }
  }

  /** Every distance where the scan may stop is offered. */
  lemma {:induction false} SlideComplete(b: Grid, side: Side, p: Pos, d: Dir, k: int, maxK: int, rg: Region, spare: bool, j: int)
    requires Hit(b, side, p, d, k, maxK, rg, spare, j)
    ensures MkMove(b, p, RayAt(p, d, j)) in Slide(b, side, p, d, k, maxK, rg, spare)
    decreases maxK - k
  {
    if k < j {
      SlideComplete(b, side, p, d, k + 1, maxK, rg, spare, j);
    }
  }

  /** The chariot scans of a direction list are the scans of its directions. */
  lemma {:induction false} SlidesSound(b: Grid, side: Side, p: Pos, ds: seq<Dir>, maxK: int, rg: Region, m: Move)
    returns (d: Dir)
    requires m in Slides(b, side, p, ds, maxK, rg)
    ensures d in ds && m in Slide(b, side, p, d, 1, maxK, rg, false)
  {
    if m in Slide(b, side, p, ds[0], 1, maxK, rg, false) {
      d := ds[0];
    } else {
      d := SlidesSound(b, side, p, ds[1..], maxK, rg, m);
    }
  }

  lemma {:induction false} SlidesComplete(b: Grid, side: Side, p: Pos, ds: seq<Dir>, maxK: int, rg: Region, d: Dir, m: Move)
    requires d in ds && m in Slide(b, side, p, d, 1, maxK, rg, false)
    ensures m in Slides(b, side, p, ds, maxK, rg)
  {
    if d != ds[0] {
      SlidesComplete(b, side, p, ds[1..], maxK, rg, d, m);
    }
  }

  predicate IsLine(d: Dir) {
    d == N || d == S || d == W || d == E
  }

  predicate IsDiagonal(d: Dir) {
    d == NW || d == NE || d == SW || d == SE
  }

  /** The number of steps from p to q along a line or diagonal. */
  function Span(p: Pos, q: Pos): nat {
    if Abs(q.row - p.row) < Abs(q.col - p.col) then Abs(q.col - p.col) else Abs(q.row - p.row)
  }

  /** The direction from p towards q. */
  function Heading(p: Pos, q: Pos): Dir {
    var sr := Sign(q.row - p.row);
    var sc := Sign(q.col - p.col);
    if sr < 0 then (if sc < 0 then NW else if sc > 0 then NE else N)
    else if sr > 0 then (if sc < 0 then SW else if sc > 0 then SE else S)
    else if sc < 0 then W else E
  }

  /** A cell j steps along a line lies that line's way from p, j steps off. */
  lemma OnLine(p: Pos, d: Dir, j: int)
    requires IsLine(d) && j >= 1
    ensures Orthogonal(p, RayAt(p, d, j)) && Heading(p, RayAt(p, d, j)) == d && Span(p, RayAt(p, d, j)) == j
  {
  }

  /** A cell in line with p is reached along the heading, after `Span` steps. */
  lemma LineAt(p: Pos, q: Pos)
    requires Orthogonal(p, q)
    ensures IsLine(Heading(p, q)) && Span(p, q) >= 1 && q == RayAt(p, Heading(p, q), Span(p, q))
  {
  }

  /** The cells strictly between p and the cell j steps along a line are those 1..j-1 steps along. */
  lemma BetweenOnLine(p: Pos, d: Dir, j: int, x: Pos)
    requires IsLine(d) && j >= 1
    ensures Between(p, RayAt(p, d, j), x) <==> 1 <= Span(p, x) < j && x == RayAt(p, d, Span(p, x))
  {
  }

  /** A ray between two board cells stays on the board. */
  lemma RayInside(p: Pos, d: Dir, i: int, j: int)
    requires InBoard(p) && InBoard(RayAt(p, d, j)) && 0 <= i <= j
    ensures InBoard(RayAt(p, d, i))
  {
  }

  /** A slide along a line from p reaches exactly the cells in line with p over empty cells. */
  lemma LineSlideSound(b: Grid, side: Side, p: Pos, d: Dir, spare: bool, m: Move)
    requires InBoard(p) && IsLine(d)
    requires m in Slide(b, side, p, d, 1, 9, WholeBoard, spare)
    ensures Issued(b, p, m) && InBoard(m.dst) && Orthogonal(p, m.dst) && LineClear(b, p, m.dst)
    ensures Get(b, m.dst).None? || Capturable(Get(b, m.dst).value, side, spare)
  {
    var j := SlideSound(b, side, p, d, 1, 9, WholeBoard, spare, m);
    OnLine(p, d, j);
    forall x | Between(p, m.dst, x) ensures Get(b, x).None? {
      BetweenOnLine(p, d, j, x);
      RayInside(p, d, Span(p, x), j);
    }
  }

  lemma LineSlideComplete(b: Grid, side: Side, p: Pos, q: Pos, spare: bool)
    requires InBoard(p) && InBoard(q) && Orthogonal(p, q) && LineClear(b, p, q)
    requires Get(b, q).None? || Capturable(Get(b, q).value, side, spare)
    ensures MkMove(b, p, q) in Slide(b, side, p, Heading(p, q), 1, 9, WholeBoard, spare)
  {
    var d, j := Heading(p, q), Span(p, q);
    LineAt(p, q);
    forall i | 1 <= i < j && InBoard(RayAt(p, d, i)) ensures Get(b, RayAt(p, d, i)).None? {
      OnLine(p, d, i);
      BetweenOnLine(p, d, j, RayAt(p, d, i));
    }
    SlideComplete(b, side, p, d, 1, 9, WholeBoard, spare, j);
  }

  // ---------------------------------------------------------------------------------------------
  // Chariot
  // ---------------------------------------------------------------------------------------------

  lemma ChariotLinesSound(b: Grid, side: Side, p: Pos, m: Move)
    requires InBoard(p) && m in Slides(b, side, p, [N, S, W, E], 9, WholeBoard)
    ensures Issued(b, p, m) && ChariotReach(b, side, p, m.dst)
  {
    var d := SlidesSound(b, side, p, [N, S, W, E], 9, WholeBoard, m);
    LineSlideSound(b, side, p, d, false, m);
  }

  lemma ChariotLinesComplete(b: Grid, side: Side, p: Pos, m: Move)
    requires InBoard(p) && Issued(b, p, m) && InBoard(m.dst) && EmptyOrEnemy(b, side, m.dst)
    requires Orthogonal(p, m.dst) && LineClear(b, p, m.dst)
    ensures m in Slides(b, side, p, [N, S, W, E], 9, WholeBoard)
  {
    LineSlideComplete(b, side, p, m.dst, false);
    LineAt(p, m.dst);
    SlidesComplete(b, side, p, [N, S, W, E], 9, WholeBoard, Heading(p, m.dst), m);
  }

  lemma DiagonalSlideSound(b: Grid, side: Side, p: Pos, d: Dir, m: Move)
    requires InFortress(p) && IsDiagonal(d)
    requires m in Slide(b, side, p, d, 1, 2, Palace, false)
    ensures Issued(b, p, m) && EmptyOrEnemy(b, side, m.dst) && PalaceDiagonal(b, p, m.dst)
  {
    var j := SlideSound(b, side, p, d, 1, 2, Palace, false, m);
    assert Hit(b, side, p, d, 1, 2, Palace, false, j);
    DiagonalGeometry(p, d, j);
    if j == 2 {
      assert InFortress(RayAt(p, d, 1)) && Get(b, RayAt(p, d, 1)).None?;
    }
  }

  /** One or two diagonal steps between palace cells; the cell passed over is a palace cell. */
  lemma DiagonalGeometry(p: Pos, d: Dir, j: int)
    requires InFortress(p) && IsDiagonal(d) && 1 <= j <= 2 && InFortress(RayAt(p, d, j))
    ensures var q := RayAt(p, d, j); Abs(q.row - p.row) == j && Abs(q.col - p.col) == j
    ensures var q := RayAt(p, d, j); RayAt(p, d, 1) == Pos(p.row + Sign(q.row - p.row), p.col + Sign(q.col - p.col))
    ensures j == 2 ==> InFortress(RayAt(p, d, 1))
  {
  }

  /** Two palace cells on a common diagonal, one or two steps apart, lie along the heading between them. */
  lemma DiagonalAt(p: Pos, q: Pos)
    requires Abs(q.row - p.row) == Abs(q.col - p.col) && 1 <= Abs(q.row - p.row) <= 2
    ensures IsDiagonal(Heading(p, q)) && q == RayAt(p, Heading(p, q), Abs(q.row - p.row))
    ensures RayAt(p, Heading(p, q), 1) == Pos(p.row + Sign(q.row - p.row), p.col + Sign(q.col - p.col))
  {
  }

  lemma DiagonalSlideComplete(b: Grid, side: Side, p: Pos, q: Pos)
    requires PalaceDiagonal(b, p, q) && EmptyOrEnemy(b, side, q)
    ensures IsDiagonal(Heading(p, q))
    ensures MkMove(b, p, q) in Slide(b, side, p, Heading(p, q), 1, 2, Palace, false)
  {
    var d, j := Heading(p, q), Abs(q.row - p.row);
    DiagonalAt(p, q);
    assert Hit(b, side, p, d, 1, 2, Palace, false, j);
    SlideComplete(b, side, p, d, 1, 2, Palace, false, j);
  }

  lemma ChariotDiagonalsSound(b: Grid, side: Side, p: Pos, m: Move)
    requires InFortress(p) && m in Slides(b, side, p, [NW, NE, SW, SE], 2, Palace)
    ensures Issued(b, p, m) && ChariotReach(b, side, p, m.dst)
  {
    var d := SlidesSound(b, side, p, [NW, NE, SW, SE], 2, Palace, m);
    DiagonalSlideSound(b, side, p, d, m);
    FortressShape(m.dst);
  }

  lemma ChariotDiagonalsComplete(b: Grid, side: Side, p: Pos, m: Move)
    requires Issued(b, p, m) && EmptyOrEnemy(b, side, m.dst) && PalaceDiagonal(b, p, m.dst)
    ensures m in Slides(b, side, p, [NW, NE, SW, SE], 2, Palace)
  {
    DiagonalSlideComplete(b, side, p, m.dst);
    SlidesComplete(b, side, p, [NW, NE, SW, SE], 2, Palace, Heading(p, m.dst), m);
  }

  /** The chariot generator offers exactly the moves of the chariot rule. */
  lemma ChariotRule(b: Grid, side: Side, inCheck: bool, p: Pos, m: Move)
    requires InBoard(p)
    ensures m in ChariotMoves(b, side, inCheck, p) <==> Allowed(b, inCheck, p, m, ChariotReach(b, side, p, m.dst))
  {
    var lines := Slides(b, side, p, [N, S, W, E], 9, WholeBoard);
    if m in lines {
      ChariotLinesSound(b, side, p, m);
    } else if InFortress(p) && m in Slides(b, side, p, [NW, NE, SW, SE], 2, Palace) {
      ChariotDiagonalsSound(b, side, p, m);
    }
    if Issued(b, p, m) && ChariotReach(b, side, p, m.dst) {
      if Orthogonal(p, m.dst) && LineClear(b, p, m.dst) {
        ChariotLinesComplete(b, side, p, m);
      } else {
        ChariotDiagonalsComplete(b, side, p, m);
      }
    }
  }

  // ---------------------------------------------------------------------------------------------
  // Cannon
  // ---------------------------------------------------------------------------------------------

  /**
    The unscreened scan from distance l meets its screen at distance s: a piece on the board
    that is not a cannon, with every board cell before it empty.
   */
  ghost predicate ScreenAt(b: Grid, p: Pos, d: Dir, l: int, s: int) {
    && l <= s <= 9 && InBoard(RayAt(p, d, s))
    && Get(b, RayAt(p, d, s)).Some? && Get(b, RayAt(p, d, s)).value.kind != Cannon
    && forall i :: l <= i < s && InBoard(RayAt(p, d, i)) ==> Get(b, RayAt(p, d, i)).None?
  }

  /** A direction scanned from an unscreened start offers only cells beyond a screen. */
  lemma {:induction false} CannonScanSound(b: Grid, side: Side, p: Pos, d: Dir, l: int, m: Move) returns (s: int)
    requires m in CannonScan(b, side, p, d, l, false).0
    ensures ScreenAt(b, p, d, l, s) && m in Slide(b, side, p, d, s + 1, 9, WholeBoard, true)
    decreases 10 - l
  {
    var q := RayAt(p, d, l);
    if l <= 9 && !(InBoard(q) && Get(b, q).Some?) {
      s := CannonScanSound(b, side, p, d, l + 1, m);
    } else {
      s := l;
    }
  }

  /** ...and offers every cell the scan beyond the screen reaches. */
  lemma {:induction false} CannonScanComplete(b: Grid, side: Side, p: Pos, d: Dir, l: int, s: int, m: Move)
    requires ScreenAt(b, p, d, l, s) && m in Slide(b, side, p, d, s + 1, 9, WholeBoard, true)
    ensures m in CannonScan(b, side, p, d, l, false).0
    decreases 10 - l
  {
    if l < s {
      CannonScanComplete(b, side, p, d, l + 1, s, m);
    }
  }

  lemma LineCannonSound(b: Grid, side: Side, p: Pos, d: Dir, m: Move)
    requires InBoard(p) && IsLine(d)
    requires m in CannonScan(b, side, p, d, 1, false).0
    ensures Issued(b, p, m) && CannonReach(b, side, p, m.dst)
  {
    var s := CannonScanSound(b, side, p, d, 1, m);
    var j := SlideSound(b, side, p, d, s + 1, 9, WholeBoard, true, m);
    var x := RayAt(p, d, s);
    OnLine(p, d, j);
    OnLine(p, d, s);
    BetweenOnLine(p, d, j, x);
    forall y | Between(p, m.dst, y) && y != x ensures Get(b, y).None? {
      BetweenOnLine(p, d, j, y);
      RayInside(p, d, Span(p, y), j);
    }
    assert Screen(b, p, m.dst, x);
  }

  lemma LineCannonComplete(b: Grid, side: Side, p: Pos, q: Pos, x: Pos)
    requires InBoard(p) && InBoard(q) && Orthogonal(p, q) && Screen(b, p, q, x)
    requires Get(b, q).None? || (Get(b, q).value.side != side && Get(b, q).value.kind != Cannon)
    ensures IsLine(Heading(p, q))
    ensures MkMove(b, p, q) in CannonScan(b, side, p, Heading(p, q), 1, false).0
  {
    var d, j := Heading(p, q), Span(p, q);
    LineAt(p, q);
    BetweenOnLine(p, d, j, x);
    var s := Span(p, x);
    RayInside(p, d, s, j);
    forall i | 1 <= i < j && i != s && InBoard(RayAt(p, d, i)) ensures Get(b, RayAt(p, d, i)).None? {
      OnLine(p, d, i);
      BetweenOnLine(p, d, j, RayAt(p, d, i));
    }
    assert ScreenAt(b, p, d, 1, s);
    SlideComplete(b, side, p, d, s + 1, 9, WholeBoard, true, j);
    CannonScanComplete(b, side, p, d, 1, s, MkMove(b, p, q));
  }

  /** The cannon generator offers exactly the moves of the cannon rule (along rows and columns). */
  lemma CannonRule(b: Grid, side: Side, inCheck: bool, p: Pos, m: Move)
    requires InBoard(p)
    ensures m in CannonMoves(b, side, inCheck, p) <==> Allowed(b, inCheck, p, m, CannonReach(b, side, p, m.dst))
  {
    if m in CannonScan(b, side, p, N, 1, false).0 {
      LineCannonSound(b, side, p, N, m);
    } else if m in CannonScan(b, side, p, S, 1, false).0 {
      LineCannonSound(b, side, p, S, m);
    } else if m in CannonScan(b, side, p, W, 1, false).0 {
      LineCannonSound(b, side, p, W, m);
    } else if m in CannonScan(b, side, p, E, 1, false).0 {
      LineCannonSound(b, side, p, E, m);
    }
    if Issued(b, p, m) && CannonReach(b, side, p, m.dst) {
      var x :| Screen(b, p, m.dst, x);
      LineCannonComplete(b, side, p, m.dst, x);
    }
  }

  // ---------------------------------------------------------------------------------------------
  // Every kind, and the whole board
  // ---------------------------------------------------------------------------------------------

  /** The generator for a piece of kind k on a board cell offers exactly the moves of its rule. */
  lemma PieceRule(b: Grid, side: Side, inCheck: bool, p: Pos, k: Kind, m: Move)
    requires InBoard(p)
    ensures m in PieceMoves(b, side, inCheck, p, k) <==> Allowed(b, inCheck, p, m, Reach(b, side, p, m.dst, k))
  {
    match k
    case Soldier => SoldierRule(b, side, inCheck, p, m);
    case Chariot => ChariotRule(b, side, inCheck, p, m);
    case Horse => HorseRule(b, side, inCheck, p, m);
    case Elephant => ElephantRule(b, side, inCheck, p, m);
    case Cannon => CannonRule(b, side, inCheck, p, m);
    case Guard => PalaceRule(b, side, inCheck, p, m);
    case General => PalaceRule(b, side, inCheck, p, m);
  }

  /** No rule moves a piece onto its own cell: standing still is only ever the pass. */
  lemma NoRuleStandsStill(b: Grid, side: Side, p: Pos, k: Kind)
    ensures !Reach(b, side, p, p, k)
  {
  }

  /** Every piece may pass exactly when its side is not flagged in check. */
  lemma PassRule(b: Grid, side: Side, inCheck: bool, p: Pos, k: Kind)
    requires InBoard(p)
    ensures MkMove(b, p, p) in PieceMoves(b, side, inCheck, p, k) <==> !inCheck
  {
    PieceRule(b, side, inCheck, p, k, MkMove(b, p, p));
    NoRuleStandsStill(b, side, p, k);
  }

  /**
    Where a real move may end: on the board, never on a piece of the mover's own side; inside
    a palace for guards and generals; only on an empty cell for an elephant; never on a
    cannon for a cannon; and never on a row behind a soldier.
   */
  lemma DestinationRules(b: Grid, side: Side, inCheck: bool, p: Pos, k: Kind, m: Move)
    requires InBoard(p) && m in PieceMoves(b, side, inCheck, p, k) && m.dst != p
    ensures m.src == p && InBoard(m.dst) && EmptyOrEnemy(b, side, m.dst)
    ensures k == Guard || k == General ==> InFortress(m.dst)
    ensures k == Elephant ==> Get(b, m.dst).None?
    ensures k == Cannon ==> Get(b, m.dst).None? || Get(b, m.dst).value.kind != Cannon
    ensures k == Soldier ==> m.dst.row == p.row || m.dst.row == p.row + Advance(side)
  {
    PieceRule(b, side, inCheck, p, k, m);
    FortressShape(m.dst);
  }

  /** A move of the board scan is a move its source piece's generator offers. */
  lemma AllPossibleSound(b: Grid, side: Side, inCheck: bool, m: Move)
    requires m in AllPossibleMoves(b, side, inCheck)
    ensures InBoard(m.src) && Get(b, m.src).Some? && Get(b, m.src).value.side == side
    ensures m in PieceMoves(b, side, inCheck, m.src, Get(b, m.src).value.kind)
  {
    var q := BoardScanSound(CellsOf(b, side, inCheck), 0, m);
    assert m in CellMoves(b, side, inCheck, q);
    CellMovesOfPiece(b, side, inCheck, q);
  }

  /** The moves of an occupied cell of the side to move are its piece's generator's moves. */
  lemma CellMovesOfPiece(b: Grid, side: Side, inCheck: bool, q: Pos)
    requires CellMoves(b, side, inCheck, q) != []
    ensures Get(b, q).Some? && Get(b, q).value.side == side
    ensures CellMoves(b, side, inCheck, q) == PieceMoves(b, side, inCheck, q, Get(b, q).value.kind)
  {
  }

  /** Every move a generator offers for a piece of the side to move is in the board scan. */
  lemma AllPossibleComplete(b: Grid, side: Side, inCheck: bool, m: Move)
    requires InBoard(m.src) && Get(b, m.src).Some? && Get(b, m.src).value.side == side
    requires m in PieceMoves(b, side, inCheck, m.src, Get(b, m.src).value.kind)
    ensures m in AllPossibleMoves(b, side, inCheck)
  {
    var cell := CellsOf(b, side, inCheck);
    assert m in cell(Pos(m.src.row, m.src.col));
    BoardScanComplete(cell, 0, m.src.row, m.src.col, m);
  }

  /**
    The board scan offers exactly the rule-allowed moves of the pieces of the side to move,
    from every board cell.
   */
  lemma AllPossibleRule(b: Grid, side: Side, inCheck: bool, m: Move)
    ensures m in AllPossibleMoves(b, side, inCheck) <==>
      && InBoard(m.src) && Get(b, m.src).Some? && Get(b, m.src).value.side == side
      && Allowed(b, inCheck, m.src, m, Reach(b, side, m.src, m.dst, Get(b, m.src).value.kind))
  {
    if m in AllPossibleMoves(b, side, inCheck) {
      AllPossibleSound(b, side, inCheck, m);
    }
    if InBoard(m.src) && Get(b, m.src).Some? && Get(b, m.src).value.side == side {
      PieceRule(b, side, inCheck, m.src, Get(b, m.src).value.kind, m);
      if m in PieceMoves(b, side, inCheck, m.src, Get(b, m.src).value.kind) {
        AllPossibleComplete(b, side, inCheck, m);
      }
    }
  }
}
