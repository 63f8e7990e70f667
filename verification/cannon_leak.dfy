/**
  The cannon generator as written keeps its screen flag across directions: a direction whose
  screen is the last cell in reach (nine cells away) leaves the flag set, and the next
  direction is then scanned as if already screened. The model's generator, `CannonLines`,
  starts every direction unscreened; this module keeps the written form beside it.
 */
module CannonLeak {
  import opened Pieces
  import opened Board
  import opened Moves
  import opened Generators
  import opened Rules

  /** The orthogonal scan with the flag carried from north to south to west to east. */
  function CannonLinesAsWritten(b: Grid, side: Side, p: Pos): (r: seq<Move>)
    ensures forall m :: m in r ==> Issued(b, p, m)
  {
    var n := CannonScan(b, side, p, N, 1, false);
    var s := CannonScan(b, side, p, S, 1, n.1);
    var w := CannonScan(b, side, p, W, 1, s.1);
    var e := CannonScan(b, side, p, E, 1, w.1);
    n.0 + s.0 + w.0 + e.0
  }

  /** The cannon's moves as written: the pass out of check, then the leaking scan. */
  function CannonMovesAsWritten(b: Grid, side: Side, inCheck: bool, p: Pos): (r: seq<Move>)
    ensures forall m :: m in r ==> Issued(b, p, m)
  {
    Pass(b, inCheck, p) + CannonLinesAsWritten(b, side, p)
  }

  /** A direction that leaves the flag set had its screen nine steps away, with empty cells before it. */
  lemma {:induction false} LeakSound(b: Grid, side: Side, p: Pos, d: Dir, l: int)
    requires CannonScan(b, side, p, d, l, false).1
    ensures ScreenAt(b, p, d, l, 9)
    decreases 10 - l
  {
    var q := RayAt(p, d, l);
    if !(InBoard(q) && Get(b, q).Some?) {
      LeakSound(b, side, p, d, l + 1);
      forall i | l <= i < 9 && InBoard(RayAt(p, d, i)) ensures Get(b, RayAt(p, d, i)).None? {
        if i > l {
          assert l + 1 <= i;
        }
      }
    } else {
      assert l == 9;
    }
  }

  /** A screen nine steps away, with empty cells before it, leaves the flag set. */
  lemma {:induction false} LeakComplete(b: Grid, side: Side, p: Pos, d: Dir, l: int)
    requires ScreenAt(b, p, d, l, 9)
    ensures CannonScan(b, side, p, d, l, false).1
    decreases 10 - l
  {
    if l < 9 {
      assert Get(b, RayAt(p, d, l)).None? || !InBoard(RayAt(p, d, l));
      LeakComplete(b, side, p, d, l + 1);
    }
  }

  /**
    An unscreened direction leaves the flag set exactly when its screen is the cell nine
    steps away: that cell holds a piece other than a cannon and the cells before it are empty.
   */
  lemma LeakFromEdge(b: Grid, side: Side, p: Pos, d: Dir, l: int)
    ensures CannonScan(b, side, p, d, l, false).1 <==> ScreenAt(b, p, d, l, 9)
  {
    if CannonScan(b, side, p, d, l, false).1 {
      LeakSound(b, side, p, d, l);
    }
    if ScreenAt(b, p, d, l, 9) {
      LeakComplete(b, side, p, d, l);
    }
  }

  /** Whether the cell nine steps from p along d is a board cell holding a piece. */
  predicate FarEndTaken(b: Grid, p: Pos, d: Dir) {
    InBoard(RayAt(p, d, 9)) && Get(b, RayAt(p, d, 9)).Some?
  }

  /**
    Unless a piece stands nine cells north, south or west of the cannon, the written scan
    and the per-direction scan offer the same moves in the same order.
   */
  lemma AsWrittenAgrees(b: Grid, side: Side, p: Pos)
    requires !FarEndTaken(b, p, N) && !FarEndTaken(b, p, S) && !FarEndTaken(b, p, W)
    ensures CannonLinesAsWritten(b, side, p) == CannonLines(b, side, p)
  {
    LeakFromEdge(b, side, p, N, 1);
    LeakFromEdge(b, side, p, S, 1);
    LeakFromEdge(b, side, p, W, 1);
  }

  /**
    A cannon on the first row whose column is screened only at the far end is offered the
    step west, with nothing in between, by the written scan.
   */
  lemma LeakOffersStep(b: Grid, side: Side, p: Pos)
    requires p.row == 0 && ScreenAt(b, p, S, 1, 9)
    requires InBoard(RayAt(p, W, 1)) && Get(b, RayAt(p, W, 1)).None?
    ensures MkMove(b, p, RayAt(p, W, 1)) in CannonLinesAsWritten(b, side, p)
    ensures !CannonReach(b, side, p, RayAt(p, W, 1))
  {
    LeakFromEdge(b, side, p, N, 1);
    LeakFromEdge(b, side, p, S, 1);
    assert MkMove(b, p, RayAt(p, W, 1)) in Slide(b, side, p, W, 1, 9, WholeBoard, true);
    assert forall x :: !Between(p, RayAt(p, W, 1), x);
  }

  /** A red cannon on c1 and a red soldier at the far end of its column, on c10. */
  const LeakBoard: Grid := map[Pos(0, 2) := Piece(Cannon, Red), Pos(9, 2) := Piece(Soldier, Red)]

  /**
    The counterexample: the cannon on c1 is offered the plain step to b1, which the cannon
    rule forbids and the per-direction generator does not offer.
   */
  lemma CannonLeakExample()
    ensures MkMove(LeakBoard, Pos(0, 2), Pos(0, 1)) in CannonMovesAsWritten(LeakBoard, Red, false, Pos(0, 2))
    ensures MkMove(LeakBoard, Pos(0, 2), Pos(0, 1)) !in CannonMoves(LeakBoard, Red, false, Pos(0, 2))
  {
    var b, p := LeakBoard, Pos(0, 2);
    assert ScreenAt(b, p, S, 1, 9);
    LeakOffersStep(b, Red, p);
    CannonRule(b, Red, false, p, MkMove(b, p, Pos(0, 1)));
  }
}
