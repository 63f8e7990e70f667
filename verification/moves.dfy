/**
  A move: a source cell, a destination cell, and what stood on each before the move.
  The two snapshots are what lets a simulated move be undone.
 */
module Moves {
  import opened Wrappers
  import opened Pieces
  import opened Board

  datatype Move = Move(src: Pos, dst: Pos, srcPiece: Cell, dstPiece: Cell)

  /** The move's snapshots are what b holds at its two cells. */
  predicate Snapshot(b: Grid, m: Move) {
    m.srcPiece == Get(b, m.src) && m.dstPiece == Get(b, m.dst)
  }

  /** The move from src to dst on board b, with its snapshots taken from b. */
  function MkMove(b: Grid, src: Pos, dst: Pos): Move {
    Move(src, dst, Get(b, src), Get(b, dst))
  }

  /** The pass move: a piece "moves" onto its own cell. */
  predicate IsPass(m: Move) {
    m.src == m.dst
  }

  /** Move equality as the game defines it: source and destination only, snapshots ignored. */
  predicate SameMove(a: Move, c: Move) {
    a.src == c.src && a.dst == c.dst
  }

  /** Whether mv is among ms, by the game's move equality (`move in valid_moves`). */
  predicate Offered(ms: seq<Move>, mv: Move) {
    exists m :: m in ms && SameMove(m, mv)
  }

  /**
    Plays m on b the way the legality filter does: first the destination receives the moving
    piece, then the source is cleared. For a pass the second write undoes the first, so the
    piece is briefly off the board.
   */
  function Simulate(b: Grid, m: Move): (r: Grid)
    ensures Get(r, m.src) == None
    ensures m.src != m.dst ==> Get(r, m.dst) == m.srcPiece
    ensures forall q :: q != m.src && q != m.dst ==> Get(r, q) == Get(b, q)
  {
    Put(Put(b, m.dst, m.srcPiece), m.src, None)
  }

  /** Undoes m from its snapshots: the source gets its piece back, then the destination its own. */
  function Restore(b: Grid, m: Move): (r: Grid)
    ensures Get(r, m.dst) == m.dstPiece
    ensures m.src != m.dst ==> Get(r, m.src) == m.srcPiece
    ensures forall q :: q != m.src && q != m.dst ==> Get(r, q) == Get(b, q)
  {
    Put(Put(b, m.src, m.srcPiece), m.dst, m.dstPiece)
  }

  /** Simulating a move whose snapshots match the board and then restoring it gives back the board. */
  lemma RoundTrip(b: Grid, m: Move)
    requires Snapshot(b, m)
    ensures Restore(Simulate(b, m), m) == b
  {
    var r := Restore(Simulate(b, m), m);
    forall q ensures Get(r, q) == Get(b, q) {
    }
    GridExt(r, b);
  }

  /** Simulating a pass lifts the piece off the board and changes nothing else. */
  lemma SimulatedPassRemoves(b: Grid, m: Move)
    requires IsPass(m)
    ensures Simulate(b, m) == b - {m.src}
  {
    var r := Simulate(b, m);
    forall q ensures Get(r, q) == Get(b - {m.src}, q) {
    }
    GridExt(r, b - {m.src});
  }
}
