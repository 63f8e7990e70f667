/**
  The legality filter. A generated move is kept only if, played out on the board, it leaves
  no move of the opponent ending on the mover's general. Afterwards the board and the turn
  are put back exactly as they were.
 */
module Legality {
  import opened Wrappers
  import opened Pieces
  import opened Board
  import opened Moves
  import opened Generators
  import opened Rules

  /** Which sides are flagged in check. */
  datatype Checks = Checks(red: bool, blue: bool) {
    function Of(s: Side): bool {
      match s
      case Red => red
      case Blue => blue
    }

    /** The flags with side s's flag set to v and the other side's flag kept. */
    function Set(s: Side, v: bool): (c: Checks)
      ensures c.Of(s) == v && c.Of(Opponent(s)) == Of(Opponent(s))
    {
      match s
      case Red => this.(red := v)
      case Blue => this.(blue := v)
    }
  }

  // ---------------------------------------------------------------------------------------------
  // Locating a general
  // ---------------------------------------------------------------------------------------------

  /** The first cell of cells, in order, that holds side's general; `None` if there is none. */
  function FindGeneral(b: Grid, side: Side, cells: seq<Pos>): (r: Option<Pos>)
    ensures r.None? <==> forall i :: 0 <= i < |cells| ==> Get(b, cells[i]) != Some(Piece(General, side))
    ensures r.Some? ==> r.value in cells && Get(b, r.value) == Some(Piece(General, side))
    ensures r.Some? ==> exists i :: (
      && 0 <= i < |cells| && cells[i] == r.value
      && forall j :: 0 <= j < i ==> Get(b, cells[j]) != Some(Piece(General, side)))
  {
    if cells == [] then None
    else if Get(b, cells[0]) == Some(Piece(General, side)) then Some(cells[0])
    else
      var r := FindGeneral(b, side, cells[1..]);
      assert forall i :: 1 <= i < |cells| ==> cells[i] == cells[1..][i - 1];
      r
  }

  /** Where side's general stands, searching only the palace cells and in their listed order. */
  function GeneralLocation(b: Grid, side: Side): (r: Option<Pos>)
    ensures r.None? <==> forall i :: 0 <= i < |Fortress| ==> Get(b, Fortress[i]) != Some(Piece(General, side))
    ensures r.Some? ==> exists i :: (
      && 0 <= i < |Fortress| && Fortress[i] == r.value && Get(b, Fortress[i]) == Some(Piece(General, side))
      && forall j :: 0 <= j < i ==> Get(b, Fortress[j]) != Some(Piece(General, side)))
  {
    FindGeneral(b, side, Fortress)
  }

  /**
    The search finds a general exactly when some palace cell holds one, and what it finds is
    a palace cell holding that general.
   */
  lemma GeneralLocationRule(b: Grid, side: Side)
    ensures GeneralLocation(b, side).None? <==> forall q :: InFortress(q) ==> Get(b, q) != Some(Piece(General, side))
    ensures GeneralLocation(b, side).Some? ==>
      InFortress(GeneralLocation(b, side).value) && Get(b, GeneralLocation(b, side).value) == Some(Piece(General, side))
  {
    var g := GeneralLocation(b, side);
    if g.Some? {
      FortressShape(g.value);
    } else {
      forall q | InFortress(q) ensures Get(b, q) != Some(Piece(General, side)) {
        FortressShape(q);
        var i :| 0 <= i < |Fortress| && Fortress[i] == q;
      }
    }
  }

  /** When a single palace cell holds side's general, the search returns that cell. */
  lemma UniqueGeneral(b: Grid, side: Side, g: Pos)
    requires InFortress(g) && Get(b, g) == Some(Piece(General, side))
    requires forall q :: InFortress(q) && Get(b, q) == Some(Piece(General, side)) ==> q == g
    ensures GeneralLocation(b, side) == Some(g)
  {
    GeneralLocationRule(b, side);
  }

  /** Two boards that agree everywhere but at p, where neither holds side's general, locate it alike. */
  lemma {:induction false} FindGeneralFrame(a: Grid, b: Grid, side: Side, cells: seq<Pos>, p: Pos)
    requires forall q :: q != p ==> Get(a, q) == Get(b, q)
    requires Get(a, p) != Some(Piece(General, side)) && Get(b, p) != Some(Piece(General, side))
    ensures FindGeneral(a, side, cells) == FindGeneral(b, side, cells)
  {
    if cells != [] {
      FindGeneralFrame(a, b, side, cells[1..], p);
    }
  }

  // ---------------------------------------------------------------------------------------------
  // Exposure and the filter
  // ---------------------------------------------------------------------------------------------

  /**
    side's general, as located by the palace search, is the destination of one of the
    opponent's possible moves (generated with the opponent's own check flag).
   */
  predicate Attacked(b: Grid, side: Side, enemyInCheck: bool) {
    var g := GeneralLocation(b, side);
    g.Some? && exists e :: e in AllPossibleMoves(b, Opponent(side), enemyInCheck) && e.dst == g.value
  }

  /** Playing m, the way the filter plays it, leaves side's general attacked. */
  predicate Exposes(b: Grid, side: Side, checks: Checks, m: Move) {
    Attacked(Simulate(b, m), side, checks.Of(Opponent(side)))
  }

  /** The moves of ms, in order, that keep accepts. */
  function Filter(keep: Move -> bool, ms: seq<Move>): (r: seq<Move>)
    ensures forall m :: m in r <==> m in ms && keep(m)
    ensures |r| <= |ms|
  {
    if ms == [] then []
    else
      var init := ms[..|ms| - 1];
      var last := ms[|ms| - 1];
      assert ms == init + [last];
      Filter(keep, init) + (if keep(last) then [last] else [])
  }

  /** Filtering one more move appends it exactly when it is accepted. */
  lemma FilterAppend(keep: Move -> bool, ms: seq<Move>, m: Move)
    ensures Filter(keep, ms + [m]) == Filter(keep, ms) + (if keep(m) then [m] else [])
  {
    assert (ms + [m])[..|ms|] == ms;
  }

  /** A test that accepts none of the moves leaves nothing. */
  lemma {:induction false} FilterNone(keep: Move -> bool, ms: seq<Move>)
    requires forall m :: m in ms ==> !keep(m)
    ensures Filter(keep, ms) == []
    decreases |ms|
  {
    if ms != [] {
      var init := ms[..|ms| - 1];
      assert forall m :: m in init ==> m in ms;
      FilterNone(keep, init);
      assert ms[|ms| - 1] in ms;
    }
  }

  /** The filter's test: a move is kept when it does not expose side's general. */
  function SafeFor(b: Grid, side: Side, checks: Checks): Move -> bool {
    m => !Exposes(b, side, checks, m)
  }

  lemma PrefixStep<T>(s: seq<T>, i: int)
    requires 0 <= i < |s|
    ensures s[..i + 1] == s[..i] + [s[i]]
  {
  }

  /**
    The valid moves of side: exactly its possible moves that do not expose its general, in
    the order the board scan produces them.
   */
  function ValidMoves(b: Grid, side: Side, checks: Checks): (r: seq<Move>)
    ensures forall m :: m in r <==> m in AllPossibleMoves(b, side, checks.Of(side)) && !Exposes(b, side, checks, m)
  {
    Filter(SafeFor(b, side, checks), AllPossibleMoves(b, side, checks.Of(side)))
  }

  /** Whether some move of enemyMoves ends on the general's cell (no general, no hit). */
  method HitsGeneral(enemyMoves: seq<Move>, general: Option<Pos>) returns (attacked: bool)
    ensures attacked <==> general.Some? && exists e :: e in enemyMoves && e.dst == general.value
  {
    // The game stops at the first hit; scanning on gives the same verdict.
    attacked := false;
    for j := 0 to |enemyMoves|
      invariant attacked <==> general.Some? && exists k :: 0 <= k < j && enemyMoves[k].dst == general.value
    {
      if general == Some(enemyMoves[j].dst) {
        attacked := true;
      }
    }
    if general.Some? && exists e :: e in enemyMoves && e.dst == general.value {
      var e :| e in enemyMoves && e.dst == general.value;
      var k :| 0 <= k < |enemyMoves| && enemyMoves[k] == e;
    }
  }

  /**
    One probe of the filter: write mv's destination, clear its source, hand the turn over,
    look for an opponent move onto the mover's general, then restore both cells and the
    turn. It reports whether mv exposes the general and hands back the board and the turn.
   */
  method ProbeMove(b0: Grid, turn0: Side, checks: Checks, mv: Move) returns (attacked: bool, board: Grid, turn: Side)
    requires Snapshot(b0, mv)
    ensures attacked == Exposes(b0, turn0, checks, mv)
    ensures board == b0 && turn == turn0
  {
    board, turn := b0, turn0;
    var player := turn;
    board := Put(board, mv.dst, mv.srcPiece);
    board := Put(board, mv.src, None);
    turn := Opponent(turn);
    var enemyMoves := AllPossibleMoves(board, turn, checks.Of(turn));
    var general := GeneralLocation(board, player);
    attacked := HitsGeneral(enemyMoves, general);
    board := Put(board, mv.src, mv.srcPiece);
    board := Put(board, mv.dst, mv.dstPiece);
    RoundTrip(b0, mv);
    turn := Opponent(turn);
  }

  /** Probes mv and appends it to valid when it does not expose the general. */
  method KeepIfSafe(b0: Grid, turn0: Side, checks: Checks, valid: seq<Move>, mv: Move)
    returns (valid': seq<Move>, board: Grid, turn: Side)
    requires Snapshot(b0, mv)
    ensures valid' == valid + (if SafeFor(b0, turn0, checks)(mv) then [mv] else [])
    ensures board == b0 && turn == turn0
  {
    var attacked;
    attacked, board, turn := ProbeMove(b0, turn0, checks, mv);
    valid' := if attacked then valid else valid + [mv];
  }

  /**
    The filter's loop: probe each move of possible in order and keep those that do not expose
    the general, handing back the board and the turn it was given.
   */
  method KeepSafeMoves(b0: Grid, turn0: Side, checks: Checks, possible: seq<Move>) returns (valid: seq<Move>, board: Grid, turn: Side)
    requires forall m :: m in possible ==> Snapshot(b0, m)
    ensures valid == Filter(SafeFor(b0, turn0, checks), possible)
    ensures board == b0 && turn == turn0
  {
    board, turn := b0, turn0;
    valid := [];
    for i := 0 to |possible|
      invariant board == b0 && turn == turn0
      invariant valid == Filter(SafeFor(b0, turn0, checks), possible[..i])
    {
      FilterAppend(SafeFor(b0, turn0, checks), possible[..i], possible[i]);
      PrefixStep(possible, i);
      valid, board, turn := KeepIfSafe(board, turn, checks, valid, possible[i]);
    }
    assert possible[..|possible|] == possible;
  }

  /**
    The filter as the game runs it: the possible moves of the side to move, kept when they do
    not expose its general. It answers the valid moves and hands back the board and the turn
    it was given.
   */
  method GetAllValidMoves(b0: Grid, turn0: Side, checks: Checks) returns (valid: seq<Move>, board: Grid, turn: Side)
    ensures valid == ValidMoves(b0, turn0, checks)
    ensures board == b0 && turn == turn0
  {
    var possible := AllPossibleMoves(b0, turn0, checks.Of(turn0));
    valid, board, turn := KeepSafeMoves(b0, turn0, checks, possible);
  }

  // ---------------------------------------------------------------------------------------------
  // What the valid moves are
  // ---------------------------------------------------------------------------------------------

  /**
    A move is valid exactly when it starts on a board cell holding a piece of the side to
    move, that piece's rule allows it (or it is the pass, out of check), and playing it does
    not expose the mover's general.
   */
  lemma ValidMovesRule(b: Grid, side: Side, checks: Checks, m: Move)
    ensures m in ValidMoves(b, side, checks) <==>
      && InBoard(m.src) && Get(b, m.src).Some? && Get(b, m.src).value.side == side
      && Allowed(b, checks.Of(side), m.src, m, Reach(b, side, m.src, m.dst, Get(b, m.src).value.kind))
      && !Exposes(b, side, checks, m)
  {
    AllPossibleRule(b, side, checks.Of(side), m);
  }

  /** A side flagged in check is never offered the pass. */
  lemma NoPassInCheck(b: Grid, side: Side, checks: Checks, m: Move)
    requires checks.Of(side) && m in ValidMoves(b, side, checks)
    ensures m.dst != m.src
  {
    ValidMovesRule(b, side, checks, m);
    if m.dst == m.src {
      NoRuleStandsStill(b, side, m.src, Get(b, m.src).value.kind);
      assert false;
    }
  }
}
