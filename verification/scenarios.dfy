/**
  Consequences of the rules in particular positions: the opening, a cannon without a screen,
  a lone general's step, a pass that the filter refuses, a pass that it accepts although
  the general stands attacked, and a checkmate.
 */
module Scenarios {
  import opened Wrappers
  import opened Pieces
  import opened Board
  import opened Layout
  import opened Moves
  import opened Generators
  import opened Rules
  import opened Legality
  import opened Coordinates
  import opened Janggi

  /** A new game: BLUE moves first, nobody is in check, and all 32 pieces stand on the board. */
  lemma NewGame()
    ensures InitialGame.turn == Blue && InitialGame.state == Unfinished
    ensures !InitialGame.checks.Of(Red) && !InitialGame.checks.Of(Blue)
    ensures WellFormed(InitialGame.board) && |InitialGame.board| == 32
    ensures GeneralLocation(InitialGame.board, Blue) == Some(Pos(8, 4))
    ensures GeneralLocation(InitialGame.board, Red) == Some(Pos(1, 4))
  {
    InitialLayout();
    OpeningGeneral(Blue, Pos(8, 4));
    OpeningGeneral(Red, Pos(1, 4));
  }

  /** Each side's general starts alone in its palace, on the middle file one rank in. */
  lemma OpeningGeneral(side: Side, g: Pos)
    requires g == Pos(if side == Red then 1 else 8, 4)
    ensures GeneralLocation(Initial, side) == Some(g)
  {
    InitialAt(g);
    forall q | InFortress(q) && Get(Initial, q) == Some(Piece(General, side)) ensures q == g {
      InitialAt(q);
    }
    UniqueGeneral(Initial, side, g);
  }

  // ---------------------------------------------------------------------------------------------
  // A cannon needs a screen
  // ---------------------------------------------------------------------------------------------

  lemma ParseB8B5()
    ensures ConvertLocation("b8") == Some(Pos(7, 1)) && ConvertLocation("b5") == Some(Pos(4, 1))
  {
    assert "b8"[1..] == "8";
    assert "b5"[1..] == "5";
  }

  /** In the opening, BLUE's cannon on b8 has nothing to jump over on its way to b5. */
  lemma NoScreenOnB()
    ensures !CannonReach(Initial, Blue, Pos(7, 1), Pos(4, 1))
  {
    forall x ensures !Screen(Initial, Pos(7, 1), Pos(4, 1), x) {
      if Between(Pos(7, 1), Pos(4, 1), x) {
        assert x == Pos(5, 1) || x == Pos(6, 1);
        InitialAt(x);
      }
    }
  }

  /** A possible move is a move of its source piece's generator. */
  lemma PossibleMoveOf(b: Grid, side: Side, inCheck: bool, e: Move, k: Kind)
    requires e in AllPossibleMoves(b, side, inCheck) && Get(b, e.src) == Some(Piece(k, side))
    ensures InBoard(e.src) && e in PieceMoves(b, side, inCheck, e.src, k)
  {
    AllPossibleSound(b, side, inCheck, e);
  }

  /** So the cannon's generator has no move from b8 to b5. */
  lemma CannonB8(m: Move)
    requires m in PieceMoves(Initial, Blue, false, Pos(7, 1), Cannon)
    ensures m.dst != Pos(4, 1)
  {
    PieceRule(Initial, Blue, false, Pos(7, 1), Cannon, m);
    NoScreenOnB();
  }

  lemma NoCannonMoveB8B5(m: Move)
    requires m in AllPossibleMoves(Initial, Blue, false) && m.src == Pos(7, 1)
    ensures m.dst != Pos(4, 1)
  {
    InitialAt(Pos(7, 1));
    PossibleMoveOf(Initial, Blue, false, m, Cannon);
    CannonB8(m);
  }

  /** The opening request b8 to b5 is refused, and the game stays as it is. */
  lemma CannonWithoutScreenRefused()
    ensures !MakeMove(InitialGame, "b8", "b5").ok && MakeMove(InitialGame, "b8", "b5").game == InitialGame
  {
    var g := InitialGame;
    ParseB8B5();
    var mv := MkMove(g.board, Pos(7, 1), Pos(4, 1));
    OfferedIsValid(g, Pos(7, 1), Pos(4, 1));
    if mv in ValidMoves(g.board, g.turn, g.checks) {
      NoCannonMoveB8B5(mv);
    }
  }

  // ---------------------------------------------------------------------------------------------
  // Two lone generals
  // ---------------------------------------------------------------------------------------------

  /** A general's possible move is the pass or one step to a neighbouring cell. */
  lemma GeneralStep(b: Grid, side: Side, inCheck: bool, e: Move)
    requires e in AllPossibleMoves(b, side, inCheck) && Get(b, e.src) == Some(Piece(General, side))
    ensures Abs(e.dst.row - e.src.row) <= 1 && Abs(e.dst.col - e.src.col) <= 1
  {
    PossibleMoveOf(b, side, inCheck, e, General);
    PalaceStep(b, side, inCheck, e);
  }

  lemma PalaceStep(b: Grid, side: Side, inCheck: bool, e: Move)
    requires InBoard(e.src) && e in PieceMoves(b, side, inCheck, e.src, General)
    ensures Abs(e.dst.row - e.src.row) <= 1 && Abs(e.dst.col - e.src.col) <= 1
  {
    PieceRule(b, side, inCheck, e.src, General, e);
  }

  const Generals: Grid := map[Pos(8, 4) := Piece(General, Blue), Pos(1, 4) := Piece(General, Red)]

  const Stepped: Grid := map[Pos(7, 4) := Piece(General, Blue), Pos(1, 4) := Piece(General, Red)]

  lemma SteppedBoard()
    ensures Apply(Generals, Pos(8, 4), Pos(7, 4)) == Stepped
    ensures Simulate(Generals, MkMove(Generals, Pos(8, 4), Pos(7, 4))) == Stepped
  {
    var a := Apply(Generals, Pos(8, 4), Pos(7, 4));
    forall q ensures Get(a, q) == Get(Stepped, q) {
    }
    GridExt(a, Stepped);
  }

  lemma SteppedGenerals()
    ensures GeneralLocation(Stepped, Blue) == Some(Pos(7, 4))
    ensures GeneralLocation(Stepped, Red) == Some(Pos(1, 4))
  {
    UniqueGeneral(Stepped, Blue, Pos(7, 4));
    UniqueGeneral(Stepped, Red, Pos(1, 4));
  }

  lemma ParseE9E8()
    ensures ConvertLocation("e9") == Some(Pos(8, 4)) && ConvertLocation("e8") == Some(Pos(7, 4))
  {
    assert "e9"[1..] == "9";
    assert "e8"[1..] == "8";
  }

  /** A piece's generator move of a known kind is a possible move of its side. */
  lemma PieceMoveIsPossible(b: Grid, side: Side, inCheck: bool, k: Kind, m: Move)
    requires InBoard(m.src) && Get(b, m.src) == Some(Piece(k, side))
    requires m in PieceMoves(b, side, inCheck, m.src, k)
    ensures m in AllPossibleMoves(b, side, inCheck)
  {
    AllPossibleComplete(b, side, inCheck, m);
  }

  /** A general's step within the palace onto an empty or enemy-held cell is generated. */
  lemma PalaceStepGenerated(b: Grid, side: Side, inCheck: bool, p: Pos, q: Pos)
    requires InBoard(p) && PalaceReach(b, side, p, q)
    ensures MkMove(b, p, q) in PieceMoves(b, side, inCheck, p, General)
  {
    PieceRule(b, side, inCheck, p, General, MkMove(b, p, q));
  }

  lemma LoneGeneralStepGenerated()
    ensures MkMove(Generals, Pos(8, 4), Pos(7, 4)) in PieceMoves(Generals, Blue, false, Pos(8, 4), General)
  {
    PalaceStepGenerated(Generals, Blue, false, Pos(8, 4), Pos(7, 4));
  }

  lemma LoneGeneralStepPossible()
    ensures MkMove(Generals, Pos(8, 4), Pos(7, 4)) in AllPossibleMoves(Generals, Blue, false)
  {
    LoneGeneralStepGenerated();
    PieceMoveIsPossible(Generals, Blue, false, General, MkMove(Generals, Pos(8, 4), Pos(7, 4)));
  }

  /** On the stepped board, each side's only piece is its general. */
  lemma SteppedSource(side: Side, e: Move)
    requires Get(Stepped, e.src).Some? && Get(Stepped, e.src).value.side == side
    ensures Get(Stepped, e.src) == Some(Piece(General, side))
    ensures e.src == if side == Red then Pos(1, 4) else Pos(7, 4)
  {
  }

  /** After the step, RED's lone general cannot reach BLUE's. */
  lemma SteppedSafe()
    ensures !Attacked(Stepped, Blue, false)
  {
    SteppedGenerals();
    forall e | e in AllPossibleMoves(Stepped, Red, false) ensures e.dst != Pos(7, 4) {
      SteppedSource(Red, e);
      GeneralStep(Stepped, Red, false, e);
    }
  }

  /** With only the two generals on the board, BLUE's step from e9 to e8 is valid. */
  lemma LoneGeneralStepValid()
    ensures MkMove(Generals, Pos(8, 4), Pos(7, 4)) in ValidMoves(Generals, Blue, Checks(false, false))
  {
    SteppedBoard();
    SteppedSafe();
    LoneGeneralStepPossible();
    SafeMoveValid(Generals, Blue, Checks(false, false), MkMove(Generals, Pos(8, 4), Pos(7, 4)));
  }

  /** A possible move that, tried the filter's way, exposes nothing is valid. */
  lemma SafeMoveValid(b: Grid, side: Side, checks: Checks, m: Move)
    requires m in AllPossibleMoves(b, side, checks.Of(side))
    requires !Attacked(Simulate(b, m), side, checks.Of(Opponent(side)))
    ensures m in ValidMoves(b, side, checks)
  {
  }

  /** After the step, no valid move of BLUE's reaches RED's general. */
  lemma LoneGeneralStepNoCheck()
    ensures !Threatens(Game(Stepped, Blue, Unfinished, Checks(false, false)))
  {
    SteppedGenerals();
    forall m | m in ValidMoves(Stepped, Blue, Checks(false, false)) ensures m.dst != Pos(1, 4) {
      SteppedSource(Blue, m);
      GeneralStep(Stepped, Blue, false, m);
    }
  }

  /**
    With only the two generals on the board, BLUE's general may step from e9 to e8: the move
    is accepted, RED gets the turn, nobody is in check and the game goes on.
   */
  lemma LoneGeneralStep()
    ensures var r := MakeMove(Game(Generals, Blue, Unfinished, Checks(false, false)), "e9", "e8");
      && r.ok && r.game.board == Stepped && r.game.turn == Red
      && r.game.state == Unfinished && !r.game.checks.Of(Red) && !r.game.checks.Of(Blue)
  {
    var g := Game(Generals, Blue, Unfinished, Checks(false, false));
    ParseE9E8();
    SteppedBoard();
    LoneGeneralStepValid();
    OfferedIsValid(g, Pos(8, 4), Pos(7, 4));
    LoneGeneralStepNoCheck();
    assert Moved(g, Pos(8, 4), Pos(7, 4)) == Game(Stepped, Blue, Unfinished, Checks(false, false));
  }

  // ---------------------------------------------------------------------------------------------
  // A screening piece cannot pass
  // ---------------------------------------------------------------------------------------------

  /** Out of check, every piece of the side to move has its pass among the possible moves. */
  lemma PassIsPossible(b: Grid, side: Side, p: Pos)
    requires InBoard(p) && Get(b, p).Some? && Get(b, p).value.side == side
    ensures MkMove(b, p, p) in AllPossibleMoves(b, side, false)
  {
    var k := Get(b, p).value.kind;
    PassRule(b, side, false, p, k);
    PieceMoveIsPossible(b, side, false, k, MkMove(b, p, p));
  }

  /** A chariot with a clear line to an enemy-held or empty cell may move there. */
  lemma ChariotHits(b: Grid, side: Side, inCheck: bool, c: Pos, q: Pos)
    requires InBoard(c) && Get(b, c) == Some(Piece(Chariot, side))
    requires InBoard(q) && EmptyOrEnemy(b, side, q) && Orthogonal(c, q) && LineClear(b, c, q)
    ensures MkMove(b, c, q) in AllPossibleMoves(b, side, inCheck)
  {
    PieceRule(b, side, inCheck, c, Chariot, MkMove(b, c, q));
    PieceMoveIsPossible(b, side, inCheck, Chariot, MkMove(b, c, q));
  }

  /** A chariot cannot move along a line through an occupied cell. */
  lemma ChariotBlocked(b: Grid, side: Side, inCheck: bool, c: Pos, q: Pos, x: Pos)
    requires Get(b, c) == Some(Piece(Chariot, side))
    requires Orthogonal(c, q) && Between(c, q, x) && Get(b, x).Some?
    ensures MkMove(b, c, q) !in AllPossibleMoves(b, side, inCheck)
  {
    var m := MkMove(b, c, q);
    if m in AllPossibleMoves(b, side, inCheck) {
      PossibleMoveOf(b, side, inCheck, m, Chariot);
      ChariotLineBlocked(b, side, inCheck, c, q, x);
    }
  }

  lemma ChariotLineBlocked(b: Grid, side: Side, inCheck: bool, c: Pos, q: Pos, x: Pos)
    requires InBoard(c) && Orthogonal(c, q) && Between(c, q, x) && Get(b, x).Some?
    ensures MkMove(b, c, q) !in PieceMoves(b, side, inCheck, c, Chariot)
  {
    PieceRule(b, side, inCheck, c, Chariot, MkMove(b, c, q));
  }

  /**
    The filter plays a pass by writing the piece onto its own cell and then clearing that
    cell, so the probe takes the piece off the board. A piece that alone shields its general
    from an enemy chariot is therefore refused the pass, although the pass itself would leave
    the board exactly as it is, with the chariot's line still blocked.
   */
  lemma ScreenCannotPass(b: Grid, side: Side, checks: Checks, p: Pos, c: Pos, g: Pos)
    requires InBoard(p) && Get(b, p).Some? && Get(b, p).value.side == side && Get(b, p).value.kind != General
    requires !checks.Of(side)
    requires GeneralLocation(b, side) == Some(g)
    requires InBoard(c) && Get(b, c) == Some(Piece(Chariot, Opponent(side)))
    requires Orthogonal(c, g) && Between(c, g, p)
    requires forall y :: Between(c, g, y) && y != p ==> Get(b, y).None?
    ensures MkMove(b, p, p) in AllPossibleMoves(b, side, checks.Of(side))
    ensures MkMove(b, p, p) !in ValidMoves(b, side, checks)
    ensures Apply(b, p, p) == b
    ensures MkMove(b, c, g) !in AllPossibleMoves(b, Opponent(side), checks.Of(Opponent(side)))
  {
    var pass := MkMove(b, p, p);
    PassIsPossible(b, side, p);
    PassExposes(b, side, checks, p, c, g);
    ChariotBlocked(b, Opponent(side), checks.Of(Opponent(side)), c, g, p);
  }

  /** With the shielding piece lifted, the chariot's line to the general is clear. */
  lemma PassExposes(b: Grid, side: Side, checks: Checks, p: Pos, c: Pos, g: Pos)
    requires Get(b, p).Some? && Get(b, p).value.kind != General
    requires GeneralLocation(b, side) == Some(g)
    requires InBoard(c) && Get(b, c) == Some(Piece(Chariot, Opponent(side)))
    requires Orthogonal(c, g) && Between(c, g, p)
    requires forall y :: Between(c, g, y) && y != p ==> Get(b, y).None?
    ensures Exposes(b, side, checks, MkMove(b, p, p))
  {
    var after := Simulate(b, MkMove(b, p, p));
    FindGeneralFrame(b, after, side, Fortress, p);
    GeneralLocationRule(b, side);
    FortressShape(g);
    assert LineClear(after, c, g);
    ChariotHits(after, Opponent(side), checks.Of(Opponent(side)), c, g);
  }

  // ---------------------------------------------------------------------------------------------
  // A pass that leaves the general attacked
  // ---------------------------------------------------------------------------------------------

  /**
    BLUE's general on e9 behind its own soldier on e6, with RED's cannon on e4 aimed down the
    file and RED's general on e2.
   */
  const Shielded: Grid := map[
    Pos(8, 4) := Piece(General, Blue), Pos(5, 4) := Piece(Soldier, Blue),
    Pos(3, 4) := Piece(Cannon, Red), Pos(1, 4) := Piece(General, Red)]

  /** The same board with the soldier lifted, as the filter tries the soldier's pass. */
  const Lifted: Grid := map[Pos(8, 4) := Piece(General, Blue), Pos(3, 4) := Piece(Cannon, Red), Pos(1, 4) := Piece(General, Red)]

  lemma LiftedBoard()
    ensures Simulate(Shielded, MkMove(Shielded, Pos(5, 4), Pos(5, 4))) == Lifted
  {
    var a := Simulate(Shielded, MkMove(Shielded, Pos(5, 4), Pos(5, 4)));
    forall q ensures Get(a, q) == Get(Lifted, q) {
    }
    GridExt(a, Lifted);
  }

  lemma ShieldedGeneral()
    ensures GeneralLocation(Shielded, Blue) == Some(Pos(8, 4))
  {
    forall q | InFortress(q) && Get(Shielded, q) == Some(Piece(General, Blue)) ensures q == Pos(8, 4) {
    }
    UniqueGeneral(Shielded, Blue, Pos(8, 4));
  }

  lemma LiftedGeneral()
    ensures GeneralLocation(Lifted, Blue) == Some(Pos(8, 4))
  {
    forall q | InFortress(q) && Get(Lifted, q) == Some(Piece(General, Blue)) ensures q == Pos(8, 4) {
    }
    UniqueGeneral(Lifted, Blue, Pos(8, 4));
  }

  /** With the soldier lifted, the cannon has nothing to jump over on its way to e9. */
  lemma LiftedCannonBlind()
    ensures !CannonReach(Lifted, Red, Pos(3, 4), Pos(8, 4))
  {
    forall x ensures !Screen(Lifted, Pos(3, 4), Pos(8, 4), x) {
      if Between(Pos(3, 4), Pos(8, 4), x) {
        assert x.col == 4 && 3 < x.row < 8;
      }
    }
  }

  /** On the lifted board RED has only its cannon on e4 and its general on e2. */
  lemma LiftedSource(e: Move)
    requires Get(Lifted, e.src).Some? && Get(Lifted, e.src).value.side == Red
    ensures e.src == Pos(3, 4) || e.src == Pos(1, 4)
    ensures Get(Lifted, e.src) == Some(Piece(if e.src == Pos(3, 4) then Cannon else General, Red))
  {
  }

  /** No possible move of RED's on the lifted board ends on e9. */
  lemma LiftedMiss(e: Move)
    requires e in AllPossibleMoves(Lifted, Red, false)
    ensures e.dst != Pos(8, 4)
  {
    LiftedSource(e);
    if e.src == Pos(1, 4) {
      GeneralStep(Lifted, Red, false, e);
    } else {
      LiftedCannonBlind();
      CannonMiss(Lifted, Red, false, e, Pos(8, 4));
    }
  }

  /** A cannon's possible move ends nowhere its rule does not reach, other than its own cell. */
  lemma CannonMiss(b: Grid, side: Side, inCheck: bool, e: Move, t: Pos)
    requires e in AllPossibleMoves(b, side, inCheck) && Get(b, e.src) == Some(Piece(Cannon, side))
    requires t != e.src && !CannonReach(b, side, e.src, t)
    ensures e.dst != t
  {
    PossibleMoveOf(b, side, inCheck, e, Cannon);
    CannonGeneratorMiss(b, side, inCheck, e, t);
  }

  lemma CannonGeneratorMiss(b: Grid, side: Side, inCheck: bool, m: Move, t: Pos)
    requires InBoard(m.src) && m in PieceMoves(b, side, inCheck, m.src, Cannon)
    requires t != m.src && !CannonReach(b, side, m.src, t)
    ensures m.dst != t
  {
    PieceRule(b, side, inCheck, m.src, Cannon, m);
  }

  /** So the soldier's pass, tried the filter's way, exposes nothing. */
  lemma LiftedSafe()
    ensures !Attacked(Lifted, Blue, false)
  {
    LiftedGeneral();
    forall e | e in AllPossibleMoves(Lifted, Red, false) ensures e.dst != Pos(8, 4) {
      LiftedMiss(e);
    }
  }

  /** On the real board the cannon jumps the soldier onto BLUE's general. */
  lemma ShieldedCannonHits()
    ensures MkMove(Shielded, Pos(3, 4), Pos(8, 4)) in AllPossibleMoves(Shielded, Red, false)
  {
    var m := MkMove(Shielded, Pos(3, 4), Pos(8, 4));
    assert Screen(Shielded, Pos(3, 4), Pos(8, 4), Pos(5, 4));
    PieceRule(Shielded, Red, false, Pos(3, 4), Cannon, m);
    PieceMoveIsPossible(Shielded, Red, false, Cannon, m);
  }

  /** The soldier's pass is among BLUE's valid moves. */
  lemma ShieldedPassValid()
    ensures MkMove(Shielded, Pos(5, 4), Pos(5, 4)) in ValidMoves(Shielded, Blue, Checks(false, false))
  {
    LiftedBoard();
    LiftedSafe();
    SafePassValid(Shielded, Blue, Checks(false, false), Pos(5, 4));
  }

  /** Out of check, a piece's pass is valid when, tried the filter's way, it exposes nothing. */
  lemma SafePassValid(b: Grid, side: Side, checks: Checks, p: Pos)
    requires InBoard(p) && Get(b, p).Some? && Get(b, p).value.side == side && !checks.Of(side)
    requires !Attacked(Simulate(b, MkMove(b, p, p)), side, checks.Of(Opponent(side)))
    ensures MkMove(b, p, p) in ValidMoves(b, side, checks)
  {
    PassIsPossible(b, side, p);
    SafeMoveValid(b, side, checks, MkMove(b, p, p));
  }

  /** As the board stands, RED's cannon attacks BLUE's general. */
  lemma ShieldedAttacked()
    ensures Attacked(Shielded, Blue, false)
  {
    ShieldedGeneral();
    ShieldedCannonHits();
  }

  /** A valid move is accepted while the game is on, and the board becomes the move applied. */
  lemma ValidMoveAccepted(g: Game, src: Pos, dst: Pos)
    requires g.state == Unfinished && MkMove(g.board, src, dst) in ValidMoves(g.board, g.turn, g.checks)
    ensures Play(g, src, dst).ok && Play(g, src, dst).game.board == Apply(g.board, src, dst)
  {
    OfferedIsValid(g, src, dst);
  }

  /**
    The soldier's pass is accepted: lifted for the probe, it no longer screens the cannon, so
    the filter keeps the pass. The pass leaves the board as it was, and there RED's cannon
    reaches BLUE's general.
   */
  lemma PassLeavesGeneralAttacked()
    ensures var g := Game(Shielded, Blue, Unfinished, Checks(false, false));
      var r := Play(g, Pos(5, 4), Pos(5, 4));
      && r.ok && r.game.board == Shielded
      && Attacked(r.game.board, g.turn, g.checks.Of(Opponent(g.turn)))
  {
    ShieldedPassValid();
    ShieldedAttacked();
    ValidMoveAccepted(Game(Shielded, Blue, Unfinished, Checks(false, false)), Pos(5, 4), Pos(5, 4));
  }

  // ---------------------------------------------------------------------------------------------
  // Checkmate
  // ---------------------------------------------------------------------------------------------

  /**
    RED's general alone in the corner of its palace on d1; BLUE's chariots on i2 and a10,
    BLUE's general on e9.
   */
  const Cornered: Grid := map[
    Pos(0, 3) := Piece(General, Red), Pos(1, 8) := Piece(Chariot, Blue),
    Pos(9, 0) := Piece(Chariot, Blue), Pos(8, 4) := Piece(General, Blue)]

  /** The board once the chariot on a10 has gone up to a1. */
  const Mated: Grid := map[
    Pos(0, 3) := Piece(General, Red), Pos(1, 8) := Piece(Chariot, Blue),
    Pos(0, 0) := Piece(Chariot, Blue), Pos(8, 4) := Piece(General, Blue)]

  lemma MatedBoard()
    ensures Apply(Cornered, Pos(9, 0), Pos(0, 0)) == Mated
    ensures Simulate(Cornered, MkMove(Cornered, Pos(9, 0), Pos(0, 0))) == Mated
  {
    var a := Apply(Cornered, Pos(9, 0), Pos(0, 0));
    forall q ensures Get(a, q) == Get(Mated, q) {
    }
    GridExt(a, Mated);
    var s := Simulate(Cornered, MkMove(Cornered, Pos(9, 0), Pos(0, 0)));
    forall q ensures Get(s, q) == Get(Mated, q) {
    }
    GridExt(s, Mated);
  }

  lemma MatedRedGeneral()
    ensures GeneralLocation(Mated, Red) == Some(Pos(0, 3))
  {
    forall q | InFortress(q) && Get(Mated, q) == Some(Piece(General, Red)) ensures q == Pos(0, 3) {
    }
    UniqueGeneral(Mated, Red, Pos(0, 3));
  }

  lemma MatedBlueGeneral()
    ensures GeneralLocation(Mated, Blue) == Some(Pos(8, 4))
  {
    forall q | InFortress(q) && Get(Mated, q) == Some(Piece(General, Blue)) ensures q == Pos(8, 4) {
    }
    UniqueGeneral(Mated, Blue, Pos(8, 4));
  }

  /** RED's lone general cannot reach BLUE's general on e9. */
  lemma MatedBlueSafe()
    ensures !Attacked(Mated, Blue, false)
  {
    MatedBlueGeneral();
    MatedRedAlone();
    LoneGeneralFar(Mated, Blue, false, Pos(8, 4));
  }

  /** RED has nothing on that board but its general on d1, far from e9. */
  lemma MatedRedAlone()
    ensures forall q :: Get(Mated, q).Some? && Get(Mated, q).value.side == Red ==>
      Get(Mated, q) == Some(Piece(General, Red)) && Abs(8 - q.row) > 1
  {
  }

  /**
    A side whose general stands on g is not attacked when the opponent has nothing but its
    general, two or more rows away from g.
   */
  lemma LoneGeneralFar(b: Grid, side: Side, enemyInCheck: bool, g: Pos)
    requires GeneralLocation(b, side) == Some(g)
    requires forall q :: Get(b, q).Some? && Get(b, q).value.side == Opponent(side) ==>
      Get(b, q) == Some(Piece(General, Opponent(side))) && Abs(g.row - q.row) > 1
    ensures !Attacked(b, side, enemyInCheck)
  {
    forall e | e in AllPossibleMoves(b, Opponent(side), enemyInCheck) ensures e.dst != g {
      GeneralMiss(b, Opponent(side), enemyInCheck, e, g);
    }
  }

  /** A general's possible move never ends two or more rows away. */
  lemma GeneralMiss(b: Grid, side: Side, inCheck: bool, e: Move, t: Pos)
    requires e in AllPossibleMoves(b, side, inCheck) && Get(b, e.src) == Some(Piece(General, side))
    requires Abs(t.row - e.src.row) > 1
    ensures e.dst != t
  {
    GeneralStep(b, side, inCheck, e);
  }

  /** BLUE's chariot may go up the a-file from a10 to a1. */
  lemma ChariotLiftValid()
    ensures MkMove(Cornered, Pos(9, 0), Pos(0, 0)) in ValidMoves(Cornered, Blue, Checks(false, false))
  {
    ChariotHits(Cornered, Blue, false, Pos(9, 0), Pos(0, 0));
    MatedBoard();
    MatedBlueSafe();
    SafeMoveValid(Cornered, Blue, Checks(false, false), MkMove(Cornered, Pos(9, 0), Pos(0, 0)));
  }

  /** A side with no piece on the board has no possible move. */
  lemma NoPiecesNoMoves(b: Grid, side: Side, inCheck: bool)
    requires forall q :: Get(b, q).Some? ==> Get(b, q).value.side != side
    ensures forall e :: e !in AllPossibleMoves(b, side, inCheck)
  {
  }

  /** Taking RED's general on d1 leaves RED without a piece, so the capture exposes nothing. */
  lemma CaptureSafe()
    ensures !Exposes(Mated, Blue, Checks(false, false), MkMove(Mated, Pos(0, 0), Pos(0, 3)))
  {
    var after := Simulate(Mated, MkMove(Mated, Pos(0, 0), Pos(0, 3)));
    forall q | Get(after, q).Some? ensures Get(after, q).value.side != Red {
    }
    NoPiecesNoMoves(after, Red, false);
  }

  /** After the lift, the chariot on a1 threatens RED's general along the first row. */
  lemma MatedThreat()
    ensures Threatens(Game(Mated, Blue, Unfinished, Checks(false, false)))
  {
    ChariotHits(Mated, Blue, false, Pos(0, 0), Pos(0, 3));
    CaptureSafe();
    MatedRedGeneral();
    assert MkMove(Mated, Pos(0, 0), Pos(0, 3)) in ValidMoves(Mated, Blue, Checks(false, false));
  }

  /** From the palace corner d1, a general steps only to e1, d2 or e2. */
  lemma CornerSteps(q: Pos)
    requires KingStep(Pos(0, 3), q) && InFortress(q)
    ensures q == Pos(0, 4) || q == Pos(1, 3) || q == Pos(1, 4)
  {
  }

  /** In check, a general's possible move is one step onto a palace cell. */
  lemma GeneralFlight(b: Grid, side: Side, e: Move)
    requires e in AllPossibleMoves(b, side, true) && Get(b, e.src) == Some(Piece(General, side))
    ensures e == MkMove(b, e.src, e.dst) && KingStep(e.src, e.dst) && InFortress(e.dst)
  {
    PossibleMoveOf(b, side, true, e, General);
    GeneratedFlight(b, side, e);
  }

  lemma GeneratedFlight(b: Grid, side: Side, m: Move)
    requires InBoard(m.src) && m in PieceMoves(b, side, true, m.src, General)
    ensures m == MkMove(b, m.src, m.dst) && KingStep(m.src, m.dst) && InFortress(m.dst)
  {
    PieceRule(b, side, true, m.src, General, m);
  }

  /**
    A general stepping from p to t, where a chariot of the other side stands in line with t
    with nothing but p in between, is attacked there.
   */
  lemma FleeCaught(b: Grid, side: Side, enemyInCheck: bool, p: Pos, t: Pos, c: Pos)
    requires Get(b, p) == Some(Piece(General, side)) && InFortress(t) && t != p
    requires forall q :: InFortress(q) && q != p ==> Get(b, q) != Some(Piece(General, side))
    requires Get(b, t).None? || Get(b, t).value.side != side
    requires InBoard(c) && Get(b, c) == Some(Piece(Chariot, Opponent(side))) && c != p && c != t
    requires Orthogonal(c, t) && forall x :: Between(c, t, x) && x != p ==> Get(b, x).None?
    ensures Attacked(Simulate(b, MkMove(b, p, t)), side, enemyInCheck)
  {
    var after := Simulate(b, MkMove(b, p, t));
    FortressShape(t);
    UniqueGeneral(after, side, t);
    assert LineClear(after, c, t);
    ChariotHits(after, Opponent(side), enemyInCheck, c, t);
  }

  /**
    RED's general alone on d1, BLUE's chariots on a1 and i2, and the cells between them and
    the general's three flight cells empty: each flight stays in line with one chariot.
   */
  predicate CornerNet(b: Grid) {
    && Get(b, Pos(0, 3)) == Some(Piece(General, Red))
    && Get(b, Pos(0, 0)) == Some(Piece(Chariot, Blue)) && Get(b, Pos(1, 8)) == Some(Piece(Chariot, Blue))
    && Get(b, Pos(0, 1)).None? && Get(b, Pos(0, 2)).None? && Get(b, Pos(0, 4)).None?
    && Get(b, Pos(1, 3)).None? && Get(b, Pos(1, 4)).None? && Get(b, Pos(1, 5)).None?
    && Get(b, Pos(1, 6)).None? && Get(b, Pos(1, 7)).None?
  }

  /** RED's general alone on d1: a predicate over the board's RED pieces. */
  ghost predicate RedAloneOnD1(b: Grid) {
    forall q :: Get(b, q).Some? && Get(b, q).value.side == Red ==> q == Pos(0, 3)
  }

  /** The flight to e1 stays in line with the chariot on a1. */
  lemma CaughtOnFirstRow(b: Grid)
    requires CornerNet(b) && RedAloneOnD1(b)
    ensures Attacked(Simulate(b, MkMove(b, Pos(0, 3), Pos(0, 4))), Red, false)
  {
    FleeCaught(b, Red, false, Pos(0, 3), Pos(0, 4), Pos(0, 0));
  }

  /** The flights to d2 and e2 stay in line with the chariot on i2. */
  lemma CaughtOnSecondRow(b: Grid, t: Pos)
    requires CornerNet(b) && RedAloneOnD1(b) && (t == Pos(1, 3) || t == Pos(1, 4))
    ensures Attacked(Simulate(b, MkMove(b, Pos(0, 3), t)), Red, false)
  {
    FleeCaught(b, Red, false, Pos(0, 3), t, Pos(1, 8));
  }

  /** In a corner net, RED's possible moves, in check, are the general's three flights. */
  lemma CornerFlight(b: Grid, e: Move)
    requires CornerNet(b) && RedAloneOnD1(b) && e in AllPossibleMoves(b, Red, true)
    ensures e == MkMove(b, Pos(0, 3), e.dst)
    ensures e.dst == Pos(0, 4) || e.dst == Pos(1, 3) || e.dst == Pos(1, 4)
  {
    assert e.src == Pos(0, 3);
    GeneralFlight(b, Red, e);
    CornerSteps(e.dst);
  }

  /** In a corner net, every possible move of RED's general, in check, exposes it. */
  lemma FlightCaught(b: Grid, e: Move)
    requires CornerNet(b) && RedAloneOnD1(b) && e in AllPossibleMoves(b, Red, true)
    ensures Exposes(b, Red, Checks(true, false), e)
  {
    CornerFlight(b, e);
    if e.dst == Pos(0, 4) {
      CaughtOnFirstRow(b);
    } else {
      CaughtOnSecondRow(b, e.dst);
    }
  }

  /** So in a corner net RED, in check, has no valid move. */
  lemma NetIsMate(b: Grid)
    requires CornerNet(b) && RedAloneOnD1(b)
    ensures ValidMoves(b, Red, Checks(true, false)) == []
  {
    forall e | e in AllPossibleMoves(b, Red, true) ensures !SafeFor(b, Red, Checks(true, false))(e) {
      FlightCaught(b, e);
    }
    FilterNone(SafeFor(b, Red, Checks(true, false)), AllPossibleMoves(b, Red, true));
  }

  /** After the lift RED's general is caught in such a net. */
  lemma NoEscape()
    ensures ValidMoves(Mated, Red, Checks(true, false)) == []
  {
    assert RedAloneOnD1(Mated);
    NetIsMate(Mated);
  }

  /**
    BLUE's chariot goes from a10 to a1: the move is accepted, RED is flagged in check, RED's
    general has no safe step left, and BLUE has won.
   */
  lemma Checkmate()
    ensures var r := Play(Game(Cornered, Blue, Unfinished, Checks(false, false)), Pos(9, 0), Pos(0, 0));
      && r.ok && r.game.board == Mated && r.game.turn == Red
      && r.game.checks.Of(Red) && !r.game.checks.Of(Blue) && r.game.state == BlueWon
  {
    var g := Game(Cornered, Blue, Unfinished, Checks(false, false));
    ChariotLiftValid();
    ValidMoveAccepted(g, Pos(9, 0), Pos(0, 0));
    MatedBoard();
    assert Moved(g, Pos(9, 0), Pos(0, 0)) == Game(Mated, Blue, Unfinished, Checks(false, false));
    MatedThreat();
    NoEscape();
    assert Play(g, Pos(9, 0), Pos(0, 0)).game.checks == Checks(true, false);
  }
}
