/**
  The game controller: whose turn it is, the check flags, the game state, and the move
  transition that validates a requested move, plays it, judges check and checkmate, and
  hands the turn over.
 */
module Janggi {
  import opened Wrappers
  import opened Pieces
  import opened Board
  import opened Moves
  import opened Generators
  import opened Rules
  import opened Legality
  import opened Coordinates

  datatype State = Unfinished | RedWon | BlueWon

  /** The state announcing that side s has won. */
  function WonBy(s: Side): State {
    match s
    case Red => RedWon
    case Blue => BlueWon
  }

  datatype Game = Game(board: Grid, turn: Side, state: State, checks: Checks)

  /** A new game: the opening position, BLUE to move, unfinished, nobody in check. */
  const InitialGame: Game := Game(Initial, Blue, Unfinished, Checks(false, false))

  /** Hands the turn to the other side. */
  function ChangeTurns(g: Game): (r: Game)
    ensures r.turn != g.turn
    ensures r.board == g.board && r.state == g.state && r.checks == g.checks
  {
    g.(turn := Opponent(g.turn))
  }

  /** Two hand-overs give the turn back: the turn alternates between the two sides. */
  lemma TurnsAlternate(g: Game)
    ensures ChangeTurns(ChangeTurns(g)) == g
    ensures ChangeTurns(g).turn == Opponent(g.turn)
  {
  }

  // ---------------------------------------------------------------------------------------------
  // Check and checkmate
  // ---------------------------------------------------------------------------------------------

  /**
    The arbiter's loop over the mover's valid moves ms: each move ending on target (the
    opponent's general) flags the opponent in check and, handing it the turn for a moment,
    asks whether it has any valid move left; if not, the mover has won and the loop stops.
   */
  function CheckScan(g: Game, mover: Side, ms: seq<Move>, target: Option<Pos>): (r: Game)
    ensures r.board == g.board && r.turn == g.turn && r.checks.Of(mover) == g.checks.Of(mover)
    ensures r.checks.Of(Opponent(mover)) == (g.checks.Of(Opponent(mover)) || exists m :: m in ms && target == Some(m.dst))
    ensures r.state == g.state || r.state == WonBy(mover)
    decreases |ms|
  {
    if ms == [] then g
    else if target == Some(ms[0].dst) then
      var flagged := g.(checks := g.checks.Set(Opponent(mover), true));
      if ValidMoves(flagged.board, Opponent(mover), flagged.checks) == [] then flagged.(state := WonBy(mover))
      else CheckScan(flagged, mover, ms[1..], target)
    else CheckScan(g, mover, ms[1..], target)
  }

  /** Some valid move of the side to move ends on the cell where the opponent's general is found. */
  predicate Threatens(g: Game) {
    var target := GeneralLocation(g.board, Opponent(g.turn));
    exists m :: m in ValidMoves(g.board, g.turn, g.checks) && target == Some(m.dst)
  }

  /** The verdict of the arbiter, stated once for the whole move list. */
  function Verdict(g: Game, mover: Side): (r: Game)
    ensures r.board == g.board && r.turn == g.turn
    ensures r.checks.Of(Opponent(mover)) && r.checks.Of(mover) == g.checks.Of(mover)
    ensures r.state != g.state ==> r.state == WonBy(mover) && ValidMoves(r.board, Opponent(mover), r.checks) == []
  {
    var checks := g.checks.Set(Opponent(mover), true);
    var mated := ValidMoves(g.board, Opponent(mover), checks) == [];
    Game(g.board, g.turn, if mated then WonBy(mover) else g.state, checks)
  }

  /** The loop reaches the verdict as soon as one move hits the target, and changes nothing otherwise. */
  lemma {:induction false} CheckScanVerdict(g: Game, mover: Side, ms: seq<Move>, target: Option<Pos>)
    ensures CheckScan(g, mover, ms, target) ==
      if exists m :: m in ms && target == Some(m.dst) then Verdict(g, mover) else g
    decreases |ms|
  {
    if ms != [] {
      var rest := ms[1..];
      assert forall m :: m in ms <==> m == ms[0] || m in rest;
      if target == Some(ms[0].dst) {
        var flagged := g.(checks := g.checks.Set(Opponent(mover), true));
        if ValidMoves(flagged.board, Opponent(mover), flagged.checks) != [] {
          CheckScanVerdict(flagged, mover, rest, target);
          assert flagged.checks.Set(Opponent(mover), true) == flagged.checks;
          assert Verdict(flagged, mover) == flagged;
        }
      } else {
        CheckScanVerdict(g, mover, rest, target);
      }
    }
  }

  /**
    Judges the position after the side to move has moved: if one of its valid moves ends on
    the opponent's general, the opponent is flagged in check, and if the opponent then has no
    valid move the mover has won. The board and the turn are left as they are.
   */
  function CheckInCheck(g: Game): (r: Game)
    ensures r.board == g.board && r.turn == g.turn
    ensures r.checks.Of(g.turn) == g.checks.Of(g.turn)
    ensures r.checks.Of(Opponent(g.turn)) == (g.checks.Of(Opponent(g.turn)) || Threatens(g))
    ensures r.state == (
      if Threatens(g) && ValidMoves(g.board, Opponent(g.turn), g.checks.Set(Opponent(g.turn), true)) == []
      then WonBy(g.turn) else g.state)
  {
    var target := GeneralLocation(g.board, Opponent(g.turn));
    var ms := ValidMoves(g.board, g.turn, g.checks);
    CheckScanVerdict(g, g.turn, ms, target);
    CheckScan(g, g.turn, ms, target)
  }

  // ---------------------------------------------------------------------------------------------
  // Making a move
  // ---------------------------------------------------------------------------------------------

  /** The game's answer to a move request: whether it was accepted, and the game afterwards. */
  datatype Reply = Reply(ok: bool, game: Game)

  /** The board once the piece on src has gone to dst; a pass leaves it as it is. */
  function Apply(b: Grid, src: Pos, dst: Pos): (r: Grid)
    ensures src == dst ==> r == b
    ensures src != dst ==> Get(r, dst) == Get(b, src) && Get(r, src).None?
    ensures forall q :: q != src && q != dst ==> Get(r, q) == Get(b, q)
  {
    if src == dst then b else Put(Put(b, dst, Get(b, src)), src, None)
  }

  /** The game after the side to move has played src to dst, before the arbiter looks at it. */
  function Moved(g: Game, src: Pos, dst: Pos): Game {
    Game(Apply(g.board, src, dst), g.turn, g.state, g.checks.Set(g.turn, false))
  }

  /**
    The move transition over cells: a request is refused, changing nothing, once the game is
    over or when the move is not among the valid moves of the side to move; otherwise the
    piece moves (a pass leaves the board alone), the mover's own check flag is cleared, the
    arbiter judges, and the turn passes to the opponent.
   */
  function Play(g: Game, src: Pos, dst: Pos): (r: Reply)
    ensures !r.ok ==> r.game == g
    ensures r.ok <==> g.state == Unfinished && Offered(ValidMoves(g.board, g.turn, g.checks), MkMove(g.board, src, dst))
    ensures r.ok ==> r.game.turn == Opponent(g.turn) && !r.game.checks.Of(g.turn)
    ensures r.ok ==> r.game.board == Apply(g.board, src, dst)
    ensures r.ok ==> r.game.checks.Of(Opponent(g.turn)) == (g.checks.Of(Opponent(g.turn)) || Threatens(Moved(g, src, dst)))
    ensures r.ok ==> (r.game.state == Unfinished || r.game.state == WonBy(g.turn))
    ensures r.ok ==> (r.game.state == WonBy(g.turn) <==>
      Threatens(Moved(g, src, dst)) && ValidMoves(r.game.board, Opponent(g.turn), r.game.checks) == [])
  {
    if g.state != Unfinished then Reply(false, g)
    else
      var mv := MkMove(g.board, src, dst);
      if !Offered(ValidMoves(g.board, g.turn, g.checks), mv) then Reply(false, g)
      else
        var judged := CheckInCheck(Moved(g, src, dst));
        Reply(true, ChangeTurns(judged))
  }

  /**
    make_move: parse both cell names, then play. Once the game is over nothing is parsed; while
    it is on, both names must parse (a bad name makes the game fail rather than refuse).
   */
  function MakeMove(g: Game, source: string, destination: string): (r: Reply)
    requires g.state == Unfinished ==> ConvertLocation(source).Some? && ConvertLocation(destination).Some?
    ensures g.state != Unfinished ==> r == Reply(false, g)
    ensures g.state == Unfinished ==>
      r == Play(g, ConvertLocation(source).value, ConvertLocation(destination).value)
  {
    if g.state != Unfinished then Reply(false, g)
    else Play(g, ConvertLocation(source).value, ConvertLocation(destination).value)
  }

  // ---------------------------------------------------------------------------------------------
  // What an accepted move guarantees
  // ---------------------------------------------------------------------------------------------

  /** A request names a valid move exactly when that very move, with the board's snapshots, is valid. */
  lemma OfferedIsValid(g: Game, src: Pos, dst: Pos)
    ensures Offered(ValidMoves(g.board, g.turn, g.checks), MkMove(g.board, src, dst)) <==>
      MkMove(g.board, src, dst) in ValidMoves(g.board, g.turn, g.checks)
  {
    var mv := MkMove(g.board, src, dst);
    if Offered(ValidMoves(g.board, g.turn, g.checks), mv) {
      var m :| m in ValidMoves(g.board, g.turn, g.checks) && SameMove(m, mv);
      assert Issued(g.board, m.src, m);
    }
  }

  /**
    An accepted move starts on a piece of the side to move and obeys that piece's rule, or is
    the pass, out of check.
   */
  lemma AcceptedMoveFollowsRules(g: Game, src: Pos, dst: Pos)
    requires Play(g, src, dst).ok
    ensures InBoard(src) && Get(g.board, src).Some? && Get(g.board, src).value.side == g.turn
    ensures Allowed(g.board, g.checks.Of(g.turn), src, MkMove(g.board, src, dst),
      Reach(g.board, g.turn, src, dst, Get(g.board, src).value.kind))
  {
    OfferedIsValid(g, src, dst);
    ValidMovesRule(g.board, g.turn, g.checks, MkMove(g.board, src, dst));
  }

  /** An accepted move ends on the board, so the board stays on the 10 x 9 grid. */
  lemma AcceptedMoveStaysOnBoard(g: Game, src: Pos, dst: Pos)
    requires WellFormed(g.board) && Play(g, src, dst).ok
    ensures InBoard(dst)
    ensures WellFormed(Play(g, src, dst).game.board)
  {
    var mv := MkMove(g.board, src, dst);
    OfferedIsValid(g, src, dst);
    if dst != src {
      AllPossibleSound(g.board, g.turn, g.checks.Of(g.turn), mv);
      DestinationRules(g.board, g.turn, g.checks.Of(g.turn), src, Get(g.board, src).value.kind, mv);
    }
    var b := Apply(g.board, src, dst);
    forall q | q in b ensures InBoard(q) {
      assert Get(b, q).Some?;
    }
  }

  /**
    An accepted move that is not a pass leaves the mover's general (as the palace search
    finds it) on no destination of the opponent's possible moves.
   */
  lemma AcceptedMoveIsSafe(g: Game, src: Pos, dst: Pos)
    requires Play(g, src, dst).ok && src != dst
    ensures !Attacked(Play(g, src, dst).game.board, g.turn, g.checks.Of(Opponent(g.turn)))
  {
    var mv := MkMove(g.board, src, dst);
    OfferedIsValid(g, src, dst);
    assert Simulate(g.board, mv) == Play(g, src, dst).game.board;
  }

  /** A finished game refuses every request and stays as it is. */
  lemma FinishedGameIsFrozen(g: Game, source: string, destination: string)
    requires g.state != Unfinished
    ensures !MakeMove(g, source, destination).ok && MakeMove(g, source, destination).game == g
  {
  }
}
