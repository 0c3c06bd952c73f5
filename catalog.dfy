/**
 * The piece types and players the game is set up with, and what their rules
 * come to on any board: the pawn steps and captures towards its owner's
 * facing, a one-vector unbounded rule such as the rook's slides along each
 * turned copy of its vector until blocked, and the knight reaches the cells
 * of its four turned jumps.
 */
module Catalog {
  import opened Wrappers
  import opened Geometry
  import opened Boards
  import opened Movements
  import opened MovementFacts
  import opened Behaviours

  const RookRule := Movement(false, [Vec(1, 0)])
  const BishopRule := Movement(false, [Vec(1, 1)])
  const KingDiagonal := Movement(false, [Vec(1, 1)], 3, Finite(1))
  const KingStraight := Movement(false, [Vec(1, 0)], 3, Finite(1))
  const KnightWide := Movement(false, [Vec(2, 1)], 3, Finite(1))
  const KnightTall := Movement(false, [Vec(1, 2)], 3, Finite(1))
  const PawnStep := Movement(false, [Vec(0, 1)], 0, Finite(1), true)
  const PawnCapture := Movement(false, [Vec(-1, 1)], 1, Finite(1), true)

  const Rook := PieceType(NewBehaviour([RookRule]), "rook")
  const Bishop := PieceType(NewBehaviour([BishopRule]), "bishop")
  const Queen := PieceType(NewBehaviour([BishopRule, RookRule]), "queen")
  const King := PieceType(NewBehaviour([KingDiagonal, KingStraight]), "king")
  const Knight := PieceType(NewBehaviour([KnightWide, KnightTall]), "knight")
  const Pawn := PieceType(NewBehaviour([PawnStep], Some([PawnCapture])), "pawn")

  const White := Player("white", 0, "north")
  const Black := Player("black", 1, "south")

  /** The cell `p` as a one-cell result when the mode records it, and nothing otherwise. */
  function Hit(spots: Spots, p: Vec, playerNo: int, capture: bool): seq<Vec> {
    if Recordable(spots, p, playerNo, capture) then [p] else []
  }

  /** What each of `count` turned copies of the one-step jump `v` reaches from `origin`, starting `t` turns round. */
  function Hits(v: Vec, t: nat, count: nat, origin: Vec, spots: Spots, playerNo: int, capture: bool): seq<seq<Vec>> {
    seq(count, i requires 0 <= i < count => Hit(spots, Add(origin, RotateN(v, t + i)), playerNo, capture))
  }

  /** A one-vector rule's variant `i`, walked once, records its turned jump's cell when the mode allows. */
  lemma JumpRay(m: Movement, direction: string, i: nat, origin: Vec, spots: Spots, playerNo: int, capture: bool)
    requires |m.locations| == 1
    ensures Ray(VariantVectors(m, direction, i), origin, 1, spots, playerNo, capture)
      == Hit(spots, Add(origin, RotateN(m.locations[0], Turns(direction) + i)), playerNo, capture)
  {
    SingleVectorVariant(m, direction, i);
    SingleStep(VariantVectors(m, direction, i), origin, spots, playerNo, capture);
  }

  /** Variant `i` of a one-vector rule walked once is its turned jump, recorded when the mode allows. */
  lemma JumpVariant(m: Movement, direction: string, count: nat, i: nat, origin: Vec, spots: Spots, playerNo: int, capture: bool)
    requires |m.locations| == 1 && i < count
    ensures Rays(m, direction, count, origin, 1, spots, playerNo, capture)[i]
      == Hits(m.locations[0], Turns(direction), count, origin, spots, playerNo, capture)[i]
  {
    JumpRay(m, direction, i, origin, spots, playerNo, capture);
  }

  /** A one-vector rule walked once yields, variant by variant, the turned jump's cell when the mode records it. */
  lemma JumpWalk(m: Movement, origin: Vec, spots: Spots, player: Player, capture: bool)
    requires |m.locations| == 1 && m.times == Finite(1)
    ensures Walk(m, origin, spots, player, capture)
      == Concat(Hits(m.locations[0], Turns(player.direction), m.rotate + 1, origin, spots, player.playerNo, capture), m.rotate + 1)
  {
    var n := m.rotate + 1;
    var d := player.direction;
    forall i | 0 <= i < n
      ensures Rays(m, d, n, origin, 1, spots, player.playerNo, capture)[i]
        == Hits(m.locations[0], Turns(d), n, origin, spots, player.playerNo, capture)[i]
    {
      JumpVariant(m, d, n, i, origin, spots, player.playerNo, capture);
    }
    assert Rays(m, d, n, origin, 1, spots, player.playerNo, capture)
      == Hits(m.locations[0], Turns(d), n, origin, spots, player.playerNo, capture);
  }

  /** A one-jump rule that is not turned reaches its vector, turned to the player's facing. */
  lemma JumpOnce(m: Movement, origin: Vec, spots: Spots, player: Player, capture: bool)
    requires |m.locations| == 1 && m.times == Finite(1) && m.rotate == 0
    ensures Walk(m, origin, spots, player, capture)
      == Hit(spots, Add(origin, RotateN(m.locations[0], Turns(player.direction))), player.playerNo, capture)
  {
    JumpWalk(m, origin, spots, player, capture);
    var hits := Hits(m.locations[0], Turns(player.direction), 1, origin, spots, player.playerNo, capture);
    assert Concat(hits, 1) == hits[0];
  }

  /** A one-jump rule turned once reaches its vector turned to the player's facing, then one more turn round. */
  lemma JumpPair(m: Movement, origin: Vec, spots: Spots, player: Player, capture: bool)
    requires |m.locations| == 1 && m.times == Finite(1) && m.rotate == 1
    ensures var t := Turns(player.direction);
      Walk(m, origin, spots, player, capture)
        == Hit(spots, Add(origin, RotateN(m.locations[0], t)), player.playerNo, capture)
         + Hit(spots, Add(origin, RotateN(m.locations[0], t + 1)), player.playerNo, capture)
  {
    JumpWalk(m, origin, spots, player, capture);
    ConcatTwo(Hits(m.locations[0], Turns(player.direction), 2, origin, spots, player.playerNo, capture));
  }

  /** A one-jump rule turned three times reaches its vector turned to the player's facing and then each further quarter. */
  lemma JumpFour(m: Movement, origin: Vec, spots: Spots, player: Player, capture: bool)
    requires |m.locations| == 1 && m.times == Finite(1) && m.rotate == 3
    ensures var t := Turns(player.direction);
      var v := m.locations[0];
      Walk(m, origin, spots, player, capture)
        == Hit(spots, Add(origin, RotateN(v, t)), player.playerNo, capture)
         + Hit(spots, Add(origin, RotateN(v, t + 1)), player.playerNo, capture)
         + Hit(spots, Add(origin, RotateN(v, t + 2)), player.playerNo, capture)
         + Hit(spots, Add(origin, RotateN(v, t + 3)), player.playerNo, capture)
  {
    JumpWalk(m, origin, spots, player, capture);
    ConcatFour(Hits(m.locations[0], Turns(player.direction), 4, origin, spots, player.playerNo, capture));
  }

  /** The empty cells along `w` from `origin`, up to the first that is occupied or off the board, within `reps` steps. */
  function Slide(origin: Vec, w: Vec, spots: Spots, reps: nat): seq<Vec> {
    Steps(origin, w, FreeSteps(spots, origin, w, reps))
  }

  /** The slides of each of `count` turned copies of `v` from `origin`, starting `t` turns round, in move mode. */
  function Slides(v: Vec, t: nat, count: nat, origin: Vec, spots: Spots, reps: nat): seq<seq<Vec>> {
    seq(count, i requires 0 <= i < count => Slide(origin, RotateN(v, t + i), spots, reps))
  }

  /** A one-vector rule's variant `i` in move mode is the slide along its turned vector. */
  lemma SlideRay(m: Movement, direction: string, i: nat, origin: Vec, reps: nat, spots: Spots, playerNo: int)
    requires |m.locations| == 1
    ensures Ray(VariantVectors(m, direction, i), origin, reps, spots, playerNo, false)
      == Slide(origin, RotateN(m.locations[0], Turns(direction) + i), spots, reps)
  {
    var w := RotateN(m.locations[0], Turns(direction) + i);
    SingleVectorVariant(m, direction, i);
    assert VariantVectors(m, direction, i) == [w];
    SlideMoves(w, origin, reps, spots, playerNo);
  }

  /** Variant `i` of a one-vector rule in move mode is the slide along its turned vector. */
  lemma SlideVariant(m: Movement, direction: string, count: nat, i: nat, origin: Vec, reps: nat, spots: Spots, playerNo: int)
    requires |m.locations| == 1 && i < count
    ensures Rays(m, direction, count, origin, reps, spots, playerNo, false)[i]
      == Slides(m.locations[0], Turns(direction), count, origin, spots, reps)[i]
  {
    SlideRay(m, direction, i, origin, reps, spots, playerNo);
  }

  /**
   * A one-vector rule in move mode, such as the rook's, yields variant by
   * variant the empty cells along the turned vector up to the first that is
   * occupied or off the board.
   */
  lemma SlideWalk(m: Movement, origin: Vec, spots: Spots, player: Player)
    requires |m.locations| == 1
    ensures var reps := Repetitions(m.times, spots);
      Walk(m, origin, spots, player, false)
        == Concat(Slides(m.locations[0], Turns(player.direction), m.rotate + 1, origin, spots, reps), m.rotate + 1)
  {
    var n := m.rotate + 1;
    var d := player.direction;
    var reps := Repetitions(m.times, spots);
    forall i | 0 <= i < n
      ensures Rays(m, d, n, origin, reps, spots, player.playerNo, false)[i]
        == Slides(m.locations[0], Turns(d), n, origin, spots, reps)[i]
    {
      SlideVariant(m, d, n, i, origin, reps, spots, player.playerNo);
    }
    assert Rays(m, d, n, origin, reps, spots, player.playerNo, false)
      == Slides(m.locations[0], Turns(d), n, origin, spots, reps);
  }

  /**
   * A one-vector rule turned three times, in move mode, slides along its
   * vector turned to the player's facing and then along each further quarter.
   */
  lemma SlideFour(m: Movement, origin: Vec, spots: Spots, player: Player)
    requires |m.locations| == 1 && m.rotate == 3
    ensures var t := Turns(player.direction);
      var v := m.locations[0];
      var reps := Repetitions(m.times, spots);
      Walk(m, origin, spots, player, false)
        == Slide(origin, RotateN(v, t), spots, reps) + Slide(origin, RotateN(v, t + 1), spots, reps)
         + Slide(origin, RotateN(v, t + 2), spots, reps) + Slide(origin, RotateN(v, t + 3), spots, reps)
  {
    SlideWalk(m, origin, spots, player);
    ConcatFour(Slides(m.locations[0], Turns(player.direction), 4, origin, spots, Repetitions(m.times, spots)));
  }

  /**
   * A rook of a player facing north slides along (1, 0), (0, -1), (-1, 0) and
   * (0, 1), in that order, each time over the empty cells up to the first
   * occupied one or the edge of the board.
   */
  lemma RookSlidesNorth(spots: Spots, location: Vec, player: Player)
    requires player.direction == "north"
    ensures var f := Fuel(spots);
      Walk(RookRule, location, spots, player, false)
        == Slide(location, Vec(1, 0), spots, f) + Slide(location, Vec(0, -1), spots, f)
         + Slide(location, Vec(-1, 0), spots, f) + Slide(location, Vec(0, 1), spots, f)
  {
    FacingTurns(player.direction);
    SlideFour(RookRule, location, spots, player);
    assert RotateN(Vec(1, 0), 1) == Vec(0, -1);
    assert RotateN(Vec(1, 0), 2) == Vec(-1, 0);
    assert RotateN(Vec(1, 0), 3) == Vec(0, 1);
  }

  /** A pawn of a player facing north steps to the cell above it when that cell is on the board and empty. */
  lemma PawnStepsNorth(spots: Spots, location: Vec, player: Player)
    requires player.direction == "north"
    ensures Walk(PawnStep, location, spots, player, false)
      == Hit(spots, Vec(location.x, location.y + 1), player.playerNo, false)
  {
    FacingTurns(player.direction);
    JumpOnce(PawnStep, location, spots, player, false);
  }

  /** A pawn of a player facing south steps to the cell below it. */
  lemma PawnStepsSouth(spots: Spots, location: Vec, player: Player)
    requires player.direction == "south"
    ensures Walk(PawnStep, location, spots, player, false)
      == Hit(spots, Vec(location.x, location.y - 1), player.playerNo, false)
  {
    FacingTurns(player.direction);
    JumpOnce(PawnStep, location, spots, player, false);
    assert RotateN(Vec(0, 1), 2) == Vec(0, -1);
  }

  /** A player with a facing that is none of the four is treated as facing north. */
  lemma PawnStepsUnknownFacing(spots: Spots, location: Vec, player: Player)
    requires player.direction !in Directions
    ensures Walk(PawnStep, location, spots, player, false)
      == Hit(spots, Vec(location.x, location.y + 1), player.playerNo, false)
  {
    FacingTurns(player.direction);
    JumpOnce(PawnStep, location, spots, player, false);
  }

  /** Facing north, a pawn captures up-left, then up-right, wherever another player's piece stands there. */
  lemma PawnCapturesNorth(spots: Spots, location: Vec, player: Player)
    requires player.direction == "north"
    ensures Walk(PawnCapture, location, spots, player, true)
      == Hit(spots, Vec(location.x - 1, location.y + 1), player.playerNo, true)
       + Hit(spots, Vec(location.x + 1, location.y + 1), player.playerNo, true)
  {
    FacingTurns(player.direction);
    JumpPair(PawnCapture, location, spots, player, true);
  }

  /** Facing south, a pawn captures down-right, then down-left. */
  lemma PawnCapturesSouth(spots: Spots, location: Vec, player: Player)
    requires player.direction == "south"
    ensures Walk(PawnCapture, location, spots, player, true)
      == Hit(spots, Vec(location.x + 1, location.y - 1), player.playerNo, true)
       + Hit(spots, Vec(location.x - 1, location.y - 1), player.playerNo, true)
  {
    FacingTurns(player.direction);
    JumpPair(PawnCapture, location, spots, player, true);
    assert RotateN(Vec(-1, 1), 2) == Vec(1, -1);
    assert RotateN(Vec(-1, 1), 3) == Vec(-1, -1);
  }

  /** The knight's first rule reaches the four cells of its turned jump that the mode records, clockwise from (2, 1). */
  lemma KnightWideJumps(spots: Spots, location: Vec, player: Player, capture: bool)
    requires player.direction == "north"
    ensures Walk(KnightWide, location, spots, player, capture)
      == Hit(spots, Add(location, Vec(2, 1)), player.playerNo, capture)
       + Hit(spots, Add(location, Vec(1, -2)), player.playerNo, capture)
       + Hit(spots, Add(location, Vec(-2, -1)), player.playerNo, capture)
       + Hit(spots, Add(location, Vec(-1, 2)), player.playerNo, capture)
  {
    FacingTurns(player.direction);
    JumpFour(KnightWide, location, spots, player, capture);
    assert RotateN(Vec(2, 1), 3) == Vec(-1, 2);
  }

  /** The knight's second rule reaches the four cells of its turned jump that the mode records, clockwise from (1, 2). */
  lemma KnightTallJumps(spots: Spots, location: Vec, player: Player, capture: bool)
    requires player.direction == "north"
    ensures Walk(KnightTall, location, spots, player, capture)
      == Hit(spots, Add(location, Vec(1, 2)), player.playerNo, capture)
       + Hit(spots, Add(location, Vec(2, -1)), player.playerNo, capture)
       + Hit(spots, Add(location, Vec(-1, -2)), player.playerNo, capture)
       + Hit(spots, Add(location, Vec(-2, 1)), player.playerNo, capture)
  {
    FacingTurns(player.direction);
    JumpFour(KnightTall, location, spots, player, capture);
    assert RotateN(Vec(1, 2), 3) == Vec(-2, 1);
  }

  /**
   * On the highlight grid of a pawn facing north, exactly the cell above is
   * flagged for moving, when empty, and exactly the two cells diagonally
   * above are flagged for capturing, when another player's piece is there.
   */
  lemma PawnHighlightsNorth(spots: Spots, location: Vec, player: Player, x: int, y: int)
    requires |spots| >= 1 && IsGrid(spots, |spots[0]|, |spots|)
    requires 0 <= y < |spots| && 0 <= x < |spots[0]|
    requires player.direction == "north"
    ensures var c := Highlights(Pawn.behaviour, spots, location, player)[y][x];
      (c.move <==> Vec(x, y) == Vec(location.x, location.y + 1) && Free(spots, Vec(x, y)))
      && (c.capture <==> (Vec(x, y) == Vec(location.x - 1, location.y + 1) || Vec(x, y) == Vec(location.x + 1, location.y + 1))
                         && Enemy(spots, Vec(x, y), player.playerNo))
  {
    HighlightsMeaning(Pawn.behaviour, spots, location, player, x, y);
    PawnStepsNorth(spots, location, player);
    PawnCapturesNorth(spots, location, player);
    assert Pawn.behaviour.movements == [PawnStep];
    assert Pawn.behaviour.captures == [PawnCapture];
  }
}
