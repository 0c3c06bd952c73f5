/**
 * Movement rules and the walker that expands one rule, from one origin and
 * for one player, into the cells it reaches on a board.
 */
module Movements {
  import opened Wrappers
  import opened Geometry
  import opened Boards

  /** How many times a rule's vector list may be walked: a count, or until stopped. */
  datatype Times = Finite(n: nat) | Unbounded

  /**
   * One movement rule: the delta vectors walked in order, how many extra
   * quarter-turned variants to try, and how often the vectors repeat. `jump`
   * and `rotateForPlayer` are stored and never read.
   */
  datatype Movement = Movement(
    jump: bool,
    locations: seq<Vec>,
    rotate: nat := 3,
    times: Times := Unbounded,
    rotateForPlayer: bool := false)

  /** A player: a colour, the number that owns pieces, and a facing direction. */
  datatype Player = Player(colour: string, playerNo: int, direction: string := "north")

  const Directions: seq<string> := ["north", "east", "south", "west"]

  /** The position of the first `x` in `xs`, or -1 when there is none. */
  function IndexOf<T(==)>(xs: seq<T>, x: T): (i: int)
    ensures -1 <= i < |xs|
    ensures i == -1 <==> x !in xs
    ensures 0 <= i ==> xs[i] == x && x !in xs[..i]
    decreases |xs|
  {
    if xs == [] then -1
    else if xs[0] == x then 0
    else
      var j := IndexOf(xs[1..], x);
      if j == -1 then -1 else j + 1
  }

  /** Quarter turns applied for a facing: its index, and none for an unknown facing. */
  function Turns(direction: string): nat {
    var i := IndexOf(Directions, direction);
    if i < 0 then 0 else i
  }

  /**
   * What the walker does on reaching one cell: whether it records the cell,
   * whether the next repetition is cancelled (`maxj = 0`), and whether the
   * current repetition ends at once (`break`).
   */
  datatype Visit = Visit(record: bool, cancel: bool, halt: bool)

  /**
   * Leaving the board, or meeting any piece in capture mode, cancels the next
   * repetition but lets the current one go on (`continue`); meeting a piece in
   * move mode ends both. Move mode records empty cells, capture mode cells
   * holding another player's piece.
   */
  function VisitCell(next: Vec, spots: Spots, playerNo: int, capture: bool): Visit {
    if !OnBoard(spots, next) then Visit(false, true, false)
    else if capture && At(spots, next).Some? then Visit(At(spots, next).value.playerNo != playerNo, true, false)
    else if !capture && At(spots, next).None? then Visit(true, false, false)
    else if !capture then Visit(false, true, true)
    else Visit(false, false, false)
  }

  /**
   * The walker's state within one repetition: the cursor, the cells recorded
   * so far, whether the next repetition is cancelled, and whether this one
   * has ended early.
   */
  datatype PassState = PassState(cursor: Vec, found: seq<Vec>, stop: bool, halted: bool)

  /** The state after the first `k` vectors of one repetition from cursor `c`, the cursor moving cumulatively. */
  function PassUpTo(vs: seq<Vec>, k: nat, c: Vec, spots: Spots, playerNo: int, capture: bool): PassState
    requires k <= |vs|
    decreases k
  {
    if k == 0 then PassState(c, [], false, false)
    else
      var s := PassUpTo(vs, k - 1, c, spots, playerNo, capture);
      if s.halted then s
      else
        var next := Add(s.cursor, vs[k - 1]);
        var visit := VisitCell(next, spots, playerNo, capture);
        PassState(next, s.found + (if visit.record then [next] else []), s.stop || visit.cancel, visit.halt)
  }

  /** One whole repetition of the vector list from cursor `c`. */
  function Pass(vs: seq<Vec>, c: Vec, spots: Spots, playerNo: int, capture: bool): PassState {
    PassUpTo(vs, |vs|, c, spots, playerNo, capture)
  }

  /**
   * The walker's state after the first `j` repetitions of a ray from `c`:
   * the cursor, the cells recorded, and whether a repetition has cancelled
   * the rest (`maxj = 0`).
   */
  datatype RayState = RayState(cursor: Vec, found: seq<Vec>, stopped: bool)

  function RayUpTo(vs: seq<Vec>, c: Vec, j: nat, spots: Spots, playerNo: int, capture: bool): RayState
    decreases j
  {
    if j == 0 then RayState(c, [], false)
    else
      var s := RayUpTo(vs, c, j - 1, spots, playerNo, capture);
      if s.stopped then s
      else
        var p := Pass(vs, s.cursor, spots, playerNo, capture);
        RayState(p.cursor, s.found + p.found, p.stop)
  }

  /** The cells one variant records in up to `reps` repetitions from `c`. */
  function Ray(vs: seq<Vec>, c: Vec, reps: nat, spots: Spots, playerNo: int, capture: bool): seq<Vec> {
    RayUpTo(vs, c, reps, spots, playerNo, capture).found
  }

  /** The repetition bound for unbounded rules: enough to leave any grid of this size. */
  function Fuel(spots: Spots): nat {
    |spots| + if |spots| == 0 then 0 else |spots[0]|
  }

  function Repetitions(times: Times, spots: Spots): nat {
    match times
    case Finite(n) => n
    case Unbounded => Fuel(spots)
  }

  /** The vectors of variant `i` of rule `m` for a player facing `direction`: turned (facing index + i) times. */
  function VariantVectors(m: Movement, direction: string, i: nat): seq<Vec> {
    RotateAll(m.locations, Turns(direction) + i)
  }

  /** The ray of each of the first `count` variants of rule `m`, variant 0 first. */
  function Rays(m: Movement, direction: string, count: nat, origin: Vec, reps: nat, spots: Spots, playerNo: int, capture: bool): seq<seq<Vec>> {
    seq(count, i requires 0 <= i < count => Ray(VariantVectors(m, direction, i), origin, reps, spots, playerNo, capture))
  }

  /** The rays of the first `count` variants of rule `m`, one after another. */
  function Variants(m: Movement, direction: string, count: nat, origin: Vec, reps: nat, spots: Spots, playerNo: int, capture: bool): seq<Vec> {
    Concat(Rays(m, direction, count, origin, reps, spots, playerNo, capture), count)
  }

  /** Every cell rule `m` yields: the rays of its `rotate + 1` variants, in order. */
  function Walk(m: Movement, origin: Vec, spots: Spots, player: Player, capture: bool): seq<Vec> {
    Variants(m, player.direction, m.rotate + 1, origin, Repetitions(m.times, spots), spots, player.playerNo, capture)
  }

  /** Turns every vector of the list once, in place. */
  method RotateLocations(locations: seq<Vec>) returns (rotated: seq<Vec>)
    ensures rotated == RotateAll(locations, 1)
  {
    rotated := locations;
    for j := 0 to |rotated|
      invariant |rotated| == |locations|
      invariant forall k :: 0 <= k < j ==> rotated[k] == Rotate(locations[k])
      invariant forall k :: j <= k < |rotated| ==> rotated[k] == locations[k]
    {
      rotated := rotated[j := Vec(rotated[j].y, rotated[j].x * -1)];
    }
  }

  /** Once a repetition has ended early, the remaining vectors change nothing. */
  lemma {:induction false} HaltedStays(vs: seq<Vec>, k: nat, n: nat, c: Vec, spots: Spots, playerNo: int, capture: bool)
    requires k <= n <= |vs| && PassUpTo(vs, k, c, spots, playerNo, capture).halted
    ensures PassUpTo(vs, n, c, spots, playerNo, capture) == PassUpTo(vs, k, c, spots, playerNo, capture)
    decreases n
  {
    if n > k {
      HaltedStays(vs, k, n - 1, c, spots, playerNo, capture);
    }
  }

  /**
   * One repetition of the inner loop over the vector list: the new cursor, the
   * cells recorded, and whether the next repetition is cancelled (`maxj = 0`).
   */
  method WalkPass(locations: seq<Vec>, start: Vec, spots: Spots, playerNo: int, capture: bool)
    returns (locationNow: Vec, found: seq<Vec>, stop: bool)
    ensures var p := Pass(locations, start, spots, playerNo, capture);
      locationNow == p.cursor && found == p.found && stop == p.stop
  {
    locationNow, found, stop := start, [], false;
    var k := 0;
    while k < |locations|
      invariant 0 <= k <= |locations|
      invariant PassUpTo(locations, k, start, spots, playerNo, capture) == PassState(locationNow, found, stop, false)
    {
      locationNow := Add(locationNow, locations[k]);

      if !OnBoard(spots, locationNow) {
        stop := true;
        k := k + 1;
        continue;
      }

      var spot := spots[locationNow.y][locationNow.x];

      if capture && spot != None {
        if spot.value.playerNo != playerNo {
          found := found + [locationNow];
        }
        stop := true;
        k := k + 1;
        continue;
      } else if !capture && spot == None {
        found := found + [locationNow];
      } else if !capture && spot != None {
        stop := true;
        HaltedStays(locations, k + 1, |locations|, start, spots, playerNo, capture);
        return;
      }
      k := k + 1;
    }
  }

  /** Once a repetition has cancelled the rest, later repetitions change nothing. */
  lemma {:induction false} StoppedStays(vs: seq<Vec>, c: Vec, j: nat, n: nat, spots: Spots, playerNo: int, capture: bool)
    requires j <= n && RayUpTo(vs, c, j, spots, playerNo, capture).stopped
    ensures RayUpTo(vs, c, n, spots, playerNo, capture) == RayUpTo(vs, c, j, spots, playerNo, capture)
    decreases n
  {
    if n > j {
      StoppedStays(vs, c, j, n - 1, spots, playerNo, capture);
    }
  }

  /** All repetitions of one variant from `location`, cancelled once a pass says so. */
  method WalkRay(locations: seq<Vec>, location: Vec, times: nat, spots: Spots, playerNo: int, capture: bool)
    returns (results: seq<Vec>)
    ensures results == Ray(locations, location, times, spots, playerNo, capture)
  {
    results := [];
    var locationNow := location;
    var maxj := times;
    var j := 0;
    while j < maxj
      invariant j <= times && (maxj == times || (j > 0 && maxj == 0))
      invariant RayUpTo(locations, location, j, spots, playerNo, capture) == RayState(locationNow, results, j > 0 && maxj == 0)
    {
      var found, stop;
      locationNow, found, stop := WalkPass(locations, locationNow, spots, playerNo, capture);
      results := results + found;
      if stop {
        maxj := 0;
      }
      j := j + 1;
    }
    if j > 0 && maxj == 0 {
      StoppedStays(locations, location, j, times, spots, playerNo, capture);
    }
  }

  /** The semi-deep copy of a rule's vectors, turned once per step of the facing's index. */
  method OrientForPlayer(ruleLocations: seq<Vec>, direction: string) returns (locations: seq<Vec>)
    ensures locations == RotateAll(ruleLocations, Turns(direction))
  {
    var rotationForPlayer := IndexOf(Directions, direction);
    locations := [];
    for q := 0 to |ruleLocations|
      invariant locations == ruleLocations[..q]
    {
      locations := locations + [ruleLocations[q]];
    }
    assert locations == RotateAll(ruleLocations, 0);

    var i := 0;
    while i < rotationForPlayer
      invariant 0 <= i <= Turns(direction)
      invariant locations == RotateAll(ruleLocations, i)
    {
      locations := RotateLocations(locations);
      RotateAllCompose(ruleLocations, i, 1);
      i := i + 1;
    }
  }

  /** Turning variant `i`'s vectors once more gives variant `i + 1`'s. */
  lemma NextVariant(m: Movement, direction: string, i: nat)
    ensures RotateAll(VariantVectors(m, direction, i), 1) == VariantVectors(m, direction, i + 1)
  {
    RotateAllCompose(m.locations, Turns(direction) + i, 1);
  }

  /** The walker: the cells rule `m` yields from `location` for `player`, in move or capture mode. */
  method GetAllMoves(m: Movement, location: Vec, spots: Spots, player: Player, capture: bool)
    returns (results: seq<Vec>)
    ensures results == Walk(m, location, spots, player, capture)
  {
    results := [];
    var playerNo := player.playerNo;
    var locations := OrientForPlayer(m.locations, player.direction);
    ghost var rays := Rays(m, player.direction, m.rotate + 1, location, Repetitions(m.times, spots), spots, playerNo, capture);

    var i := 0;
    while i <= m.rotate
      invariant 0 <= i <= m.rotate + 1
      invariant locations == VariantVectors(m, player.direction, if i == 0 then 0 else i - 1)
      invariant results == Concat(rays, i)
    {
      if i != 0 {
        locations := RotateLocations(locations);
        NextVariant(m, player.direction, i - 1);
      }
      var found := WalkRay(locations, location, Repetitions(m.times, spots), spots, playerNo, capture);
      assert found == rays[i];
      results := results + found;
      i := i + 1;
    }
  }
}
