/**
 * What the walker promises: every recorded cell is on the board and empty
 * (move mode) or holds another player's piece (capture mode); a
 * single-vector ray is exactly the slide that stops at the first occupied
 * cell; variant `i` is turned (facing index + i) times; and the repetition
 * bound used for unbounded rules is never the reason a ray ends.
 */
module MovementFacts {
  import opened Wrappers
  import opened Geometry
  import opened Boards
  import opened Movements

  /** An on-board cell with no piece on it. */
  predicate Free(spots: Spots, p: Vec) {
    OnBoard(spots, p) && At(spots, p).None?
  }

  /** An on-board cell holding a piece some other player owns. */
  predicate Enemy(spots: Spots, p: Vec, playerNo: int) {
    OnBoard(spots, p) && At(spots, p).Some? && At(spots, p).value.playerNo != playerNo
  }

  /** What a ray may record: an empty cell in move mode, another player's piece in capture mode. */
  predicate Recordable(spots: Spots, p: Vec, playerNo: int, capture: bool) {
    if capture then Enemy(spots, p, playerNo) else Free(spots, p)
  }

  lemma {:induction false} PassSound(vs: seq<Vec>, k: nat, c: Vec, spots: Spots, playerNo: int, capture: bool)
    requires k <= |vs|
    ensures forall p :: p in PassUpTo(vs, k, c, spots, playerNo, capture).found ==> Recordable(spots, p, playerNo, capture)
    decreases k
  {
    if k > 0 {
      PassSound(vs, k - 1, c, spots, playerNo, capture);
    }
  }

  lemma {:induction false} RaySound(vs: seq<Vec>, c: Vec, j: nat, spots: Spots, playerNo: int, capture: bool)
    ensures forall p :: p in RayUpTo(vs, c, j, spots, playerNo, capture).found ==> Recordable(spots, p, playerNo, capture)
    decreases j
  {
    if j > 0 {
      RaySound(vs, c, j - 1, spots, playerNo, capture);
      var s := RayUpTo(vs, c, j - 1, spots, playerNo, capture);
      PassSound(vs, |vs|, s.cursor, spots, playerNo, capture);
    }
  }

  /**
   * Bounds and ownership: every cell a rule yields is on the board; in move
   * mode it is empty, in capture mode it holds a piece of another player.
   */
  lemma WalkSound(m: Movement, origin: Vec, spots: Spots, player: Player, capture: bool)
    ensures forall p :: p in Walk(m, origin, spots, player, capture) ==>
      OnBoard(spots, p) && (if capture then Enemy(spots, p, player.playerNo) else Free(spots, p))
  {
    var reps := Repetitions(m.times, spots);
    var rays := Rays(m, player.direction, m.rotate + 1, origin, reps, spots, player.playerNo, capture);
    forall p | p in Walk(m, origin, spots, player, capture)
      ensures Recordable(spots, p, player.playerNo, capture)
    {
      ConcatMembership(rays, m.rotate + 1, p);
      var i :| 0 <= i < m.rotate + 1 && p in rays[i];
      RaySound(VariantVectors(m, player.direction, i), origin, reps, spots, player.playerNo, capture);
    }
  }

  /**
   * A rule has exactly `rotate + 1` variants, and variant `i` walks the
   * rule's vectors turned (facing index + i) times.
   */
  lemma WalkVariants(m: Movement, origin: Vec, spots: Spots, player: Player, capture: bool, loc: Vec)
    ensures loc in Walk(m, origin, spots, player, capture)
      <==> exists i :: 0 <= i <= m.rotate &&
             loc in Ray(VariantVectors(m, player.direction, i), origin,
                        Repetitions(m.times, spots), spots, player.playerNo, capture)
  {
    var reps := Repetitions(m.times, spots);
    var rays := Rays(m, player.direction, m.rotate + 1, origin, reps, spots, player.playerNo, capture);
    ConcatMembership(rays, m.rotate + 1, loc);
    if i :| 0 <= i <= m.rotate && loc in Ray(VariantVectors(m, player.direction, i), origin, reps, spots, player.playerNo, capture) {
      assert loc in rays[i];
    }
  }

  /** The facings in order, and no turn at all for a facing that is none of them. */
  lemma FacingTurns(direction: string)
    ensures Turns("north") == 0 && Turns("east") == 1 && Turns("south") == 2 && Turns("west") == 3
    ensures direction !in Directions ==> Turns(direction) == 0
  {
  }

  /** Only a rule's vectors enter its variants. */
  lemma UnreadFlags(m: Movement, jump: bool, rotateForPlayer: bool, origin: Vec, spots: Spots, player: Player, capture: bool)
    ensures Walk(m.(jump := jump, rotateForPlayer := rotateForPlayer), origin, spots, player, capture)
      == Walk(m, origin, spots, player, capture)
  {
    var m' := m.(jump := jump, rotateForPlayer := rotateForPlayer);
    var reps := Repetitions(m.times, spots);
    assert Rays(m', player.direction, m.rotate + 1, origin, reps, spots, player.playerNo, capture)
        == Rays(m, player.direction, m.rotate + 1, origin, reps, spots, player.playerNo, capture);
  }

  /** One repetition of a one-vector list `vs` from `cursor`: the next cell, visited. */
  lemma SinglePass(vs: seq<Vec>, cursor: Vec, spots: Spots, playerNo: int, capture: bool)
    requires |vs| == 1
    ensures var next := Add(cursor, vs[0]);
      var p := Pass(vs, cursor, spots, playerNo, capture);
      p.cursor == next
      && p.stop == !Free(spots, next)
      && p.found == if Recordable(spots, next, playerNo, capture) then [next] else []
  {
    var next := Add(cursor, vs[0]);
    assert PassUpTo(vs, 0, cursor, spots, playerNo, capture) == PassState(cursor, [], false, false);
    var visit := VisitCell(next, spots, playerNo, capture);
    assert visit.record == Recordable(spots, next, playerNo, capture);
    assert visit.cancel == !Free(spots, next);
    assert Pass(vs, cursor, spots, playerNo, capture)
      == PassState(next, [] + (if visit.record then [next] else []), false || visit.cancel, visit.halt);
  }

  /** A single vector walked once: the ray records the next cell exactly when the mode allows it. */
  lemma SingleStep(vs: seq<Vec>, c: Vec, spots: Spots, playerNo: int, capture: bool)
    requires |vs| == 1
    ensures Ray(vs, c, 1, spots, playerNo, capture)
      == if Recordable(spots, Add(c, vs[0]), playerNo, capture) then [Add(c, vs[0])] else []
  {
    SinglePass(vs, c, spots, playerNo, capture);
    assert RayUpTo(vs, c, 0, spots, playerNo, capture) == RayState(c, [], false);
  }

  lemma SingleVectorVariant(m: Movement, direction: string, i: nat)
    requires |m.locations| == 1
    ensures |VariantVectors(m, direction, i)| == 1
      && VariantVectors(m, direction, i)[0] == RotateN(m.locations[0], Turns(direction) + i)
  {
  }

  /**
   * How many of the cells `c + v`, `c + 2v`, ..., `c + nv`, counted from the
   * first, are on the board and empty before the first that is not.
   */
  function FreeSteps(spots: Spots, c: Vec, v: Vec, n: nat): (m: nat)
    ensures m <= n
    ensures m < n ==> !Free(spots, Shift(c, v, m + 1))
    decreases n
  {
    if n == 0 then 0
    else
      var m := FreeSteps(spots, c, v, n - 1);
      if m == n - 1 && Free(spots, Shift(c, v, n)) then n else m
  }

  /** Every cell before the first blocked one is on the board and empty. */
  lemma {:induction false} FreeStepsFree(spots: Spots, c: Vec, v: Vec, n: nat, i: nat)
    requires 1 <= i <= FreeSteps(spots, c, v, n)
    ensures Free(spots, Shift(c, v, i))
    decreases n
  {
    if i < n {
      FreeStepsFree(spots, c, v, n - 1, i);
    }
  }

  /** The cells `c + v`, `c + 2v`, ..., `c + mv`, in that order. */
  function Steps(c: Vec, v: Vec, m: nat): (r: seq<Vec>)
    ensures |r| == m
    decreases m
  {
    if m == 0 then [] else Steps(c, v, m - 1) + [Shift(c, v, m)]
  }

  /** The `i`-th recorded step is `c + (i + 1)v`. */
  lemma {:induction false} StepsCells(c: Vec, v: Vec, m: nat, i: nat)
    requires i < m
    ensures Steps(c, v, m)[i] == Shift(c, v, i + 1)
    decreases m
  {
    if i < m - 1 {
      StepsCells(c, v, m - 1, i);
    }
  }

  /**
   * Move mode, one vector: the ray records `c + v`, `c + 2v`, ... for as long
   * as those cells are on the board and empty, and stops at the first that
   * is not, recording nothing at or beyond it.
   */
  lemma {:induction false} SlideMoves(v: Vec, c: Vec, n: nat, spots: Spots, playerNo: int)
    ensures var s := RayUpTo([v], c, n, spots, playerNo, false);
      var m := FreeSteps(spots, c, v, n);
      s.stopped == (m < n) && s.found == Steps(c, v, m) && (!s.stopped ==> s.cursor == Shift(c, v, n))
    decreases n
  {
    if n > 0 {
      SlideMoves(v, c, n - 1, spots, playerNo);
      var s0 := RayUpTo([v], c, n - 1, spots, playerNo, false);
      if s0.stopped {
        assert RayUpTo([v], c, n, spots, playerNo, false) == s0;
        assert FreeSteps(spots, c, v, n) == FreeSteps(spots, c, v, n - 1);
      } else {
        SinglePass([v], s0.cursor, spots, playerNo, false);
        var p := Pass([v], s0.cursor, spots, playerNo, false);
        assert RayUpTo([v], c, n, spots, playerNo, false) == RayState(p.cursor, s0.found + p.found, p.stop);
        var next := Shift(c, v, n);
        if Free(spots, next) {
          assert FreeSteps(spots, c, v, n) == n;
          assert s0.found + p.found == Steps(c, v, n - 1) + [next];
        } else {
          assert FreeSteps(spots, c, v, n) == n - 1;
          assert s0.found + p.found == s0.found;
        }
      }
    }
  }

  /**
   * Capture mode, one vector: empty cells are passed over, the ray stops at
   * the first cell that is occupied or off the board, and it records that
   * cell exactly when another player's piece stands on it.
   */
  lemma {:induction false} SlideCaptures(v: Vec, c: Vec, n: nat, spots: Spots, playerNo: int)
    ensures var s := RayUpTo([v], c, n, spots, playerNo, true);
      var m := FreeSteps(spots, c, v, n);
      var stop := Shift(c, v, m + 1);
      s.stopped == (m < n)
      && s.found == (if m < n && Enemy(spots, stop, playerNo) then [stop] else [])
      && (!s.stopped ==> s.cursor == Shift(c, v, n))
    decreases n
  {
    if n > 0 {
      SlideCaptures(v, c, n - 1, spots, playerNo);
      var s0 := RayUpTo([v], c, n - 1, spots, playerNo, true);
      if s0.stopped {
        assert RayUpTo([v], c, n, spots, playerNo, true) == s0;
        assert FreeSteps(spots, c, v, n) == FreeSteps(spots, c, v, n - 1);
      } else {
        SinglePass([v], s0.cursor, spots, playerNo, true);
        var p := Pass([v], s0.cursor, spots, playerNo, true);
        assert RayUpTo([v], c, n, spots, playerNo, true) == RayState(p.cursor, s0.found + p.found, p.stop);
        var next := Shift(c, v, n);
        assert s0.found == [];
        if Free(spots, next) {
          assert FreeSteps(spots, c, v, n) == n;
          assert p.found == [] && !p.stop;
        } else {
          assert FreeSteps(spots, c, v, n) == n - 1;
          assert p.found == (if Enemy(spots, next, playerNo) then [next] else []) && p.stop;
        }
      }
    }
  }

  /**
   * A repetition that cancels nothing only ever stood on the board, and its
   * cursor has moved by the net displacement of the vectors walked.
   */
  lemma {:induction false} PassCursor(vs: seq<Vec>, k: nat, c: Vec, spots: Spots, playerNo: int, capture: bool)
    requires k <= |vs|
    ensures var s := PassUpTo(vs, k, c, spots, playerNo, capture);
      (s.halted ==> s.stop)
      && (!s.stop ==> s.cursor == Add(c, Sum(vs[..k])) && (k > 0 ==> OnBoard(spots, s.cursor)))
    decreases k
  {
    if k > 0 {
      PassCursor(vs, k - 1, c, spots, playerNo, capture);
      assert vs[..k][..k - 1] == vs[..k - 1];
    }
  }

  /** After `j` repetitions that cancelled nothing the cursor stands, on the board, at `c + j * Sum(vs)`. */
  lemma {:induction false} RayCursor(vs: seq<Vec>, c: Vec, j: nat, spots: Spots, playerNo: int, capture: bool)
    requires vs != []
    ensures var s := RayUpTo(vs, c, j, spots, playerNo, capture);
      !s.stopped ==> s.cursor == Shift(c, Sum(vs), j) && (j > 0 ==> OnBoard(spots, s.cursor))
    decreases j
  {
    if j > 0 {
      RayCursor(vs, c, j - 1, spots, playerNo, capture);
      var s := RayUpTo(vs, c, j - 1, spots, playerNo, capture);
      if !s.stopped {
        PassCursor(vs, |vs|, s.cursor, spots, playerNo, capture);
        assert vs[..|vs|] == vs;
      }
    }
  }

  /** Moving `f >= w` times by a nonzero step leaves any interval of width `w`. */
  lemma Escapes(x: int, d: int, f: nat, w: int)
    requires 0 <= x < w <= f && d != 0
    ensures !(0 <= x + f * d < w)
  {
    if d > 0 {
      assert f * d >= f * 1;
    } else {
      assert f * d <= f * -1;
    }
  }

  /**
   * On a `width` x `height` board, a ray whose vectors have a nonzero net
   * displacement is cancelled within `Fuel(spots)` repetitions.
   */
  lemma FuelSuffices(vs: seq<Vec>, c: Vec, spots: Spots, playerNo: int, capture: bool, width: int, height: int)
    requires IsGrid(spots, width, height) && OnBoard(spots, c) && Sum(vs) != Zero
    ensures RayUpTo(vs, c, Fuel(spots), spots, playerNo, capture).stopped
  {
    var f := Fuel(spots);
    var d := Sum(vs);
    assert Sum([]) == Zero;
    RayCursor(vs, c, f, spots, playerNo, capture);
    ShiftScales(c, d, f);
    var s := RayUpTo(vs, c, f, spots, playerNo, capture);
    if !s.stopped {
      assert 0 <= c.x + f * d.x < width && 0 <= c.y + f * d.y < height;
      if d.x != 0 {
        Escapes(c.x, d.x, f, width);
      }
      if d.y != 0 {
        Escapes(c.y, d.y, f, height);
      }
    }
  }

  /** With enough repetitions, a variant's ray is the one the fuel bound gives. */
  lemma RayFuel(m: Movement, direction: string, count: nat, i: nat, origin: Vec, n: nat, spots: Spots, playerNo: int, capture: bool, width: int, height: int)
    requires IsGrid(spots, width, height) && OnBoard(spots, origin) && Sum(m.locations) != Zero && n >= Fuel(spots) && i < count
    ensures Rays(m, direction, count, origin, n, spots, playerNo, capture)[i]
      == Rays(m, direction, count, origin, Fuel(spots), spots, playerNo, capture)[i]
  {
    var t := Turns(direction) + i;
    var vs := VariantVectors(m, direction, i);
    SumRotateAll(m.locations, t);
    RotateLinear(Sum(m.locations), Zero, t);
    FuelSuffices(vs, origin, spots, playerNo, capture, width, height);
    StoppedStays(vs, origin, Fuel(spots), n, spots, playerNo, capture);
  }

  lemma RaysFuel(m: Movement, direction: string, count: nat, origin: Vec, n: nat, spots: Spots, playerNo: int, capture: bool, width: int, height: int)
    requires IsGrid(spots, width, height) && OnBoard(spots, origin) && Sum(m.locations) != Zero && n >= Fuel(spots)
    ensures Rays(m, direction, count, origin, n, spots, playerNo, capture)
      == Rays(m, direction, count, origin, Fuel(spots), spots, playerNo, capture)
  {
    forall i | 0 <= i < count
      ensures Rays(m, direction, count, origin, n, spots, playerNo, capture)[i]
        == Rays(m, direction, count, origin, Fuel(spots), spots, playerNo, capture)[i]
    {
      RayFuel(m, direction, count, i, origin, n, spots, playerNo, capture, width, height);
    }
  }

  /**
   * `times = Infinity` is "repeat until stopped": for vectors with a nonzero net
   * displacement, the unbounded rule yields what the same rule repeated any
   * `n >= Fuel(spots)` times yields.
   */
  lemma UnboundedIsLimit(m: Movement, origin: Vec, spots: Spots, player: Player, capture: bool, n: nat, width: int, height: int)
    requires m.times == Unbounded && Sum(m.locations) != Zero && n >= Fuel(spots)
    requires IsGrid(spots, width, height) && OnBoard(spots, origin)
    ensures Walk(m.(times := Finite(n)), origin, spots, player, capture) == Walk(m, origin, spots, player, capture)
  {
    var m' := m.(times := Finite(n));
    assert Rays(m', player.direction, m.rotate + 1, origin, n, spots, player.playerNo, capture)
        == Rays(m, player.direction, m.rotate + 1, origin, n, spots, player.playerNo, capture);
    RaysFuel(m, player.direction, m.rotate + 1, origin, n, spots, player.playerNo, capture, width, height);
  }

  /**
   * Leaving the board cancels only the next repetition: the remaining vectors
   * of the current one are still applied, and a cell they reach back on the
   * board is recorded.
   */
  lemma OffBoardContinues()
    ensures Walk(Movement(false, [Vec(-1, 0), Vec(1, 1)], 0, Finite(2)), Vec(0, 0), EmptyGrid(6, 6),
                 Player("white", 0), false) == [Vec(0, 1)]
  {
    var spots := EmptyGrid(6, 6);
    var vs := [Vec(-1, 0), Vec(1, 1)];
    assert PassUpTo(vs, 1, Vec(0, 0), spots, 0, false) == PassState(Vec(-1, 0), [], true, false);
    assert At(spots, Vec(0, 1)) == None;
    assert Pass(vs, Vec(0, 0), spots, 0, false) == PassState(Vec(0, 1), [Vec(0, 1)], true, false);
    assert RayUpTo(vs, Vec(0, 0), 2, spots, 0, false) == RayState(Vec(0, 1), [Vec(0, 1)], true);
    assert VariantVectors(Movement(false, vs, 0, Finite(2)), "north", 0) == vs;
  }

  /** An on-board cell holding any piece. */
  predicate Occupied(spots: Spots, p: Vec) {
    OnBoard(spots, p) && At(spots, p).Some?
  }

  /** Where the cursor of a repetition from `c` stands after its first `i` vectors. */
  function Reach(vs: seq<Vec>, c: Vec, i: nat): Vec
    requires i <= |vs|
  {
    Add(c, Sum(vs[..i]))
  }

  /** The cells among the first `k` cursor positions that the mode records, in order. */
  function Kept(vs: seq<Vec>, k: nat, c: Vec, spots: Spots, playerNo: int, capture: bool): seq<Vec>
    requires k <= |vs|
  {
    if k == 0 then []
    else
      var p := Reach(vs, c, k);
      Kept(vs, k - 1, c, spots, playerNo, capture) + (if Recordable(spots, p, playerNo, capture) then [p] else [])
  }

  lemma ReachSucc(vs: seq<Vec>, c: Vec, k: nat)
    requires 0 < k <= |vs|
    ensures Reach(vs, c, k) == Add(Reach(vs, c, k - 1), vs[k - 1])
  {
    assert vs[..k][..k - 1] == vs[..k - 1];
  }

  /**
   * One repetition, whole: it ends early exactly in move mode when some
   * cursor position holds a piece; until then the cursor visits every
   * position, leaving the board does not end it, and in capture mode a piece
   * does not end it either: each position is judged on its own, and the next
   * repetition is cancelled when any position was off the board or occupied.
   */
  lemma {:induction false} PassOutcome(vs: seq<Vec>, k: nat, c: Vec, spots: Spots, playerNo: int, capture: bool)
    requires k <= |vs|
    ensures var s := PassUpTo(vs, k, c, spots, playerNo, capture);
      (s.halted <==> !capture && exists i :: 1 <= i <= k && Occupied(spots, Reach(vs, c, i)))
      && (!s.halted ==>
            s.cursor == Reach(vs, c, k)
            && s.found == Kept(vs, k, c, spots, playerNo, capture)
            && (s.stop <==> exists i :: 1 <= i <= k && !Free(spots, Reach(vs, c, i))))
    decreases k
  {
    if k > 0 {
      PassOutcome(vs, k - 1, c, spots, playerNo, capture);
      ReachSucc(vs, c, k);
    }
  }

  /**
   * A repetition in move mode that ends early ends at the first cursor
   * position holding a piece, having recorded exactly the recordable
   * positions before it and nothing at or beyond it.
   */
  lemma {:induction false} PassHalts(vs: seq<Vec>, k: nat, c: Vec, spots: Spots, playerNo: int)
    requires k <= |vs|
    ensures var s := PassUpTo(vs, k, c, spots, playerNo, false);
      s.halted ==>
        exists h :: 1 <= h <= k && Occupied(spots, Reach(vs, c, h))
          && (forall i :: 1 <= i < h ==> !Occupied(spots, Reach(vs, c, i)))
          && s.cursor == Reach(vs, c, h)
          && s.found == Kept(vs, h - 1, c, spots, playerNo, false)
    decreases k
  {
    if k > 0 {
      PassHalts(vs, k - 1, c, spots, playerNo);
      PassOutcome(vs, k - 1, c, spots, playerNo, false);
      ReachSucc(vs, c, k);
      var s0 := PassUpTo(vs, k - 1, c, spots, playerNo, false);
      if !s0.halted && PassUpTo(vs, k, c, spots, playerNo, false).halted {
        assert Occupied(spots, Reach(vs, c, k));
        assert forall i :: 1 <= i < k ==> !Occupied(spots, Reach(vs, c, i));
      }
    }
  }
}
