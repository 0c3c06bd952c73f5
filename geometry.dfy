/** A nullable value: the `null` a board cell or an optional argument may hold. */
module Wrappers {
  datatype Option<+T> = None | Some(value: T)
}

/**
 * Integer plane vectors, used both as board locations `{x, y}` and as the
 * deltas of a movement rule, and the clockwise quarter turn that orients a
 * rule for a player and generates its rotated variants.
 */
module Geometry {

  datatype Vec = Vec(x: int, y: int)

  const Zero := Vec(0, 0)

  function Add(a: Vec, b: Vec): Vec {
    Vec(a.x + b.x, a.y + b.y)
  }

  /** One clockwise quarter turn, (x, y) |-> (y, -x). */
  function Rotate(v: Vec): Vec {
    Vec(v.y, v.x * -1)
  }

  /** `k` successive quarter turns. */
  function RotateN(v: Vec, k: nat): Vec
    decreases k
  {
    if k == 0 then v else Rotate(RotateN(v, k - 1))
  }

  /** Every vector of a rule turned `k` times. */
  function RotateAll(vs: seq<Vec>, k: nat): seq<Vec> {
    seq(|vs|, i requires 0 <= i < |vs| => RotateN(vs[i], k))
  }

  /** The net displacement of walking a vector sequence once. */
  function Sum(vs: seq<Vec>): Vec
    decreases |vs|
  {
    if vs == [] then Zero else Add(Sum(vs[..|vs| - 1]), vs[|vs| - 1])
  }

  /** `c` moved `k` times by `v`, one step at a time. */
  function Shift(c: Vec, v: Vec, k: nat): Vec
    decreases k
  {
    if k == 0 then c else Add(Shift(c, v, k - 1), v)
  }

  /** Four quarter turns are the identity. */
  lemma RotateFour(v: Vec)
    ensures RotateN(v, 4) == v
  {
    calc {
      RotateN(v, 4);
      Rotate(Rotate(Rotate(Rotate(v))));
      Rotate(Rotate(Vec(-v.x, -v.y)));
      v;
    }
  }

  /** Turning `a` times and then `b` times is turning `a + b` times. */
  lemma {:induction false} RotateCompose(v: Vec, a: nat, b: nat)
    ensures RotateN(RotateN(v, a), b) == RotateN(v, a + b)
    decreases b
  {
    if b > 0 {
      RotateCompose(v, a, b - 1);
    }
  }

  /** Only the number of turns modulo four matters. */
  lemma {:induction false} RotatePeriodic(v: Vec, k: nat)
    ensures RotateN(v, k) == RotateN(v, k % 4)
    decreases k
  {
    if k >= 4 {
      RotatePeriodic(v, k - 4);
      RotateFour(v);
      RotateCompose(v, 4, k - 4);
      assert (k - 4) % 4 == k % 4;
    }
  }

  /** Turning a whole rule composes like turning one vector. */
  lemma RotateAllCompose(vs: seq<Vec>, a: nat, b: nat)
    ensures RotateAll(RotateAll(vs, a), b) == RotateAll(vs, a + b)
  {
    forall i | 0 <= i < |vs|
      ensures RotateAll(RotateAll(vs, a), b)[i] == RotateAll(vs, a + b)[i]
    {
      RotateCompose(vs[i], a, b);
    }
  }

  /** A turn is linear and sends only the zero vector to zero. */
  lemma {:induction false} RotateLinear(a: Vec, b: Vec, k: nat)
    ensures RotateN(Add(a, b), k) == Add(RotateN(a, k), RotateN(b, k))
    ensures RotateN(a, k) == Zero <==> a == Zero
    decreases k
  {
    if k > 0 {
      RotateLinear(a, b, k - 1);
    }
  }

  /** The net displacement of a turned rule is the turned displacement. */
  lemma {:induction false} SumRotateAll(vs: seq<Vec>, k: nat)
    ensures Sum(RotateAll(vs, k)) == RotateN(Sum(vs), k)
    decreases |vs|
  {
    if vs == [] {
      RotateLinear(Zero, Zero, k);
    } else {
      var n := |vs| - 1;
      assert RotateAll(vs, k)[..n] == RotateAll(vs[..n], k);
      SumRotateAll(vs[..n], k);
      RotateLinear(Sum(vs[..n]), vs[n], k);
    }
  }

  /** `k` steps along `v` move `c` by `k` times `v`. */
  lemma {:induction false} ShiftScales(c: Vec, v: Vec, k: nat)
    ensures Shift(c, v, k) == Vec(c.x + k * v.x, c.y + k * v.y)
    decreases k
  {
    if k > 0 {
      ShiftScales(c, v, k - 1);
      assert k * v.x == (k - 1) * v.x + v.x;
      assert k * v.y == (k - 1) * v.y + v.y;
    }
  }

  /** The first `k` vector lists, one after another. */
  function Concat(ss: seq<seq<Vec>>, k: nat): seq<Vec>
    requires k <= |ss|
    decreases k
  {
    if k == 0 then [] else Concat(ss, k - 1) + ss[k - 1]
  }

  /** Two lists, one after the other. */
  lemma ConcatTwo(ss: seq<seq<Vec>>)
    requires |ss| == 2
    ensures Concat(ss, 2) == ss[0] + ss[1]
  {
    assert Concat(ss, 1) == ss[0];
  }

  /** Four lists, one after another. */
  lemma ConcatFour(ss: seq<seq<Vec>>)
    requires |ss| == 4
    ensures Concat(ss, 4) == ss[0] + ss[1] + ss[2] + ss[3]
  {
    assert Concat(ss, 1) == ss[0];
  }

  /** A vector is in the concatenation exactly when it is in one of the lists. */
  lemma {:induction false} ConcatMembership(ss: seq<seq<Vec>>, k: nat, v: Vec)
    requires k <= |ss|
    ensures v in Concat(ss, k) <==> exists i :: 0 <= i < k && v in ss[i]
    decreases k
  {
    if k > 0 {
      ConcatMembership(ss, k - 1, v);
      assert v in Concat(ss, k) <==> v in Concat(ss, k - 1) || v in ss[k - 1];
    }
  }
}
