/** Shared vocabulary of the two canvas maps: optional values, screen points
    and the quadratic Bezier curve both maps draw their routes along. */
module Common {

  /** An absent-or-present value; stands for the `string | null` and
      `T | undefined` values of the site. */
  datatype Option<+T> = None | Some(value: T)

  /** A point in canvas pixel space. */
  datatype Point = Point(x: real, y: real)

  function Min(a: real, b: real): real { if a <= b then a else b }
  function Max(a: real, b: real): real { if a <= b then b else a }

  /** Squared Euclidean distance; the site's `Math.sqrt(d) < 15` hit-tests
      are the equivalent `d < 225`. */
  function DistSq(a: Point, b: Point): real
  {
    (a.x - b.x) * (a.x - b.x) + (a.y - b.y) * (a.y - b.y)
  }

  /** A marker is hit when the pointer lies strictly within radius 15 of it. */
  predicate WithinHitRadius(pointer: Point, marker: Point)
  {
    DistSq(pointer, marker) < 225.0
  }

  /** `(1 - t)²·p0 + 2(1 - t)t·c + t²·p1`, the formula both maps write out. */
  function Quadratic(p0: real, c: real, p1: real, t: real): real
  {
    (1.0 - t) * (1.0 - t) * p0 + 2.0 * (1.0 - t) * t * c + t * t * p1
  }

  /** One coordinate of the quadratic Bezier curve with end points `p0`, `p1`
      and control `c`, at parameter `t`. */
  function BezierCoord(p0: real, c: real, p1: real, t: real): (r: real)
    ensures t == 0.0 ==> r == p0
    ensures t == 1.0 ==> r == p1
    ensures 0.0 <= t <= 1.0 ==> Min(p0, Min(c, p1)) <= r <= Max(p0, Max(c, p1))
  {
    assert 0.0 <= t <= 1.0 ==> Min(p0, Min(c, p1)) <= Quadratic(p0, c, p1, t) <= Max(p0, Max(c, p1)) by {
      if 0.0 <= t <= 1.0 {
        ConvexCombination(t, p0, c, p1);
      }
    }
    Quadratic(p0, c, p1, t)
  }

  /** The point at parameter `t` on the curve from `from` to `to` bent by `ctrl`. */
  function Bezier(from: Point, ctrl: Point, to: Point, t: real): (r: Point)
    ensures t == 0.0 ==> r == from
    ensures t == 1.0 ==> r == to
    ensures 0.0 <= t <= 1.0 ==>
      Min(from.x, Min(ctrl.x, to.x)) <= r.x <= Max(from.x, Max(ctrl.x, to.x)) &&
      Min(from.y, Min(ctrl.y, to.y)) <= r.y <= Max(from.y, Max(ctrl.y, to.y))
  {
    Point(BezierCoord(from.x, ctrl.x, to.x, t), BezierCoord(from.y, ctrl.y, to.y, t))
  }

  /** The Bernstein weights of a quadratic curve are non-negative and sum to 1,
      so the curve stays inside the range of its three defining values. */
  lemma ConvexCombination(t: real, x: real, y: real, z: real)
    requires 0.0 <= t <= 1.0
    ensures Min(x, Min(y, z)) <= Quadratic(x, y, z, t) <= Max(x, Max(y, z))
  {
    var u := 1.0 - t;
    MulNonneg(u, u);
    MulNonneg(2.0 * u, t);
    MulNonneg(t, t);
    WeightedBetween(u * u, 2.0 * u * t, t * t, x, y, z, Min(x, Min(y, z)), Max(x, Max(y, z)));
    assert u * u + 2.0 * u * t + t * t == 1.0;
  }

  /** A weighted sum with non-negative weights lies between the bounds of the
      summed values, each scaled by the total weight. */
  lemma WeightedBetween(a: real, b: real, c: real, x: real, y: real, z: real, lo: real, hi: real)
    requires 0.0 <= a && 0.0 <= b && 0.0 <= c
    requires lo <= x <= hi && lo <= y <= hi && lo <= z <= hi
    ensures (a + b + c) * lo <= a * x + b * y + c * z <= (a + b + c) * hi
  {
    MulNonneg(a, x - lo); MulNonneg(b, y - lo); MulNonneg(c, z - lo);
    MulNonneg(a, hi - x); MulNonneg(b, hi - y); MulNonneg(c, hi - z);
    assert a * x + b * y + c * z - (a + b + c) * lo == a * (x - lo) + b * (y - lo) + c * (z - lo);
    assert (a + b + c) * hi - (a * x + b * y + c * z) == a * (hi - x) + b * (hi - y) + c * (hi - z);
  }

  lemma MulNonneg(k: real, d: real)
    requires 0.0 <= k && 0.0 <= d
    ensures 0.0 <= k * d
  {
  }

  /** `xs.flatMap(f)`: the images of the elements of `xs`, concatenated in order. */
  function FlatMap<A, B>(xs: seq<A>, f: A -> seq<B>): seq<B>
  {
    if |xs| == 0 then [] else f(xs[0]) + FlatMap(xs[1..], f)
  }

  /** flatMap distributes over concatenation. */
  lemma {:induction false} FlatMapAppend<A, B>(xs: seq<A>, ys: seq<A>, f: A -> seq<B>)
    ensures FlatMap(xs + ys, f) == FlatMap(xs, f) + FlatMap(ys, f)
  {
    if |xs| == 0 {
      assert xs + ys == ys;
    } else {
      assert (xs + ys)[1..] == xs[1..] + ys;
      FlatMapAppend(xs[1..], ys, f);
    }
  }

  /** Element `i` of the image of `xs[k]` sits in the result right after the
      images of the `k` elements before it: order of `xs` first, then order
      within each image. */
  lemma FlatMapAt<A, B>(xs: seq<A>, f: A -> seq<B>, k: nat, i: nat)
    requires k < |xs| && i < |f(xs[k])|
    ensures |FlatMap(xs[..k], f)| + i < |FlatMap(xs, f)|
    ensures FlatMap(xs, f)[|FlatMap(xs[..k], f)| + i] == f(xs[k])[i]
  {
    assert xs == xs[..k] + ([xs[k]] + xs[k + 1..]);
    FlatMapAppend(xs[..k], [xs[k]] + xs[k + 1..], f);
    FlatMapAppend([xs[k]], xs[k + 1..], f);
    assert FlatMap([xs[k]], f) == f(xs[k]) by {
      assert [xs[k]][1..] == [];
    }
  }

  /** Conversely, every position of the result comes from some element `i` of
      the image of some `xs[k]`. */
  lemma {:induction false} FlatMapSource<A, B>(xs: seq<A>, f: A -> seq<B>, j: nat) returns (k: nat, i: nat)
    requires j < |FlatMap(xs, f)|
    ensures k < |xs| && i < |f(xs[k])|
    ensures j == |FlatMap(xs[..k], f)| + i
  {
    if j < |f(xs[0])| {
      k, i := 0, j;
      assert xs[..0] == [];
    } else {
      var k', i' := FlatMapSource(xs[1..], f, j - |f(xs[0])|);
      k, i := k' + 1, i';
      assert xs[..k] == [xs[0]] + xs[1..][..k'];
      FlatMapAppend([xs[0]], xs[1..][..k'], f);
      assert FlatMap([xs[0]], f) == f(xs[0]) by {
        assert [xs[0]][1..] == [];
      }
    }
  }

  /** A fraction of a non-negative extent stays within that extent. */
  lemma ScaleWithin(f: real, e: real)
    requires 0.0 <= f <= 1.0 && 0.0 <= e
    ensures 0.0 <= f * e <= e
  {
    MulNonneg(f, e);
    MulNonneg(1.0 - f, e);
    assert e - f * e == (1.0 - f) * e;
  }

  /** A part of a positive whole is a fraction between 0 and 1 of it. */
  lemma DivWithin(a: real, d: real)
    requires 0.0 <= a <= d && 0.0 < d
    ensures 0.0 <= a / d <= 1.0
  {
    var q := a / d;
    assert q * d == a;
    assert (1.0 - q) * d == d - a;
  }
}
