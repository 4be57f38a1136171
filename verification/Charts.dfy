/**
 The monotone cubic path of the rate charts, over the reals: the Fritsch-Carlson tangents
 keep every segment between its two data points. Where the code divides by zero and its
 not-a-number falls through to 0, so does the model.
 */
module Charts {

  datatype Pt = Pt(x: real, y: real)

  /** One cubic segment: two control points and the end point. */
  datatype Seg = Seg(c1: Pt, c2: Pt, end: Pt)

  datatype Path = Empty | Line(from: Pt, to: Pt) | Curve(start: Pt, segs: seq<Seg>)

  function Sgn(x: real): real { if x < 0.0 then -1.0 else 1.0 }

  function Abs(x: real): real { if x < 0.0 then -x else x }

  function Min(x: real, y: real): real { if x < y then x else y }

  function Secant(a: Pt, b: Pt): real { if b.x != a.x then (b.y - a.y) / (b.x - a.x) else 0.0 }

  /** Half the size of the parabolic tangent. */
  function Pull(w: real, h: real): (r: real)
    requires h != 0.0
    ensures r >= 0.0
  {
    0.5 * Abs(w / h)
  }

  /** The common direction of two secants, at most twice the size of either and of the bound. */
  function Pinch(s0: real, s1: real, bound: real): real {
    (Sgn(s0) + Sgn(s1)) * Min(Min(Abs(s0), Abs(s1)), bound)
  }

  /** The parabolic tangent times the total width. */
  function Lean(s0: real, h0: real, s1: real, h1: real): real { s0 * h1 + s1 * h0 }

  /** The interior tangent. A zero total width makes the third bound infinite, or
      not-a-number and the tangent 0. */
  function Slope3(a: Pt, b: Pt, c: Pt): real {
    var h0, h1 := b.x - a.x, c.x - b.x;
    var s0, s1 := Secant(a, b), Secant(b, c);
    var w := Lean(s0, h0, s1, h1);
    if h0 + h1 != 0.0 then Pinch(s0, s1, Pull(w, h0 + h1))
    else if w != 0.0 then Pinch(s0, s1, Abs(s0))
    else 0.0
  }

  /** The tangent at an end, given the interior one. */
  function Slope2(a: Pt, b: Pt, t: real): real {
    var h := b.x - a.x;
    if h != 0.0 then (3.0 * (b.y - a.y)) / h / 2.0 - t / 2.0 else t
  }

  function Tangent(p: seq<Pt>, i: nat): real
    requires |p| >= 3 && i < |p|
  {
    var n := |p|;
    if i == 0 then Slope2(p[0], p[1], Slope3(p[0], p[1], p[2]))
    else if i == n - 1 then Slope2(p[n - 2], p[n - 1], Slope3(p[n - 3], p[n - 2], p[n - 1]))
    else Slope3(p[i - 1], p[i], p[i + 1])
  }

  /** The segment between two points with the given tangents at its ends. */
  function Segment(a: Pt, b: Pt, m0: real, m1: real): Seg {
    var dx := (b.x - a.x) / 3.0;
    Seg(Pt(a.x + dx, a.y + dx * m0), Pt(b.x - dx, b.y - dx * m1), b)
  }

  ghost predicate IsPath(path: Path, p: seq<Pt>) {
    match path
    case Empty => |p| < 2
    case Line(from, to) => |p| == 2 && from == p[0] && to == p[1]
    case Curve(start, segs) =>
      && |p| >= 3 && start == p[0] && |segs| == |p| - 1
      && forall i :: 0 <= i < |segs| ==> segs[i] == Segment(p[i], p[i + 1], Tangent(p, i), Tangent(p, i + 1))
  }

  method MonotonePath(p: seq<Pt>) returns (path: Path)
    ensures IsPath(path, p)
  {
    hide Slope2, Slope3, Segment;
    var n := |p|;
    if n < 2 {
      return Empty;
    }
    if n == 2 {
      return Line(p[0], p[1]);
    }
    var m := new real[n];
    for i := 1 to n - 1
      invariant forall k :: 1 <= k < i ==> m[k] == Tangent(p, k)
    {
      m[i] := Slope3(p[i - 1], p[i], p[i + 1]);
    }
    assert m[1] == Tangent(p, 1) && m[n - 2] == Tangent(p, n - 2);
    m[0] := Slope2(p[0], p[1], m[1]);
    m[n - 1] := Slope2(p[n - 2], p[n - 1], m[n - 2]);
    var segs := [];
    for i := 0 to n - 1
      invariant |segs| == i
      invariant forall k :: 0 <= k < i ==> segs[k] == Segment(p[k], p[k + 1], Tangent(p, k), Tangent(p, k + 1))
    {
      assert m[i] == Tangent(p, i) && m[i + 1] == Tangent(p, i + 1);
      segs := segs + [Segment(p[i], p[i + 1], m[i], m[i + 1])];
    }
    path := Curve(p[0], segs);
  }

  // ---- the tangents -------------------------------------------------------

  predicate Between(a: real, x: real, b: real) { a <= x <= b || b <= x <= a }

  lemma {:induction false} MulMono(k: real, x: real, y: real)
    requires 0.0 <= k && x <= y
    ensures k * x <= k * y
  {
  }

  lemma {:induction false} ScaleBetween(h: real, m: real, s: real)
    requires Between(0.0, m, s)
    ensures Between(0.0, h * m, h * s)
  {
    if h >= 0.0 {
      if 0.0 <= m <= s { MulMono(h, 0.0, m); MulMono(h, m, s); } else { MulMono(h, m, 0.0); MulMono(h, s, m); }
    } else {
      var k := -h;
      assert h * m == -(k * m) && h * s == -(k * s);
      if 0.0 <= m <= s { MulMono(k, 0.0, m); MulMono(k, m, s); } else { MulMono(k, m, 0.0); MulMono(k, s, m); }
    }
  }

  lemma {:induction false} SecantRise(a: Pt, b: Pt)
    ensures b.x != a.x ==> (b.x - a.x) * Secant(a, b) == b.y - a.y
  {
  }

  /** The limited tangent has the sign of both secants and at most twice either's size;
      where they disagree it is flat. */
  lemma {:induction false} LimitedTangent(s0: real, s1: real, bound: real)
    requires bound >= 0.0
    ensures Between(0.0, Pinch(s0, s1, bound), 2.0 * s0) && Between(0.0, Pinch(s0, s1, bound), 2.0 * s1)
  {
    var least := Min(Min(Abs(s0), Abs(s1)), bound);
    assert Sgn(s0) != Sgn(s1) ==> Pinch(s0, s1, bound) == 0.0 * least;
    assert s0 < 0.0 && s1 < 0.0 ==> Pinch(s0, s1, bound) == (-2.0) * least;
    assert s0 >= 0.0 && s1 >= 0.0 ==> Pinch(s0, s1, bound) == 2.0 * least;
  }

  lemma {:induction false} InteriorTangent(a: Pt, b: Pt, c: Pt)
    ensures Between(0.0, Slope3(a, b, c), 2.0 * Secant(a, b))
    ensures Between(0.0, Slope3(a, b, c), 2.0 * Secant(b, c))
  {
    hide Secant, Pull, Pinch, Abs, Lean;
    var h0, h1 := b.x - a.x, c.x - b.x;
    var s0, s1 := Secant(a, b), Secant(b, c);
    var w := Lean(s0, h0, s1, h1);
    if h0 + h1 != 0.0 {
      LimitedTangent(s0, s1, Pull(w, h0 + h1));
    } else if w != 0.0 {
      assert Abs(s0) >= 0.0 by { AbsIsPositive(s0); }
      LimitedTangent(s0, s1, Abs(s0));
    }
  }

  /** With the slope m at b of the parabola through a, b and c, and the slopes s0 and s1 of the two
      chords: where the chords rise both the tangent is m, limited to twice either chord's slope;
      where they fall both likewise; else it is flat. */
  lemma {:induction false} TangentIs(a: Pt, b: Pt, c: Pt, s0: real, s1: real, m: real)
    requires a.x < b.x < c.x
    requires s0 * (b.x - a.x) == b.y - a.y && s1 * (c.x - b.x) == c.y - b.y
    requires m * (c.x - a.x) == s0 * (c.x - b.x) + s1 * (b.x - a.x)
    ensures Slope3(a, b, c) ==
      if s0 > 0.0 && s1 > 0.0 then Min(m, Min(2.0 * s0, 2.0 * s1))
      else if s0 < 0.0 && s1 < 0.0 then -Min(-m, Min(-2.0 * s0, -2.0 * s1))
      else 0.0
  {
    hide Pinch;
    var h0, h1 := b.x - a.x, c.x - b.x;
    QuotientIs(b.y - a.y, h0, s0);
    QuotientIs(c.y - b.y, h1, s1);
    QuotientIs(Lean(s0, h0, s1, h1), h0 + h1, m);
    if s0 > 0.0 && s1 > 0.0 { MeanSign(s0, s1, h0, h1, m); }
    if s0 < 0.0 && s1 < 0.0 { MeanSign(-s0, -s1, h0, h1, -m); }
    PinchIs(s0, s1, m);
  }

  lemma {:induction false} QuotientIs(a: real, b: real, q: real)
    requires b != 0.0 && q * b == a
    ensures a / b == q
  {
  }

  /** A weighted mean of positive numbers is positive. */
  lemma {:induction false} MeanSign(s0: real, s1: real, h0: real, h1: real, m: real)
    requires s0 > 0.0 && s1 > 0.0 && h0 > 0.0 && h1 > 0.0 && m * (h0 + h1) == s0 * h1 + s1 * h0
    ensures m > 0.0
  {
    assert s0 * h1 > 0.0 && s1 * h0 > 0.0;
    if m <= 0.0 { MulMono(h0 + h1, m, 0.0); }
  }

  lemma {:induction false} PinchIs(s0: real, s1: real, m: real)
    requires s0 > 0.0 && s1 > 0.0 ==> m > 0.0
    requires s0 < 0.0 && s1 < 0.0 ==> m < 0.0
    ensures Pinch(s0, s1, 0.5 * Abs(m)) ==
      if s0 > 0.0 && s1 > 0.0 then Min(m, Min(2.0 * s0, 2.0 * s1))
      else if s0 < 0.0 && s1 < 0.0 then -Min(-m, Min(-2.0 * s0, -2.0 * s1))
      else 0.0
  {
    var least := Min(Min(Abs(s0), Abs(s1)), 0.5 * Abs(m));
    assert Sgn(s0) != Sgn(s1) ==> Pinch(s0, s1, 0.5 * Abs(m)) == 0.0 * least;
    assert s0 < 0.0 && s1 < 0.0 ==> Pinch(s0, s1, 0.5 * Abs(m)) == (-2.0) * least;
    assert s0 >= 0.0 && s1 >= 0.0 ==> Pinch(s0, s1, 0.5 * Abs(m)) == 2.0 * least;
  }

  /** That m is the slope at b of a parabola through all three points. */
  lemma {:induction false} ParabolaSlope(h0: real, h1: real, s0: real, s1: real, m: real) returns (bend: real)
    requires h0 > 0.0 && h1 > 0.0 && m * (h0 + h1) == s0 * h1 + s1 * h0
    ensures s0 * h0 == m * h0 - bend * h0 * h0 && s1 * h1 == m * h1 + bend * h1 * h1
  {
    bend := (s1 - s0) / (h0 + h1);
    BendIs(h0, h1, s0, s1, m, bend);
    assert (m - bend * h0) * h0 == m * h0 - bend * h0 * h0;
    assert (m + bend * h1) * h1 == m * h1 + bend * h1 * h1;
  }

  lemma {:induction false} BendIs(h0: real, h1: real, s0: real, s1: real, m: real, bend: real)
    requires h0 > 0.0 && h1 > 0.0 && m * (h0 + h1) == s0 * h1 + s1 * h0 && bend * (h0 + h1) == s1 - s0
    ensures s0 == m - bend * h0 && s1 == m + bend * h1
  {
    var w := h0 + h1;
    assert (m - bend * h0) * w == m * w - (bend * w) * h0;
    assert (s1 - s0) * h0 == s1 * h0 - s0 * h0 && s0 * w == s0 * h0 + s0 * h1;
    CancelReal(m - bend * h0, s0, w);
    assert bend * h0 + bend * h1 == s1 - s0;
  }

  lemma {:induction false} AbsIsPositive(x: real)
    ensures Abs(x) >= 0.0
  {
  }

  /** At a repeated abscissa the tangent is flat. */
  lemma {:induction false} RepeatIsFlat(a: Pt, b: Pt, c: Pt)
    requires a.x == b.x || b.x == c.x
    ensures Slope3(a, b, c) == 0.0
  {
    hide Slope3;
    InteriorTangent(a, b, c);
  }

  /** The rise h * m of a tangent over its segment lies between none and three times the
      segment's own rise: the Fritsch-Carlson region. */
  ghost predicate Limited(a: Pt, b: Pt, m: real) {
    Between(0.0, (b.x - a.x) * m, 3.0 * (b.y - a.y)) || b.x == a.x
  }

  /** The same for at most twice the rise, as every interior tangent keeps it. */
  ghost predicate Tight(a: Pt, b: Pt, m: real) {
    b.x != a.x ==> Between(0.0, (b.x - a.x) * m, 2.0 * (b.y - a.y))
  }

  lemma {:induction false} TightIsLimited(a: Pt, b: Pt, m: real)
    requires Tight(a, b, m)
    ensures Limited(a, b, m)
  {
  }

  lemma {:induction false} InteriorIsTight(a: Pt, b: Pt, c: Pt)
    ensures Tight(a, b, Slope3(a, b, c)) && Tight(b, c, Slope3(a, b, c))
  {
    hide Slope3, Secant;
    InteriorTangent(a, b, c);
    RiseOf(a, b, Slope3(a, b, c));
    RiseOf(b, c, Slope3(a, b, c));
  }

  lemma {:induction false} RiseOf(a: Pt, b: Pt, m: real)
    requires Between(0.0, m, 2.0 * Secant(a, b))
    ensures Tight(a, b, m)
  {
    hide Secant;
    var h, s := b.x - a.x, Secant(a, b);
    ScaleBetween(h, m, 2.0 * s);
    SecantRise(a, b);
    assert h * (2.0 * s) == 2.0 * (h * s);
  }

  lemma {:induction false} HalfRise(h: real, d: real, t: real)
    requires h != 0.0
    ensures h * ((3.0 * d) / h / 2.0 - t / 2.0) == 1.5 * d - (h * t) / 2.0
  {
    var q := (3.0 * d) / h;
    assert h * q == 3.0 * d;
    assert h * (q / 2.0 - t / 2.0) == (h * q) / 2.0 - (h * t) / 2.0;
  }

  /** The rise of the end tangent: one and a half times the segment's, less half the other
      tangent's. */
  lemma {:induction false} RiseAtEnd(a: Pt, b: Pt, t: real)
    requires b.x != a.x
    ensures (b.x - a.x) * Slope2(a, b, t) == 1.5 * (b.y - a.y) - ((b.x - a.x) * t) / 2.0
  {
    HalfRise(b.x - a.x, b.y - a.y, t);
  }

  /** The end tangent is between a half and one and a half secants. */
  lemma {:induction false} EndIsLimited(a: Pt, b: Pt, t: real)
    requires Tight(a, b, t)
    ensures Limited(a, b, Slope2(a, b, t))
  {
    hide Slope2;
    if b.x != a.x {
      RiseAtEnd(a, b, t);
    }
  }

  lemma {:induction false} TangentsAreLimited(p: seq<Pt>, i: nat)
    requires |p| >= 3 && i + 1 < |p|
    ensures Limited(p[i], p[i + 1], Tangent(p, i)) && Limited(p[i], p[i + 1], Tangent(p, i + 1))
  {
    hide Slope3, Slope2, Limited, Tight;
    var n := |p|;
    if i > 0 {
      InteriorIsTight(p[i - 1], p[i], p[i + 1]);
      TightIsLimited(p[i], p[i + 1], Slope3(p[i - 1], p[i], p[i + 1]));
    }
    if i + 2 < n {
      InteriorIsTight(p[i], p[i + 1], p[i + 2]);
      TightIsLimited(p[i], p[i + 1], Slope3(p[i], p[i + 1], p[i + 2]));
    }
    if i == 0 { EndIsLimited(p[0], p[1], Slope3(p[0], p[1], p[2])); }
    if i + 2 == n { EndIsLimited(p[n - 2], p[n - 1], Slope3(p[n - 3], p[n - 2], p[n - 1])); }
  }

  // ---- cubics -------------------------------------------------------------

  /** A cubic Bezier coordinate. */
  function Bezier(p0: real, p1: real, p2: real, p3: real, t: real): real {
    var u := 1.0 - t;
    u * u * u * p0 + 3.0 * (u * u * t) * p1 + 3.0 * (u * t * t) * p2 + t * t * t * p3
  }

  function PointOn(from: Pt, s: Seg, t: real): Pt {
    Pt(Bezier(from.x, s.c1.x, s.c2.x, s.end.x, t), Bezier(from.y, s.c1.y, s.c2.y, s.end.y, t))
  }

  function Cube(x: real): real { x * x * x }

  lemma {:induction false} CubeMono(x: real, y: real)
    requires x <= y
    ensures Cube(x) <= Cube(y)
  {
    var d, s := y - x, x + y;
    assert Cube(y) - Cube(x) == d * (0.75 * (s * s) + 0.25 * (d * d));
    MulMono(d, 0.0, 0.75 * (s * s) + 0.25 * (d * d));
  }

  /** The smooth step 3t^2 - 2t^3. */
  function Smooth(t: real): real { 3.0 * (t * t) - 2.0 * Cube(t) }

  function Times(x: real, y: real): real { x * y }

  lemma {:induction false} TimesPositive(x: real, y: real)
    requires 0.0 <= x && 0.0 <= y
    ensures 0.0 <= Times(x, y)
  {
  }

  function Sq(x: real): real { x * x }

  lemma {:induction false} Factor(s: real, t: real)
    ensures Smooth(t) - Smooth(s) == Times(t - s, 3.0 * (s + t) - (3.0 * (Sq(s) + Sq(t)) - Sq(t - s)))
  {
  }

  lemma {:induction false} SquareBelow(x: real)
    requires 0.0 <= x <= 1.0
    ensures Sq(x) <= x
  {
    var y := 1.0 - x;
    Product(x, y);
    assert x * y == x - x * x;
  }

  lemma {:induction false} SquareIsPositive(s: real, t: real)
    ensures 0.0 <= Sq(t - s)
  {
  }

  /** The cubic with end rises a and c over a total rise d, from 0. */
  function Rise(a: real, c: real, d: real, t: real): real {
    var u := 1.0 - t;
    a * (3.0 * (u * u * t)) - c * (3.0 * (u * t * t)) + d * Smooth(t)
  }

  lemma {:induction false} BezierIsRise(y0: real, a: real, c: real, y1: real, t: real)
    ensures Bezier(y0, y0 + a, y1 - c, y1, t) == y0 + Rise(a, c, y1 - y0, t)
  {
    var u := 1.0 - t;
    var b0, b1, b2, b3 := u * u * u, 3.0 * (u * u * t), 3.0 * (u * t * t), t * t * t;
    assert b0 + b1 + b2 + b3 == 1.0;
    assert b2 + b3 == Smooth(t);
    assert Bezier(y0, y0 + a, y1 - c, y1, t) == b0 * y0 + b1 * (y0 + a) + b2 * (y1 - c) + b3 * y1;
    assert b1 * (y0 + a) == b1 * y0 + a * b1 && b2 * (y1 - c) == b2 * y1 - c * b2;
    assert b0 * y0 + b1 * y0 == (b0 + b1) * y0 && b2 * y1 + b3 * y1 == (b2 + b3) * y1;
    assert (b0 + b1) * y0 == y0 - (b2 + b3) * y0;
    assert (b2 + b3) * (y1 - y0) == (b2 + b3) * y1 - (b2 + b3) * y0;
  }

  /** The four corner cubics, with both end rises 0 or the whole rise, are increasing. */
  lemma {:induction false} CornersRise(s: real, t: real)
    requires 0.0 <= s <= t <= 1.0
    ensures var A := 3.0 * ((1.0 - t) * (1.0 - t) * t) - 3.0 * ((1.0 - s) * (1.0 - s) * s);
      var C := 3.0 * ((1.0 - s) * s * s) - 3.0 * ((1.0 - t) * t * t);
      var E := Smooth(t) - Smooth(s);
      E >= 0.0 && A + E >= 0.0 && C + E >= 0.0 && A + C + E >= 0.0
  {
    hide Smooth, Sq, Times, Cube;
    SquareBelow(s);
    SquareBelow(t);
    SquareIsPositive(s, t);
    Factor(s, t);
    TimesPositive(t - s, 3.0 * (s + t) - (3.0 * (Sq(s) + Sq(t)) - Sq(t - s)));
    CubeMono(s, t);
    CubeMono(1.0 - t, 1.0 - s);
    CubeMono(2.0 * s - 1.0, 2.0 * t - 1.0);
    Corner(s);
    Corner(t);
  }

  lemma {:induction false} Corner(t: real)
    ensures 3.0 * ((1.0 - t) * (1.0 - t) * t) + Smooth(t) == 1.0 - Cube(1.0 - t)
    ensures Smooth(t) - 3.0 * ((1.0 - t) * t * t) == Cube(t)
    ensures 3.0 * ((1.0 - t) * (1.0 - t) * t) - 3.0 * ((1.0 - t) * t * t) + Smooth(t) ==
      (Cube(2.0 * t - 1.0) + 1.0) / 2.0
  {
  }

  lemma {:induction false} RiseMono(a: real, c: real, d: real, s: real, t: real)
    requires 0.0 <= a <= d && 0.0 <= c <= d && 0.0 <= s <= t <= 1.0
    ensures Rise(a, c, d, s) <= Rise(a, c, d, t)
  {
    hide Rise, Smooth;
    CornersRise(s, t);
    var A := 3.0 * ((1.0 - t) * (1.0 - t) * t) - 3.0 * ((1.0 - s) * (1.0 - s) * s);
    var C := 3.0 * ((1.0 - s) * s * s) - 3.0 * ((1.0 - t) * t * t);
    var E := Smooth(t) - Smooth(s);
    RiseDiff(a, c, d, s, t);
    Weighted(a, c, d, A, C, E);
  }

  lemma {:induction false} RiseDiff(a: real, c: real, d: real, s: real, t: real)
    ensures Rise(a, c, d, t) - Rise(a, c, d, s) ==
      a * (3.0 * ((1.0 - t) * (1.0 - t) * t) - 3.0 * ((1.0 - s) * (1.0 - s) * s)) +
      c * (3.0 * ((1.0 - s) * s * s) - 3.0 * ((1.0 - t) * t * t)) + d * (Smooth(t) - Smooth(s))
  {
    hide Smooth;
  }

  /** Any rises in the box are a nonnegative mix of the corners. */
  lemma {:induction false} Weighted(a: real, c: real, d: real, A: real, C: real, E: real)
    requires 0.0 <= a <= d && 0.0 <= c <= d
    requires E >= 0.0 && A + E >= 0.0 && C + E >= 0.0 && A + C + E >= 0.0
    ensures a * A + c * C + d * E >= 0.0
  {
    if a <= c {
      Product(a, A + C + E);
      Product(c - a, C + E);
      Product(d - c, E);
      assert a * (A + C + E) + (c - a) * (C + E) + (d - c) * E == a * A + c * C + d * E;
    } else {
      Product(c, A + C + E);
      Product(a - c, A + E);
      Product(d - a, E);
      assert c * (A + C + E) + (a - c) * (A + E) + (d - a) * E == a * A + c * C + d * E;
    }
  }

  lemma {:induction false} Product(x: real, y: real)
    requires 0.0 <= x && 0.0 <= y
    ensures 0.0 <= x * y
  {
  }

  // ---- no overshoot -------------------------------------------------------

  /** Between its ends, at 0 <= s <= t <= 1, the segment moves from one data point's value
      towards the other's and never past it. */
  ghost predicate Monotone(from: Pt, seg: Seg, s: real, t: real) {
    var ys, yt := PointOn(from, seg, s).y, PointOn(from, seg, t).y;
    if from.y <= seg.end.y then from.y <= ys <= yt <= seg.end.y else from.y >= ys >= yt >= seg.end.y
  }

  /** Its abscissa runs evenly from one data point to the other. */
  ghost predicate Even(from: Pt, seg: Seg, t: real) {
    PointOn(from, seg, t).x == from.x + t * (seg.end.x - from.x)
  }

  lemma {:induction false} BezierIsEven(a: Pt, b: Pt, m0: real, m1: real, t: real)
    ensures Even(a, Segment(a, b, m0, m1), t)
  {
    hide Bezier, Rise;
    var h := b.x - a.x;
    var k := h / 3.0;
    BezierIsRise(a.x, k, k, b.x, t);
    ThirdsRise(k, t);
    assert t * (3.0 * k) == t * (b.x - a.x) by { assert 3.0 * k == b.x - a.x; }
  }

  lemma {:induction false} ThirdsRise(k: real, t: real)
    ensures Rise(k, k, 3.0 * k, t) == t * (3.0 * k)
  {
  }

  lemma {:induction false} RiseFlips(a: real, c: real, d: real, t: real)
    ensures Rise(-a, -c, -d, t) == -Rise(a, c, d, t)
  {
  }

  /** From one parameter to a later one the segment moves the way its data points lie. */
  ghost predicate Moves(from: Pt, seg: Seg, s: real, t: real) {
    var ys, yt := PointOn(from, seg, s).y, PointOn(from, seg, t).y;
    if from.y <= seg.end.y then ys <= yt else ys >= yt
  }

  lemma {:induction false} LimitedMoves(a: Pt, b: Pt, m0: real, m1: real, s: real, t: real)
    requires Limited(a, b, m0) && Limited(a, b, m1) && 0.0 <= s <= t <= 1.0
    ensures Moves(a, Segment(a, b, m0, m1), s, t)
  {
    hide Rise, Bezier, EndRise, Segment, Limited;
    var r0, r1, d := EndRise(a, b, m0), EndRise(a, b, m1), b.y - a.y;
    LimitedRise(a, b, m0);
    LimitedRise(a, b, m1);
    SegmentRises(a, b, m0, m1);
    BezierIsRise(a.y, r0, r1, b.y, s);
    BezierIsRise(a.y, r0, r1, b.y, t);
    if d >= 0.0 {
      RiseMono(r0, r1, d, s, t);
    } else {
      RiseMono(-r0, -r1, -d, s, t);
      RiseFlips(r0, r1, d, s);
      RiseFlips(r0, r1, d, t);
    }
  }

  lemma {:induction false} BezierEnds(p0: real, p1: real, p2: real, p3: real)
    ensures Bezier(p0, p1, p2, p3, 0.0) == p0 && Bezier(p0, p1, p2, p3, 1.0) == p3
  {
  }

  lemma {:induction false} LimitedIsMonotone(a: Pt, b: Pt, m0: real, m1: real, s: real, t: real)
    requires Limited(a, b, m0) && Limited(a, b, m1) && 0.0 <= s <= t <= 1.0
    ensures Monotone(a, Segment(a, b, m0, m1), s, t)
  {
    hide Bezier, Segment, Limited;
    var seg := Segment(a, b, m0, m1);
    BezierEnds(a.y, seg.c1.y, seg.c2.y, seg.end.y);
    LimitedMoves(a, b, m0, m1, 0.0, s);
    LimitedMoves(a, b, m0, m1, s, t);
    LimitedMoves(a, b, m0, m1, t, 1.0);
  }

  /** How far a control point is above its end of the segment. */
  function EndRise(a: Pt, b: Pt, m: real): real { ((b.x - a.x) / 3.0) * m }

  lemma {:induction false} SegmentRises(a: Pt, b: Pt, m0: real, m1: real)
    ensures var seg := Segment(a, b, m0, m1);
      seg.c1.y == a.y + EndRise(a, b, m0) && seg.c2.y == b.y - EndRise(a, b, m1) && seg.end == b
  {
  }

  lemma {:induction false} LimitedRise(a: Pt, b: Pt, m: real)
    requires Limited(a, b, m)
    ensures Between(0.0, EndRise(a, b, m), b.y - a.y)
  {
    ThirdOf(b.x - a.x, m);
  }

  lemma {:induction false} ThirdOf(h: real, m: real)
    ensures (h / 3.0) * m == (h * m) / 3.0
    ensures h == 0.0 ==> (h / 3.0) * m == 0.0
  {
  }

  /** No overshoot: every emitted segment of a path through three or more points is
      monotone between its two data points and a graph over their abscissas, end segments
      and repeated abscissas included. */
  lemma {:induction false} PathNeverOvershoots(p: seq<Pt>, path: Path, i: nat, s: real, t: real)
    requires IsPath(path, p) && path.Curve? && i < |path.segs| && 0.0 <= s <= t <= 1.0
    ensures path.segs[i].end == p[i + 1]
    ensures Monotone(p[i], path.segs[i], s, t) && Even(p[i], path.segs[i], t)
  {
    hide Limited, Tangent, Monotone, Even;
    TangentsAreLimited(p, i);
    LimitedIsMonotone(p[i], p[i + 1], Tangent(p, i), Tangent(p, i + 1), s, t);
    BezierIsEven(p[i], p[i + 1], Tangent(p, i), Tangent(p, i + 1), t);
  }

  /** Two pieces meet with one slope, and at an interior point it is the limited one. */
  lemma {:induction false} JoinsAreSmooth(p: seq<Pt>, path: Path, i: nat)
    requires IsPath(path, p) && path.Curve? && i + 1 < |path.segs|
    ensures var l, r, q := path.segs[i], path.segs[i + 1], p[i + 1];
      var m := Slope3(p[i], q, p[i + 2]);
      3.0 * (q.y - l.c2.y) == (q.x - p[i].x) * m && 3.0 * (r.c1.y - q.y) == (p[i + 2].x - q.x) * m
  {
    hide Slope3, Segment, Tangent;
    ControlRises(p[i], p[i + 1], Tangent(p, i), Tangent(p, i + 1));
    ControlRises(p[i + 1], p[i + 2], Tangent(p, i + 1), Tangent(p, i + 2));
    assert Tangent(p, i + 1) == Slope3(p[i], p[i + 1], p[i + 2]) by { InnerTangent(p, i + 1); }
  }

  lemma {:induction false} InnerTangent(p: seq<Pt>, i: nat)
    requires 0 < i < |p| - 1
    ensures Tangent(p, i) == Slope3(p[i - 1], p[i], p[i + 1])
  {
  }

  lemma {:induction false} ControlRises(a: Pt, b: Pt, m0: real, m1: real)
    ensures var seg := Segment(a, b, m0, m1);
      3.0 * (seg.c1.y - a.y) == (b.x - a.x) * m0 && 3.0 * (b.y - seg.c2.y) == (b.x - a.x) * m1
  {
    SegmentRises(a, b, m0, m1);
    ThirdOf(b.x - a.x, m0);
    ThirdOf(b.x - a.x, m1);
  }

  /** The curve does not bend at either end: its first and its last two control points are evenly
      spaced in height. */
  lemma {:induction false} EndsAreStraight(p: seq<Pt>, path: Path)
    requires IsPath(path, p) && path.Curve?
    ensures var first, n := path.segs[0], |p|;
      && (p[0].x != p[1].x ==> first.c1.y - p[0].y == first.c2.y - first.c1.y)
      && (p[n - 2].x != p[n - 1].x ==>
            var last := path.segs[n - 2]; last.end.y - last.c2.y == last.c2.y - last.c1.y)
  {
    hide Slope3, Slope2;
    var n := |p|;
    SegmentRises(p[0], p[1], Tangent(p, 0), Tangent(p, 1));
    SegmentRises(p[n - 2], p[n - 1], Tangent(p, n - 2), Tangent(p, n - 1));
    if p[0].x != p[1].x { StraightEnd(p[0], p[1], Tangent(p, 1)); }
    if p[n - 2].x != p[n - 1].x { StraightEnd(p[n - 2], p[n - 1], Tangent(p, n - 2)); }
  }

  lemma {:induction false} StraightEnd(a: Pt, b: Pt, t: real)
    requires a.x != b.x
    ensures 2.0 * EndRise(a, b, Slope2(a, b, t)) == b.y - a.y - EndRise(a, b, t)
  {
    hide Slope2;
    RiseAtEnd(a, b, t);
    ThirdOf(b.x - a.x, Slope2(a, b, t));
    ThirdOf(b.x - a.x, t);
  }

  // ---- time series --------------------------------------------------------

  datatype Sample = Sample(t: real, v: real)

  /** The plot: a box at (x0, y0), a time window and a scale. */
  datatype Plot = Plot(start: real, end: real, x0: real, plotW: real, y0: real, plotH: real, maxVal: real)

  function Place(q: Plot, s: Sample): Pt
    requires q.end > q.start && q.maxVal > 0.0
  {
    Pt(q.x0 + (q.plotW * (s.t - q.start)) / (q.end - q.start),
       q.y0 + q.plotH - (Min(s.v, q.maxVal) / q.maxVal) * q.plotH)
  }

  /** The points a path goes through. */
  function Ends(path: Path): (r: seq<Pt>) {
    match path
    case Empty => []
    case Line(from, to) => [from, to]
    case Curve(start, segs) => [start] + seq(|segs|, i requires 0 <= i < |segs| => segs[i].end)
  }

  lemma {:induction false} EndsArePoints(path: Path, p: seq<Pt>)
    requires IsPath(path, p) && |p| >= 2
    ensures Ends(path) == p
  {
    hide Tangent;
    if path.Curve? {
      assert |Ends(path)| == |p|;
      forall i | 0 <= i < |p| ensures Ends(path)[i] == p[i] {
        if i > 0 { assert path.segs[i - 1].end == p[i]; }
      }
    }
  }

  /** No value lies on the axis, a value at the scale or beyond at the top, the window's ends at
      the box's sides; a larger value is never lower on the screen; equal steps of time, and of
      values within the scale, are equal steps on the screen. */
  ghost predicate Drawn(ends: seq<Pt>, points: seq<Sample>, q: Plot) {
    && |ends| == |points|
    && (forall i :: 0 <= i < |ends| ==>
          && (points[i].v == 0.0 ==> ends[i].y == q.y0 + q.plotH)
          && (points[i].v >= q.maxVal ==> ends[i].y == q.y0)
          && (points[i].t == q.start ==> ends[i].x == q.x0)
          && (points[i].t == q.end ==> ends[i].x == q.x0 + q.plotW))
    && (forall i, j :: 0 <= i < |ends| && 0 <= j < |ends| && q.plotH >= 0.0 && points[i].v <= points[j].v ==>
          ends[j].y <= ends[i].y)
    && (forall i, j, k, l :: 0 <= i < |ends| && 0 <= j < |ends| && 0 <= k < |ends| && 0 <= l < |ends| ==>
          EqualSteps(ends[i], ends[j], ends[k], ends[l], points[i], points[j], points[k], points[l], q.maxVal))
  }

  ghost predicate EqualSteps(p0: Pt, p1: Pt, p2: Pt, p3: Pt,
                             s0: Sample, s1: Sample, s2: Sample, s3: Sample, max: real) {
    && (s1.t - s0.t == s3.t - s2.t ==> p1.x - p0.x == p3.x - p2.x)
    && (s0.v <= max && s1.v <= max && s2.v <= max && s3.v <= max && s1.v - s0.v == s3.v - s2.v ==>
          p1.y - p0.y == p3.y - p2.y)
  }

  /** Both coordinates are proportions. */
  lemma {:induction false} PlaceIs(q: Plot, s: Sample)
    requires q.end > q.start && q.maxVal > 0.0
    ensures (Place(q, s).x - q.x0) * (q.end - q.start) == q.plotW * (s.t - q.start)
    ensures (q.y0 + q.plotH - Place(q, s).y) * q.maxVal == q.plotH * Min(s.v, q.maxVal)
  {
    Quotient(q.plotW * (s.t - q.start), q.end - q.start);
    Quotient(Min(s.v, q.maxVal), q.maxVal);
    Swap(Min(s.v, q.maxVal) / q.maxVal, q.plotH, q.maxVal);
  }

  lemma {:induction false} Quotient(a: real, b: real)
    requires b != 0.0
    ensures (a / b) * b == a
  {
  }

  lemma {:induction false} Swap(a: real, b: real, c: real)
    ensures (a * b) * c == (a * c) * b
  {
  }

  /** Equal multiples of a nonzero number are multiples of equals. */
  lemma {:induction false} CancelReal(a: real, b: real, c: real)
    requires c > 0.0
    ensures a * c == b * c ==> a == b
    ensures a * c <= b * c ==> a <= b
  {
    if a > b { MulStrict(c, b, a); }
    if a < b { MulStrict(c, a, b); }
  }

  lemma {:induction false} MulStrict(k: real, x: real, y: real)
    requires k > 0.0 && x < y
    ensures x * k < y * k
  {
    assert (y - x) * k > 0.0;
  }

  lemma {:induction false} PlaceEnds(q: Plot, s: Sample)
    requires q.end > q.start && q.maxVal > 0.0
    ensures s.v == 0.0 ==> Place(q, s).y == q.y0 + q.plotH
    ensures s.v >= q.maxVal ==> Place(q, s).y == q.y0
    ensures s.t == q.start ==> Place(q, s).x == q.x0
    ensures s.t == q.end ==> Place(q, s).x == q.x0 + q.plotW
  {
    hide Place;
    PlaceIs(q, s);
    ProportionEnds(Place(q, s).x - q.x0, q.end - q.start, q.plotW, s.t - q.start);
    ProportionEnds(q.y0 + q.plotH - Place(q, s).y, q.maxVal, q.plotH, Min(s.v, q.maxVal));
  }

  /** f is the share x / c of k. */
  lemma {:induction false} ProportionEnds(f: real, c: real, k: real, x: real)
    requires c > 0.0 && f * c == k * x
    ensures x == 0.0 ==> f == 0.0
    ensures x == c ==> f == k
  {
    if x == 0.0 { CancelReal(f, 0.0, c); }
    if x == c { CancelReal(f, k, c); }
  }

  lemma {:induction false} ProportionOrder(f: real, g: real, c: real, k: real, x: real, y: real)
    requires c > 0.0 && k >= 0.0 && f * c == k * x && g * c == k * y && x <= y
    ensures f <= g
  {
    MulMono(k, x, y);
    CancelReal(f, g, c);
  }

  lemma {:induction false} PlaceOrder(q: Plot, s: Sample, u: Sample)
    requires q.end > q.start && q.maxVal > 0.0 && q.plotH >= 0.0 && s.v <= u.v
    ensures Place(q, u).y <= Place(q, s).y
  {
    hide Place;
    PlaceIs(q, s);
    PlaceIs(q, u);
    var top := q.y0 + q.plotH;
    ProportionOrder(top - Place(q, s).y, top - Place(q, u).y, q.maxVal, q.plotH,
                    Min(s.v, q.maxVal), Min(u.v, q.maxVal));
  }

  /** Two linear functions of equal differences differ equally. */
  lemma {:induction false} EqualMoves(f0: real, f1: real, f2: real, f3: real, c: real, k: real,
                                      x0: real, x1: real, x2: real, x3: real)
    requires c > 0.0 && f0 * c == k * x0 && f1 * c == k * x1 && f2 * c == k * x2 && f3 * c == k * x3
    requires x1 - x0 == x3 - x2
    ensures f1 - f0 == f3 - f2
  {
    Distributes(f1, f0, c);
    Distributes(f3, f2, c);
    Distributes(x1, x0, k);
    Distributes(x3, x2, k);
    CancelReal(f1 - f0, f3 - f2, c);
  }

  lemma {:induction false} Distributes(a: real, b: real, c: real)
    ensures (a - b) * c == a * c - b * c == c * a - c * b
  {
  }

  lemma {:induction false} PlaceSteps(q: Plot, s0: Sample, s1: Sample, s2: Sample, s3: Sample)
    requires q.end > q.start && q.maxVal > 0.0
    ensures EqualSteps(Place(q, s0), Place(q, s1), Place(q, s2), Place(q, s3), s0, s1, s2, s3, q.maxVal)
  {
    hide Place;
    PlaceIs(q, s0);
    PlaceIs(q, s1);
    PlaceIs(q, s2);
    PlaceIs(q, s3);
    var p0, p1, p2, p3 := Place(q, s0), Place(q, s1), Place(q, s2), Place(q, s3);
    if s1.t - s0.t == s3.t - s2.t {
      EqualMoves(p0.x - q.x0, p1.x - q.x0, p2.x - q.x0, p3.x - q.x0, q.end - q.start, q.plotW,
                 s0.t - q.start, s1.t - q.start, s2.t - q.start, s3.t - q.start);
    }
    if s0.v <= q.maxVal && s1.v <= q.maxVal && s2.v <= q.maxVal && s3.v <= q.maxVal && s1.v - s0.v == s3.v - s2.v {
      var top := q.y0 + q.plotH;
      EqualMoves(top - p0.y, top - p1.y, top - p2.y, top - p3.y, q.maxVal, q.plotH, s0.v, s1.v, s2.v, s3.v);
    }
  }

  ghost predicate Placed(ends: seq<Pt>, points: seq<Sample>, q: Plot) {
    && q.end > q.start && q.maxVal > 0.0 && |ends| == |points|
    && forall i :: 0 <= i < |ends| ==> ends[i] == Place(q, points[i])
  }

  lemma {:induction false} PlacedIsDrawn(ends: seq<Pt>, points: seq<Sample>, q: Plot)
    requires Placed(ends, points, q)
    ensures Drawn(ends, points, q)
  {
    hide Placed, EqualSteps;
    assert |ends| == |points| by { PlacedSize(ends, points, q); }
    PlacedEnds(ends, points, q);
    PlacedOrder(ends, points, q);
    PlacedSteps(ends, points, q);
  }

  lemma {:induction false} PlacedSize(ends: seq<Pt>, points: seq<Sample>, q: Plot)
    requires Placed(ends, points, q)
    ensures |ends| == |points|
  {
  }

  lemma {:induction false} PlacedEnds(ends: seq<Pt>, points: seq<Sample>, q: Plot)
    requires Placed(ends, points, q)
    ensures forall i :: 0 <= i < |ends| ==>
      && (points[i].v == 0.0 ==> ends[i].y == q.y0 + q.plotH)
      && (points[i].v >= q.maxVal ==> ends[i].y == q.y0)
      && (points[i].t == q.start ==> ends[i].x == q.x0)
      && (points[i].t == q.end ==> ends[i].x == q.x0 + q.plotW)
  {
    hide Place;
    forall i | 0 <= i < |ends|
      ensures points[i].v == 0.0 ==> ends[i].y == q.y0 + q.plotH
      ensures points[i].v >= q.maxVal ==> ends[i].y == q.y0
      ensures points[i].t == q.start ==> ends[i].x == q.x0
      ensures points[i].t == q.end ==> ends[i].x == q.x0 + q.plotW
    {
      PlaceEnds(q, points[i]);
    }
  }

  lemma {:induction false} PlacedOrder(ends: seq<Pt>, points: seq<Sample>, q: Plot)
    requires Placed(ends, points, q)
    ensures forall i, j :: 0 <= i < |ends| && 0 <= j < |ends| && q.plotH >= 0.0 && points[i].v <= points[j].v ==>
      ends[j].y <= ends[i].y
  {
    hide Place;
    forall i, j | 0 <= i < |ends| && 0 <= j < |ends| && q.plotH >= 0.0 && points[i].v <= points[j].v
      ensures ends[j].y <= ends[i].y
    {
      PlaceOrder(q, points[i], points[j]);
    }
  }

  lemma {:induction false} PlacedSteps(ends: seq<Pt>, points: seq<Sample>, q: Plot)
    requires Placed(ends, points, q)
    ensures forall i, j, k, l :: 0 <= i < |ends| && 0 <= j < |ends| && 0 <= k < |ends| && 0 <= l < |ends| ==>
      EqualSteps(ends[i], ends[j], ends[k], ends[l], points[i], points[j], points[k], points[l], q.maxVal)
  {
    hide Place, EqualSteps;
    forall i, j, k, l | 0 <= i < |ends| && 0 <= j < |ends| && 0 <= k < |ends| && 0 <= l < |ends|
      ensures EqualSteps(ends[i], ends[j], ends[k], ends[l], points[i], points[j], points[k], points[l], q.maxVal)
    {
      PlaceSteps(q, points[i], points[j], points[k], points[l]);
    }
  }

  method TimeSeriesPath(points: seq<Sample>, q: Plot) returns (path: Path)
    ensures path.Empty? <==> |points| < 2 || q.end <= q.start || q.maxVal <= 0.0
    ensures !path.Empty? ==> IsPath(path, seq(|points|, i requires 0 <= i < |points| => Place(q, points[i])))
    ensures !path.Empty? ==> Drawn(Ends(path), points, q)
  {
    hide Drawn, Ends, Place;
    var span := q.end - q.start;
    if |points| < 2 || span <= 0.0 || q.maxVal <= 0.0 {
      return Empty;
    }
    hide IsPath;
    path := MonotonePath(seq(|points|, i requires 0 <= i < |points| => Place(q, points[i])));
    NotEmpty(path, seq(|points|, i requires 0 <= i < |points| => Place(q, points[i])));
    EndsArePoints(path, seq(|points|, i requires 0 <= i < |points| => Place(q, points[i])));
    PlacedIsDrawn(Ends(path), points, q);
  }

  lemma {:induction false} NotEmpty(path: Path, p: seq<Pt>)
    requires IsPath(path, p)
    ensures path.Empty? <==> |p| < 2
  {
  }

  lemma {:induction false} Share(v: real, max: real)
    requires 0.0 <= v <= max && max > 0.0
    ensures 0.0 <= v / max <= 1.0
  {
  }

  /** A nonnegative value is placed inside the box. */
  lemma {:induction false} PlaceIsInside(q: Plot, s: Sample)
    requires q.end > q.start && q.maxVal > 0.0 && q.plotH >= 0.0 && s.v >= 0.0
    ensures q.y0 <= Place(q, s).y <= q.y0 + q.plotH
  {
    var r := Min(s.v, q.maxVal) / q.maxVal;
    Share(Min(s.v, q.maxVal), q.maxVal);
    MulMono(q.plotH, 0.0, r);
    MulMono(q.plotH, r, 1.0);
  }

  /** The point of a path at parameter t of its i-th piece; the line has one piece. */
  function PathAt(path: Path, p: seq<Pt>, i: nat, t: real): Pt
    requires IsPath(path, p) && i + 1 < |p|
  {
    match path
    case Line(from, to) => Pt(from.x + t * (to.x - from.x), from.y + t * (to.y - from.y))
    case Curve(_, segs) => PointOn(p[i], segs[i], t)
  }

  /** Every piece starts at its data point and ends at the next. */
  lemma {:induction false} PieceEnds(path: Path, p: seq<Pt>, i: nat)
    requires IsPath(path, p) && i + 1 < |p|
    ensures PathAt(path, p, i, 0.0) == p[i] && PathAt(path, p, i, 1.0) == p[i + 1]
  {
    hide Bezier, Tangent;
    if path.Curve? {
      var s := path.segs[i];
      BezierEnds(p[i].x, s.c1.x, s.c2.x, s.end.x);
      BezierEnds(p[i].y, s.c1.y, s.c2.y, s.end.y);
    }
  }

  /** The whole path of a nonnegative series stays inside the plot box: no bounce below
      the axis and none above the top. */
  lemma {:induction false} SeriesStaysInside(points: seq<Sample>, q: Plot, p: seq<Pt>, path: Path, i: nat, t: real)
    requires q.end > q.start && q.maxVal > 0.0 && q.plotH >= 0.0
    requires |p| == |points| && forall k :: 0 <= k < |points| ==> p[k] == Place(q, points[k]) && points[k].v >= 0.0
    requires IsPath(path, p) && i + 1 < |p| && 0.0 <= t <= 1.0
    ensures q.y0 <= PathAt(path, p, i, t).y <= q.y0 + q.plotH
  {
    hide IsPath, Place, PointOn;
    PlaceIsInside(q, points[i]);
    PlaceIsInside(q, points[i + 1]);
    if path.Curve? {
      assert |p| >= 3 && |path.segs| == |p| - 1 by { CurveSize(path, p); }
      PathNeverOvershoots(p, path, i, t, t);
    } else {
      LineEnds(path, p);
      StaysBetween(p[0].y, p[1].y, t, q.y0, q.y0 + q.plotH);
    }
  }

  lemma {:induction false} LineEnds(path: Path, p: seq<Pt>)
    requires IsPath(path, p) && |p| >= 2 && !path.Curve?
    ensures path == Line(p[0], p[1]) && |p| == 2
  {
  }

  lemma {:induction false} StaysBetween(a: real, b: real, t: real, lo: real, hi: real)
    requires lo <= a <= hi && lo <= b <= hi && 0.0 <= t <= 1.0
    ensures lo <= a + t * (b - a) <= hi
  {
    hide Times;
    var u := 1.0 - t;
    TimesMono(t, lo, b);
    TimesMono(t, b, hi);
    TimesMono(u, lo, a);
    TimesMono(u, a, hi);
    Blend(a, b, t);
    Blend(lo, lo, t);
    Blend(hi, hi, t);
  }

  lemma {:induction false} TimesMono(k: real, x: real, y: real)
    requires 0.0 <= k && x <= y
    ensures Times(k, x) <= Times(k, y)
  {
    MulMono(k, x, y);
  }

  lemma {:induction false} Blend(a: real, b: real, t: real)
    ensures a + t * (b - a) == Times(1.0 - t, a) + Times(t, b)
    ensures a == b ==> Times(1.0 - t, a) + Times(t, b) == a
  {
  }

  lemma {:induction false} CurveSize(path: Path, p: seq<Pt>)
    requires IsPath(path, p) && path.Curve?
    ensures |p| >= 3 && |path.segs| == |p| - 1
  {
  }
}
