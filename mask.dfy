/**
 * The black-and-white selection mask of lib/mask.ts.
 *
 * The browser's 2D canvas is modelled by a small `Canvas` class: a pixel
 * buffer of the requested size, the current sub-path, and the four drawing
 * calls the mask generator makes (`fillRect`, `beginPath`/`moveTo`/`lineTo`,
 * `closePath`, `fill`). Filling follows the canvas default, the non-zero
 * winding rule, sampled at each pixel's centre (no anti-aliasing).
 */
module Mask {
  import opened Common

  /** Pixel colours: a fresh canvas is transparent; the mask uses only black and white. */
  datatype Color = Transparent | Black | White

  /** The raster a mask PNG data URL encodes, row-major. */
  datatype MaskImage = MaskImage(width: nat, height: nat, pixels: seq<Color>)

  // ---------- Non-zero winding fill ----------

  /** Twice the signed area of the triangle (a, b, q): positive when q is left of a→b. */
  function IsLeft(a: Point, b: Point, q: Point): real {
    (b.x - a.x) * (q.y - a.y) - (q.x - a.x) * (b.y - a.y)
  }

  /**
   * The contribution of the edge a→b to the winding number around q: +1 for an
   * upward crossing of the ray from q towards +x, -1 for a downward one.
   */
  function Crossing(a: Point, b: Point, q: Point): int {
    if a.y <= q.y then
      (if b.y > q.y && IsLeft(a, b, q) > 0.0 then 1 else 0)
    else
      (if b.y <= q.y && IsLeft(a, b, q) < 0.0 then -1 else 0)
  }

  /** The edges of the polygon through `poly`, closed from the last vertex back to the first. */
  function ClosedEdges(poly: seq<Point>): (edges: seq<(Point, Point)>)
    ensures |edges| == |poly|
    ensures |poly| > 0 ==> edges[|poly| - 1] == (poly[|poly| - 1], poly[0])
    ensures forall k :: 0 <= k < |poly| - 1 ==> edges[k] == (poly[k], poly[k + 1])
  {
    seq(|poly|, k requires 0 <= k < |poly| => (poly[k], if k < |poly| - 1 then poly[k + 1] else poly[0]))
  }

  function SumCrossings(edges: seq<(Point, Point)>, q: Point): int {
    if edges == [] then 0 else Crossing(edges[0].0, edges[0].1, q) + SumCrossings(edges[1..], q)
  }

  /** The winding number of the closed polygon `poly` around `q`. */
  function Winding(poly: seq<Point>, q: Point): int {
    SumCrossings(ClosedEdges(poly), q)
  }

  /** `q` is filled by `fill()` on the sub-path `poly` under the non-zero rule. */
  predicate Inside(poly: seq<Point>, q: Point) {
    |poly| > 0 && Winding(poly, q) != 0
  }

  /** The sample point of pixel `k` of a row-major raster `w` pixels wide. */
  function PixelCentre(k: nat, w: nat): Point
    requires w > 0
  {
    Point((k % w) as real + 0.5, (k / w) as real + 0.5)
  }

  /** Pixel `k` of a raster `w` pixels wide lies inside the polygon. */
  predicate Covered(poly: seq<Point>, k: nat, w: nat) {
    w > 0 && Inside(poly, PixelCentre(k, w))
  }

  /**
   * The mask `generateMaskFromPath(path, width, height)` paints: white where the
   * closed polygon through the path covers the pixel, black everywhere else.
   */
  function MaskSpec(path: seq<Point>, width: nat, height: nat): (m: MaskImage)
    ensures m.width == width && m.height == height
    ensures |m.pixels| == width * height
  {
    MaskImage(width, height,
      seq(width * height, k requires 0 <= k < width * height =>
        if Covered(path, k, width) then White else Black))
  }

  /** The colour of pixel (x, y) of a mask. */
  function PixelAt(m: MaskImage, x: nat, y: nat): Color
    requires x < m.width && y < m.height && |m.pixels| == m.width * m.height
  {
    RowMajorBound(x, y, m.width, m.height);
    m.pixels[y * m.width + x]
  }

  lemma RowMajorBound(x: nat, y: nat, w: nat, h: nat)
    requires x < w && y < h
    ensures y * w + x < w * h
  {
    assert y * w + x < y * w + w == (y + 1) * w;
    assert (y + 1) * w <= h * w;
  }

  // ---------- The canvas ----------

  class Canvas {
    const width: nat
    const height: nat
    const pixels: array<Color>
    /** The current sub-path, as its list of vertices. */
    var subpath: seq<Point>
    /** Whether `closePath()` has been called on the current sub-path. */
    var closed: bool

    ghost predicate Valid()
      reads this
    {
      pixels.Length == width * height
    }

    /** `canvas.width = w; canvas.height = h`: a transparent buffer of w × h pixels. */
    constructor (w: nat, h: nat)
      ensures Valid() && width == w && height == h
      ensures fresh(pixels) && subpath == [] && !closed
      ensures forall k :: 0 <= k < pixels.Length ==> pixels[k] == Transparent
    {
      width, height := w, h;
      pixels := new Color[w * h](_ => Transparent);
      subpath, closed := [], false;
    }

    /** `fillRect(0, 0, width, height)` with fill style `c`. */
    method FillRect(c: Color)
      requires Valid()
      modifies pixels
      ensures forall k :: 0 <= k < pixels.Length ==> pixels[k] == c
    {
      var k := 0;
      while k < pixels.Length
        invariant 0 <= k <= pixels.Length
        invariant forall j :: 0 <= j < k ==> pixels[j] == c
      {
        pixels[k] := c;
        k := k + 1;
      }
    }

    method BeginPath()
      modifies this`subpath, this`closed
      ensures subpath == [] && !closed
    {
      subpath, closed := [], false;
    }

    method MoveTo(p: Point)
      modifies this`subpath, this`closed
      ensures subpath == [p] && !closed
    {
      subpath, closed := [p], false;
    }

    /** `lineTo` extends the sub-path; on an empty one it behaves as `moveTo`. */
    method LineTo(p: Point)
      modifies this`subpath
      ensures subpath == old(subpath) + [p]
    {
      subpath := subpath + [p];
    }

    method ClosePath()
      modifies this`closed
      ensures closed
    {
      closed := true;
    }

    /** `fill()` with fill style `c`: paints every pixel the (implicitly closed) sub-path covers. */
    method Fill(c: Color)
      requires Valid()
      modifies pixels
      ensures forall k :: 0 <= k < pixels.Length ==>
        pixels[k] == if Covered(subpath, k, width) then c else old(pixels[k])
    {
      var k := 0;
      while k < pixels.Length
        invariant 0 <= k <= pixels.Length
        invariant forall j :: 0 <= j < k ==>
          pixels[j] == if Covered(subpath, j, width) then c else old(pixels[j])
        invariant forall j :: k <= j < pixels.Length ==> pixels[j] == old(pixels[j])
      {
        if Covered(subpath, k, width) {
          pixels[k] := c;
        }
        k := k + 1;
      }
    }
  }

  /**
   * `generateMaskFromPath`: blank the canvas black, then trace the path from
   * `path[0]` through every later point, close it and fill it white.
   */
  method GenerateMaskFromPath(path: seq<Point>, width: nat, height: nat) returns (m: MaskImage)
    ensures m == MaskSpec(path, width, height)
  {
    var canvas := new Canvas(width, height);
    canvas.FillRect(Black);
    if |path| > 0 {
      canvas.BeginPath();
      canvas.MoveTo(path[0]);
      for i := 1 to |path|
        invariant canvas.subpath == path[..i]
        invariant forall k :: 0 <= k < canvas.pixels.Length ==> canvas.pixels[k] == Black
      {
        canvas.LineTo(path[i]);
      }
      assert canvas.subpath == path;
      canvas.ClosePath();
      canvas.Fill(White);
    }
    m := MaskImage(width, height, canvas.pixels[..]);
  }

  // ---------- Properties ----------

  /** Pixel (x, y) is white exactly when its centre lies inside the closed polygon. */
  lemma PixelWhiteIffInside(path: seq<Point>, width: nat, height: nat, x: nat, y: nat)
    requires x < width && y < height
    ensures PixelAt(MaskSpec(path, width, height), x, y) == White
        <==> Inside(path, Point(x as real + 0.5, y as real + 0.5))
    ensures PixelAt(MaskSpec(path, width, height), x, y) != White
        ==> PixelAt(MaskSpec(path, width, height), x, y) == Black
  {
    var k := y * width + x;
    RowMajorBound(x, y, width, height);
    assert k % width == x && k / width == y by {
      DivModRowMajor(x, y, width);
    }
  }

  lemma DivModRowMajor(x: nat, y: nat, w: nat)
    requires x < w
    ensures (y * w + x) % w == x && (y * w + x) / w == y
  {
    var k := y * w + x;
    var q, r := k / w, k % w;
    assert k == q * w + r && 0 <= r < w;
    assert (q - y) * w == x - r;
    MultipleOfWidth(q - y, w);
  }

  /** A non-zero multiple of `w` is at least `w` away from zero. */
  lemma MultipleOfWidth(d: int, w: nat)
    ensures d >= 1 ==> d * w >= w
    ensures d <= -1 ==> d * w + w <= 0
  {
  }

  /** An empty path leaves every pixel black. */
  lemma EmptyPathAllBlack(width: nat, height: nat)
    ensures forall k :: 0 <= k < width * height ==> MaskSpec([], width, height).pixels[k] == Black
  {
  }

  lemma {:induction false} SumCrossingsAppend(a: seq<(Point, Point)>, b: seq<(Point, Point)>, q: Point)
    ensures SumCrossings(a + b, q) == SumCrossings(a, q) + SumCrossings(b, q)
  {
    if a != [] {
      var ab := a + b;
      assert ab[0] == a[0] && ab[1..] == a[1..] + b;
      SumCrossingsAppend(a[1..], b, q);
      calc {
        SumCrossings(ab, q);
        Crossing(a[0].0, a[0].1, q) + SumCrossings(a[1..] + b, q);
        Crossing(a[0].0, a[0].1, q) + SumCrossings(a[1..], q) + SumCrossings(b, q);
      }
    } else {
      assert a + b == b;
    }
  }

  /** A degenerate edge from a point to itself crosses nothing. */
  lemma PointEdgeCrossesNothing(p: Point, q: Point)
    ensures Crossing(p, p, q) == 0
  {
  }

  /**
   * The fill closes the polygon implicitly, so a caller need not repeat the
   * first point: appending `path[0]` again does not change any winding number.
   */
  lemma {:induction false} RepeatingFirstPointChangesNothing(path: seq<Point>, q: Point)
    requires |path| > 0
    ensures Winding(path + [path[0]], q) == Winding(path, q)
  {
    var n := |path|;
    var open := ClosedEdges(path)[..n - 1];
    var closing := (path[n - 1], path[0]);
    assert ClosedEdges(path) == open + [closing];
    EdgesAfterRepeat(path);
    SumCrossingsAppend(open + [closing], [(path[0], path[0])], q);
    PointEdgeCrossesNothing(path[0], q);
    assert SumCrossings([(path[0], path[0])], q) == 0;
  }

  lemma EdgesAfterRepeat(path: seq<Point>)
    requires |path| > 0
    ensures ClosedEdges(path + [path[0]])
      == ClosedEdges(path)[..|path| - 1] + [(path[|path| - 1], path[0])] + [(path[0], path[0])]
  {
    var n := |path|;
    var p := path + [path[0]];
    var pe := ClosedEdges(p);
    var ce := ClosedEdges(path);
    var rhs := ce[..n - 1] + [(path[n - 1], path[0])] + [(path[0], path[0])];
    assert |pe| == |rhs| == n + 1;
    forall k | 0 <= k < n + 1
      ensures pe[k] == rhs[k]
    {
      if k < n - 1 {
        assert pe[k] == (p[k], p[k + 1]);
        assert ce[k] == (path[k], path[k + 1]);
      } else if k == n - 1 {
        assert pe[k] == (p[k], p[k + 1]);
      }
    }
  }

  /**
   * The closing edge counts: the winding number is that of the open chain
   * `path[0] → … → path[n-1]` plus the edge from the last point back to the first.
   */
  lemma {:induction false} ClosingEdgeCounts(path: seq<Point>, q: Point)
    requires |path| > 0
    ensures Winding(path, q) ==
      SumCrossings(seq(|path| - 1, k requires 0 <= k < |path| - 1 => (path[k], path[k + 1])), q)
      + Crossing(path[|path| - 1], path[0], q)
  {
    var n := |path|;
    var open := seq(n - 1, k requires 0 <= k < n - 1 => (path[k], path[k + 1]));
    assert ClosedEdges(path) == open + [(path[n - 1], path[0])];
    SumCrossingsAppend(open, [(path[n - 1], path[0])], q);
  }

  /**
   * The open square (0,0), (10,0), (10,10), (0,10) over a 20 × 20 canvas:
   * pixel (5, 5) is selected although the path never returns to its start,
   * and pixel (15, 15), outside the square, is not.
   */
  lemma OpenSquareExample()
    ensures PixelAt(MaskSpec([Point(0.0, 0.0), Point(10.0, 0.0), Point(10.0, 10.0), Point(0.0, 10.0)], 20, 20), 5, 5) == White
    ensures PixelAt(MaskSpec([Point(0.0, 0.0), Point(10.0, 0.0), Point(10.0, 10.0), Point(0.0, 10.0)], 20, 20), 15, 15) == Black
  {
    var sq := [Point(0.0, 0.0), Point(10.0, 0.0), Point(10.0, 10.0), Point(0.0, 10.0)];
    var edges := [(sq[0], sq[1]), (sq[1], sq[2]), (sq[2], sq[3]), (sq[3], sq[0])];
    assert ClosedEdges(sq) == edges;
    var inner := Point(5.5, 5.5);
    var outer := Point(15.5, 15.5);
    assert SumCrossings(edges[3..], inner) == 0;
    assert SumCrossings(edges[2..], inner) == 0;
    assert SumCrossings(edges[1..], inner) == 1;
    assert Winding(sq, inner) == 1;
    assert SumCrossings(edges[3..], outer) == 0;
    assert SumCrossings(edges[2..], outer) == 0;
    assert SumCrossings(edges[1..], outer) == 0;
    assert Winding(sq, outer) == 0;
    PixelWhiteIffInside(sq, 20, 20, 5, 5);
    PixelWhiteIffInside(sq, 20, 20, 15, 15);
  }
}
