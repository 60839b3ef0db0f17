/**
 * The lasso canvas of components/image-canvas.tsx: the fit-to-viewport
 * transform set up when the image loads, and the `path:created` handler that
 * closes the drawn path, reads its points back in image space, rasterises the
 * mask and dispatches `SET_LASSO`.
 *
 * Fabric.js itself is outside the model: the recorded path commands, the
 * path's `left`/`top`/`pathOffset` and the container's size are inputs.
 */
module ImageCanvas {
  import opened Common
  import Mask
  import opened EditorStore

  // ---------- Fit-to-viewport transform ----------

  function Min3(a: real, b: real, c: real): (m: real)
    ensures m <= a && m <= b && m <= c
    ensures m == a || m == b || m == c
  {
    if a <= b && a <= c then a else if b <= c then b else c
  }

  /**
   * `Math.min(rect.width / imgW, rect.height / imgH, 1)`: the largest scale, never
   * above 1:1, at which the whole image fits the container.
   */
  function FitScale(rectWidth: real, rectHeight: real, imgW: real, imgH: real): (scale: real)
    requires rectWidth > 0.0 && rectHeight > 0.0 && imgW > 0.0 && imgH > 0.0
    ensures 0.0 < scale <= 1.0
    ensures imgW * scale <= rectWidth && imgH * scale <= rectHeight
    ensures scale == 1.0 || imgW * scale == rectWidth || imgH * scale == rectHeight
  {
    var sx, sy := rectWidth / imgW, rectHeight / imgH;
    var scale := Min3(sx, sy, 1.0);
    ScaleBelow(imgW, scale, sx);
    ScaleBelow(imgH, scale, sy);
    scale
  }

  /** Scaling a length by a smaller factor gives a shorter length. */
  lemma ScaleBelow(size: real, s: real, t: real)
    requires size > 0.0 && s <= t
    ensures size * s <= size * t
  {
  }

  /** `(rect.width - imgW * scale) / 2`, and likewise for the height. */
  function CentringOffset(extent: real, size: real, scale: real): real {
    (extent - size * scale) / 2.0
  }

  /** A Fabric viewport transform `[a, b, c, d, e, f]`. */
  datatype Transform = Transform(a: real, b: real, c: real, d: real, e: real, f: real)

  /** `[scale, 0, 0, scale, offsetX, offsetY]`. */
  function FitTransform(rectWidth: real, rectHeight: real, imgW: real, imgH: real): Transform
    requires rectWidth > 0.0 && rectHeight > 0.0 && imgW > 0.0 && imgH > 0.0
  {
    var scale := FitScale(rectWidth, rectHeight, imgW, imgH);
    Transform(scale, 0.0, 0.0, scale,
      CentringOffset(rectWidth, imgW, scale), CentringOffset(rectHeight, imgH, scale))
  }

  /** Maps an image-space point to the viewport. */
  function Apply(t: Transform, p: Point): Point {
    Point(t.a * p.x + t.c * p.y + t.e, t.b * p.x + t.d * p.y + t.f)
  }

  function Determinant(t: Transform): real {
    t.a * t.d - t.b * t.c
  }

  /** The inverse affine map, defined when the determinant is non-zero. */
  function Invert(t: Transform): Transform
    requires Determinant(t) != 0.0
  {
    var det := Determinant(t);
    Transform(t.d / det, -t.b / det, -t.c / det, t.a / det,
      (t.c * t.f - t.d * t.e) / det, (t.b * t.e - t.a * t.f) / det)
  }

  /** The offsets centre the scaled image and are never negative. */
  lemma OffsetsCentre(rectWidth: real, rectHeight: real, imgW: real, imgH: real)
    requires rectWidth > 0.0 && rectHeight > 0.0 && imgW > 0.0 && imgH > 0.0
    ensures var t := FitTransform(rectWidth, rectHeight, imgW, imgH);
      && 2.0 * t.e + imgW * t.a == rectWidth && t.e >= 0.0
      && 2.0 * t.f + imgH * t.d == rectHeight && t.f >= 0.0
  {
  }

  /** With a positive scale the viewport transform is invertible. */
  lemma FitTransformInvertible(rectWidth: real, rectHeight: real, imgW: real, imgH: real)
    requires rectWidth > 0.0 && rectHeight > 0.0 && imgW > 0.0 && imgH > 0.0
    ensures Determinant(FitTransform(rectWidth, rectHeight, imgW, imgH)) > 0.0
  {
    var s := FitScale(rectWidth, rectHeight, imgW, imgH);
    assert Determinant(FitTransform(rectWidth, rectHeight, imgW, imgH)) == s * s;
  }

  /** Image → viewport → image, and viewport → image → viewport, are the identity. */
  lemma ViewportRoundTrip(rectWidth: real, rectHeight: real, imgW: real, imgH: real, p: Point)
    requires rectWidth > 0.0 && rectHeight > 0.0 && imgW > 0.0 && imgH > 0.0
    ensures var t := FitTransform(rectWidth, rectHeight, imgW, imgH);
      Determinant(t) != 0.0
      && Apply(Invert(t), Apply(t, p)) == p
      && Apply(t, Apply(Invert(t), p)) == p
  {
    var t := FitTransform(rectWidth, rectHeight, imgW, imgH);
    UniformRoundTrip(t.a, t.e, t.f, p);
  }

  lemma UniformRoundTrip(s: real, e: real, f: real, p: Point)
    requires s > 0.0
    ensures var t := Transform(s, 0.0, 0.0, s, e, f);
      Determinant(t) != 0.0
      && Apply(Invert(t), Apply(t, p)) == p
      && Apply(t, Apply(Invert(t), p)) == p
  {
    UniformInverse(s, e, f);
    ImageToViewportAndBack(s, e, f, p);
    ViewportToImageAndBack(s, e, f, p);
  }

  lemma ImageToViewportAndBack(s: real, e: real, f: real, p: Point)
    requires s > 0.0
    ensures Apply(Transform(1.0 / s, 0.0, 0.0, 1.0 / s, -e / s, -f / s), Apply(Transform(s, 0.0, 0.0, s, e, f), p)) == p
  {
    ApplyDiagonal(s, e, f, p);
    ApplyDiagonal(1.0 / s, -e / s, -f / s, Point(s * p.x + e, s * p.y + f));
    AxisRoundTrip(s, p.x, e);
    AxisRoundTrip(s, p.y, f);
  }

  lemma ViewportToImageAndBack(s: real, e: real, f: real, p: Point)
    requires s > 0.0
    ensures Apply(Transform(s, 0.0, 0.0, s, e, f), Apply(Transform(1.0 / s, 0.0, 0.0, 1.0 / s, -e / s, -f / s), p)) == p
  {
    var k := 1.0 / s;
    ApplyDiagonal(k, -e / s, -f / s, p);
    ApplyDiagonal(s, e, f, Point(k * p.x + -e / s, k * p.y + -f / s));
    AxisRoundTrip(s, p.x, e);
    AxisRoundTrip(s, p.y, f);
  }

  lemma ApplyDiagonal(a: real, e: real, f: real, p: Point)
    ensures Apply(Transform(a, 0.0, 0.0, a, e, f), p) == Point(a * p.x + e, a * p.y + f)
  {
    var t := Transform(a, 0.0, 0.0, a, e, f);
    assert Apply(t, p) == Point(a * p.x + 0.0 * p.y + e, 0.0 * p.x + a * p.y + f);
    assert a * p.x + 0.0 * p.y + e == a * p.x + e;
    assert 0.0 * p.x + a * p.y + f == a * p.y + f;
  }

  lemma UniformInverse(s: real, e: real, f: real)
    requires s > 0.0
    ensures Determinant(Transform(s, 0.0, 0.0, s, e, f)) == s * s
    ensures Invert(Transform(s, 0.0, 0.0, s, e, f)) == Transform(1.0 / s, 0.0, 0.0, 1.0 / s, -e / s, -f / s)
  {
    var d := s * s;
    assert s / d == 1.0 / s;
    assert (0.0 * f - s * e) / d == -e / s;
    assert (0.0 * e - s * f) / d == -f / s;
  }

  /** Along one axis, scaling by `s` then by `1/s` (with the offsets) gives back `x`, and conversely. */
  lemma AxisRoundTrip(s: real, x: real, e: real)
    requires s > 0.0
    ensures (1.0 / s) * (s * x + e) + -e / s == x
    ensures s * ((1.0 / s) * x + -e / s) + e == x
  {
  }

  /** `3 / scale`: the brush width in image space. */
  function BrushWidth(scale: real): real
    requires scale > 0.0
  {
    3.0 / scale
  }

  /** `2 / scale`: the selection outline width in image space. */
  function StrokeWidth(scale: real): real
    requires scale > 0.0
  {
    2.0 / scale
  }

  /** `[8 / scale, 4 / scale]`: the outline dash pattern in image space. */
  function DashArray(scale: real): seq<real>
    requires scale > 0.0
  {
    [8.0 / scale, 4.0 / scale]
  }

  /** Widths divided by the scale appear constant on screen: 3, 2 and [8, 4] pixels. */
  lemma ScreenWidthsConstant(scale: real)
    requires scale > 0.0
    ensures BrushWidth(scale) * scale == 3.0
    ensures StrokeWidth(scale) * scale == 2.0
    ensures DashArray(scale)[0] * scale == 8.0 && DashArray(scale)[1] * scale == 4.0
  {
  }

  // ---------- Path commands ----------

  /** One Fabric path command `[op, ...args]`: `args[0]` is `cmd[1]`. */
  datatype PathCommand = PathCommand(op: string, args: seq<real>)

  predicate IsClose(c: PathCommand) {
    c.op == "z" || c.op == "Z"
  }

  /** `["Z"]`. */
  const CloseCommand := PathCommand("Z", [])

  /** Append a `Z` to a non-empty path whose last command does not close it already. */
  function EnsureClosed(cmds: seq<PathCommand>): seq<PathCommand> {
    if |cmds| > 0 && !IsClose(cmds[|cmds| - 1]) then cmds + [CloseCommand] else cmds
  }

  /** A non-empty open path gains exactly one `Z`; a closed or empty one is left alone. */
  lemma EnsureClosedEffect(cmds: seq<PathCommand>)
    ensures |cmds| > 0 && !IsClose(cmds[|cmds| - 1]) ==> EnsureClosed(cmds) == cmds + [CloseCommand]
    ensures (cmds == [] || IsClose(cmds[|cmds| - 1])) ==> EnsureClosed(cmds) == cmds
    ensures EnsureClosed(cmds) != [] ==> IsClose(EnsureClosed(cmds)[|EnsureClosed(cmds)| - 1])
  {
  }

  /** Closing is idempotent. */
  lemma EnsureClosedIdempotent(cmds: seq<PathCommand>)
    ensures EnsureClosed(EnsureClosed(cmds)) == EnsureClosed(cmds)
  {
  }

  /** The commands whose end point becomes a lasso point. */
  predicate HasEndpoint(c: PathCommand) {
    c.op == "M" || c.op == "L" || c.op == "Q" || c.op == "C"
  }

  /** Fabric's arity for the commands the extraction reads. */
  predicate WellFormed(c: PathCommand) {
    && (c.op == "M" || c.op == "L" ==> |c.args| >= 2)
    && (c.op == "Q" ==> |c.args| >= 4)
    && (c.op == "C" ==> |c.args| >= 6)
  }

  predicate AllWellFormed(cmds: seq<PathCommand>) {
    forall i :: 0 <= i < |cmds| ==> WellFormed(cmds[i])
  }

  /** The end point, in path-local coordinates: arguments 1–2 of M/L, 3–4 of Q, 5–6 of C. */
  function LocalEndpoint(c: PathCommand): Point
    requires WellFormed(c) && HasEndpoint(c)
  {
    if c.op == "M" || c.op == "L" then Point(c.args[0], c.args[1])
    else if c.op == "Q" then Point(c.args[2], c.args[3])
    else Point(c.args[4], c.args[5])
  }

  /** `pathOffset`, `left` and `top`, with absent values read as 0. */
  datatype Placement = Placement(ox: real, oy: real, left: real, top: real)

  /** `toAbs`: a path-local coordinate translated into image space. */
  function ToAbs(pl: Placement, local: Point): Point {
    Point(local.x - pl.ox + pl.left, local.y - pl.oy + pl.top)
  }

  /** How many commands carry an end point. */
  function EndpointCount(cmds: seq<PathCommand>): nat {
    if cmds == [] then 0 else (if HasEndpoint(cmds[0]) then 1 else 0) + EndpointCount(cmds[1..])
  }

  /** The image-space points of the path, one per M/L/Q/C command, in command order. */
  function PathPoints(cmds: seq<PathCommand>, pl: Placement): (pts: seq<Point>)
    requires AllWellFormed(cmds)
    ensures |pts| == EndpointCount(cmds)
  {
    if cmds == [] then []
    else
      assert WellFormed(cmds[0]);
      (if HasEndpoint(cmds[0]) then [ToAbs(pl, LocalEndpoint(cmds[0]))] else [])
      + PathPoints(cmds[1..], pl)
  }

  lemma {:induction false} PathPointsAppend(a: seq<PathCommand>, b: seq<PathCommand>, pl: Placement)
    requires AllWellFormed(a) && AllWellFormed(b)
    ensures AllWellFormed(a + b)
    ensures PathPoints(a + b, pl) == PathPoints(a, pl) + PathPoints(b, pl)
    decreases |a|
  {
    assert AllWellFormed(a + b) by {
      forall i | 0 <= i < |a + b| ensures WellFormed((a + b)[i]) {
        if i < |a| { assert (a + b)[i] == a[i]; } else { assert (a + b)[i] == b[i - |a|]; }
      }
    }
    if a == [] {
      assert a + b == b;
    } else {
      assert (a + b)[0] == a[0] && (a + b)[1..] == a[1..] + b;
      PathPointsAppend(a[1..], b, pl);
    }
  }

  /**
   * Command `j`, when it has an end point, gives the point at the position that
   * counts the end-point commands before it; so points come out in command order.
   */
  lemma {:induction false} PathPointsInCommandOrder(cmds: seq<PathCommand>, pl: Placement, j: nat)
    requires AllWellFormed(cmds) && j < |cmds| && HasEndpoint(cmds[j])
    ensures EndpointCount(cmds[..j]) < |PathPoints(cmds, pl)|
    ensures PathPoints(cmds, pl)[EndpointCount(cmds[..j])] == ToAbs(pl, LocalEndpoint(cmds[j]))
    decreases j
  {
    if j == 0 {
      assert cmds[..0] == [];
    } else {
      assert cmds[1..][..j - 1] == cmds[..j][1..];
      assert cmds[1..][j - 1] == cmds[j];
      PathPointsInCommandOrder(cmds[1..], pl, j - 1);
    }
  }

  /** The `Z` the handler appends yields no point: closing does not change the lasso. */
  lemma ClosingKeepsPoints(cmds: seq<PathCommand>, pl: Placement)
    requires AllWellFormed(cmds)
    ensures AllWellFormed(EnsureClosed(cmds))
    ensures PathPoints(EnsureClosed(cmds), pl) == PathPoints(cmds, pl)
  {
    if |cmds| > 0 && !IsClose(cmds[|cmds| - 1]) {
      assert AllWellFormed([CloseCommand]);
      PathPointsAppend(cmds, [CloseCommand], pl);
      assert PathPoints([CloseCommand], pl) == [];
    }
  }

  // ---------- The drawn path and the handler ----------

  /** The Fabric path object handed to `path:created`. */
  class FabricPath {
    /** `path.path`, which may be absent. */
    var path: Option<seq<PathCommand>>
    var left: Option<real>
    var top: Option<real>
    var pathOffset: Option<Point>
    var strokeWidth: real
    var strokeDashArray: seq<real>

    constructor (cmds: Option<seq<PathCommand>>, left: Option<real>, top: Option<real>, pathOffset: Option<Point>)
      ensures this.path == cmds && this.left == left && this.top == top && this.pathOffset == pathOffset
      ensures strokeWidth == 1.0 && strokeDashArray == []
    {
      this.path, this.left, this.top, this.pathOffset := cmds, left, top, pathOffset;
      strokeWidth, strokeDashArray := 1.0, [];
    }

    function Resolved(): Placement
      reads this
    {
      var offset := pathOffset.GetOr(Point(0.0, 0.0));
      Placement(offset.x, offset.y, left.GetOr(0.0), top.GetOr(0.0))
    }

    ghost predicate WellFormedData()
      reads this
    {
      path.Some? ==> AllWellFormed(path.value)
    }

    /** `path.path.push(["Z"])` when the path is non-empty and not closed already. */
    method Close()
      modifies this`path
      ensures path == if old(path).Some? then Some(EnsureClosed(old(path).value)) else None
    {
      if path.Some? {
        var cmds := path.value;
        if |cmds| > 0 {
          var last := cmds[|cmds| - 1];
          if last.op != "z" && last.op != "Z" {
            path := Some(cmds + [CloseCommand]);
          }
        }
      }
    }
  }

  /** The lasso points of a path: its end points in image space; none when `path.path` is absent. */
  function ExtractedPoints(data: Option<seq<PathCommand>>, pl: Placement): seq<Point>
    requires data.Some? ==> AllWellFormed(data.value)
  {
    if data.None? then [] else PathPoints(data.value, pl)
  }

  /** `extractPathPoints`: walk the commands, pushing the end point of each M, L, Q and C. */
  method ExtractPathPoints(p: FabricPath) returns (points: seq<Point>)
    requires p.WellFormedData()
    ensures points == ExtractedPoints(p.path, p.Resolved())
    ensures p.path.Some? ==> |points| == EndpointCount(p.path.value)
  {
    points := [];
    if p.path.None? {
      return;
    }
    var pathData := p.path.value;
    var pl := p.Resolved();
    for i := 0 to |pathData|
      invariant points == PathPoints(pathData[..i], pl)
    {
      var cmd := pathData[i];
      assert WellFormed(cmd);
      var command := cmd.op;
      if command == "M" || command == "L" {
        points := points + [ToAbs(pl, Point(cmd.args[0], cmd.args[1]))];
      } else if command == "Q" {
        points := points + [ToAbs(pl, Point(cmd.args[2], cmd.args[3]))];
      } else if command == "C" {
        points := points + [ToAbs(pl, Point(cmd.args[4], cmd.args[5]))];
      }
      assert pathData[..i + 1] == pathData[..i] + [cmd];
      PathPointsAppend(pathData[..i], [cmd], pl);
    }
    assert pathData[..|pathData|] == pathData;
  }

  /** The refs `ImageCanvas` keeps between events. */
  class CanvasSession {
    var viewportScale: real
    var imageWidth: nat
    var imageHeight: nat
    var viewport: Transform
    var brushWidth: real
    var currentPath: FabricPath?

    ghost predicate Valid()
      reads this
    {
      viewportScale > 0.0
    }

    /** Scale 1 and natural size 0 × 0 until the image has loaded. */
    constructor ()
      ensures Valid() && viewportScale == 1.0 && imageWidth == 0 && imageHeight == 0
      ensures currentPath == null
    {
      viewportScale, imageWidth, imageHeight := 1.0, 0, 0;
      viewport := Transform(1.0, 0.0, 0.0, 1.0, 0.0, 0.0);
      brushWidth := 3.0;
      currentPath := null;
    }

    /** The image's `onload`: record its natural size, fit and centre it, size the brush. */
    method OnImageLoad(rectWidth: real, rectHeight: real, imgW: nat, imgH: nat)
      requires rectWidth > 0.0 && rectHeight > 0.0 && imgW > 0 && imgH > 0
      modifies this`viewportScale, this`imageWidth, this`imageHeight, this`viewport, this`brushWidth
      ensures Valid()
      ensures imageWidth == imgW && imageHeight == imgH
      ensures viewportScale == FitScale(rectWidth, rectHeight, imgW as real, imgH as real)
      ensures viewport == FitTransform(rectWidth, rectHeight, imgW as real, imgH as real)
      ensures brushWidth == BrushWidth(viewportScale)
    {
      imageWidth, imageHeight := imgW, imgH;
      var scale := Min3(rectWidth / imgW as real, rectHeight / imgH as real, 1.0);
      viewportScale := scale;
      var offsetX := (rectWidth - imgW as real * scale) / 2.0;
      var offsetY := (rectHeight - imgH as real * scale) / 2.0;
      viewport := Transform(scale, 0.0, 0.0, scale, offsetX, offsetY);
      brushWidth := 3.0 / scale;
    }

    /**
     * `path:created`: close the path, style its outline, make it the current
     * selection, and dispatch `SET_LASSO` with the extracted image-space points
     * and the mask generated from them at the image's natural size.
     */
    method OnPathCreated(p: FabricPath) returns (action: EditorAction)
      requires Valid() && p.WellFormedData()
      modifies this`currentPath, p`path, p`strokeWidth, p`strokeDashArray
      ensures Valid()
      ensures p.path == if old(p.path).Some? then Some(EnsureClosed(old(p.path).value)) else None
      ensures p.WellFormedData()
      ensures p.strokeWidth == StrokeWidth(viewportScale) && p.strokeDashArray == DashArray(viewportScale)
      ensures currentPath == p
      ensures action.SetLasso?
      ensures action.lassoPath == ExtractedPoints(old(p.path), old(p.Resolved()))
      ensures action.maskDataUrl == Mask.MaskSpec(action.lassoPath, imageWidth, imageHeight)
    {
      var scale := viewportScale;
      p.Close();
      if old(p.path).Some? {
        ClosingKeepsPoints(old(p.path).value, p.Resolved());
      }
      p.strokeWidth := 2.0 / scale;
      p.strokeDashArray := [8.0 / scale, 4.0 / scale];
      currentPath := p;
      var imagePoints := ExtractPathPoints(p);
      var maskDataUrl := Mask.GenerateMaskFromPath(imagePoints, imageWidth, imageHeight);
      action := SetLasso(maskDataUrl, imagePoints);
    }
  }

  /** The `SET_LASSO` a drawn path dispatches selects exactly that lasso and its mask. */
  lemma PathCreatedSelects(state: EditorState, cmds: seq<PathCommand>, pl: Placement, w: nat, h: nat)
    requires AllWellFormed(cmds)
    ensures var pts := PathPoints(cmds, pl);
      var r := EditorReducer(state, SetLasso(Mask.MaskSpec(pts, w, h), pts));
      && r.status == Selected
      && r.lassoPath == Some(pts) && |pts| == EndpointCount(cmds)
      && r.maskDataUrl.Some? && r.maskDataUrl.value.width == w && r.maskDataUrl.value.height == h
  {
  }
}
