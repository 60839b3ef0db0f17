/**
 * `resizeImageToMatch` of lib/utils.ts: an edited image is returned unchanged
 * when its natural size equals the reference's, and is otherwise redrawn onto
 * a canvas of exactly the reference's size.
 *
 * Image decoding is outside the model: each load of a URL is an input that
 * either yields the natural size or fails (the `onerror` event, which is not
 * an `Error`).
 */
module ImageUtils {
  import opened Common

  /** The settled load of one image URL. */
  datatype Probe = Loaded(width: nat, height: nat) | LoadFailed

  /** One `drawImage(src, dx, dy, dw, dh)` call. */
  datatype DrawCall = DrawImage(source: string, dx: nat, dy: nat, dw: nat, dh: nat)

  /**
   * The URL the call resolves to: the source URL itself, or the PNG of a canvas
   * of the given size after the given drawing calls.
   */
  datatype Rendered = AsIs(url: string) | CanvasPng(width: nat, height: nat, draws: seq<DrawCall>)

  /** A canvas element: its size and what has been drawn on it. */
  class DrawingCanvas {
    var width: nat
    var height: nat
    var draws: seq<DrawCall>

    /** `document.createElement("canvas")`: 300 × 150 and blank. */
    constructor ()
      ensures width == 300 && height == 150 && draws == []
    {
      width, height, draws := 300, 150, [];
    }

    method SetSize(w: nat, h: nat)
      modifies this`width, this`height
      ensures width == w && height == h
    {
      width, height := w, h;
    }

    method DrawImage(source: string, dx: nat, dy: nat, dw: nat, dh: nat)
      modifies this`draws
      ensures draws == old(draws) + [DrawCall.DrawImage(source, dx, dy, dw, dh)]
    {
      draws := draws + [DrawCall.DrawImage(source, dx, dy, dw, dh)];
    }
  }

  /** What `resizeImageToMatch` settles to, given how each of its three image loads settles. */
  function ResizeOutcome(sourceUrl: string, source: Probe, reference: Probe, reload: Probe): Result<Rendered, Thrown> {
    if source.LoadFailed? || reference.LoadFailed? then Err(OtherValue)
    else if source.width == reference.width && source.height == reference.height then Ok(AsIs(sourceUrl))
    else if reload.LoadFailed? then Err(OtherValue)
    else Ok(CanvasPng(reference.width, reference.height,
      [DrawCall.DrawImage(sourceUrl, 0, 0, reference.width, reference.height)]))
  }

  /**
   * `resizeImageToMatch(sourceUrl, referenceDataUrl)`. `source` and `reference`
   * are the two dimension probes awaited together; `reload` is the second load
   * of the source made only when the sizes differ.
   */
  method ResizeImageToMatch(sourceUrl: string, source: Probe, reference: Probe, reload: Probe)
    returns (r: Result<Rendered, Thrown>)
    ensures r == ResizeOutcome(sourceUrl, source, reference, reload)
  {
    // Promise.all: a failed probe rejects the whole call
    if source.LoadFailed? || reference.LoadFailed? {
      return Err(OtherValue);
    }
    if source.width == reference.width && source.height == reference.height {
      return Ok(AsIs(sourceUrl));
    }
    if reload.LoadFailed? {
      return Err(OtherValue);
    }
    var canvas := new DrawingCanvas();
    canvas.SetSize(reference.width, reference.height);
    canvas.DrawImage(sourceUrl, 0, 0, reference.width, reference.height);
    assert canvas.width == reference.width && canvas.height == reference.height;
    assert canvas.draws == [DrawCall.DrawImage(sourceUrl, 0, 0, reference.width, reference.height)];
    r := Ok(CanvasPng(canvas.width, canvas.height, canvas.draws));
  }

  /**
   * The string the call resolves to: the source URL itself, or what
   * `canvas.toDataURL("image/png")` returns for the redrawn canvas, given as
   * `png` since PNG encoding is outside the model.
   */
  function ResolvedUrl(r: Rendered, png: string): string {
    match r
    case AsIs(url) => url
    case CanvasPng(_, _, _) => png
  }

  /** The natural size of what the call resolves to. */
  function SizeOf(r: Rendered, sourceSize: Probe): (int, int)
    requires sourceSize.Loaded?
  {
    match r
    case AsIs(_) => (sourceSize.width, sourceSize.height)
    case CanvasPng(w, h, _) => (w, h)
  }

  /** Matching sizes return the source unchanged, with no redraw. */
  lemma MatchingSizeIsIdentity(sourceUrl: string, w: nat, h: nat, reload: Probe)
    ensures ResizeOutcome(sourceUrl, Loaded(w, h), Loaded(w, h), reload) == Ok(AsIs(sourceUrl))
  {
  }

  /**
   * Whenever the call resolves, the result has exactly the reference's size;
   * when it was redrawn, the whole source was drawn once over the full extent from (0, 0).
   */
  lemma ResolvedHasReferenceSize(sourceUrl: string, source: Probe, reference: Probe, reload: Probe)
    requires ResizeOutcome(sourceUrl, source, reference, reload).Ok?
    ensures source.Loaded? && reference.Loaded?
    ensures SizeOf(ResizeOutcome(sourceUrl, source, reference, reload).value, source)
      == (reference.width, reference.height)
    ensures ResizeOutcome(sourceUrl, source, reference, reload).value.CanvasPng? ==>
      ResizeOutcome(sourceUrl, source, reference, reload).value.draws
        == [DrawCall.DrawImage(sourceUrl, 0, 0, reference.width, reference.height)]
  {
  }

  /** A failed load of either probe, or of the redraw, rejects the call. */
  lemma FailedLoadRejects(sourceUrl: string, source: Probe, reference: Probe, reload: Probe)
    ensures source.LoadFailed? || reference.LoadFailed? ==>
      ResizeOutcome(sourceUrl, source, reference, reload) == Err(OtherValue)
    ensures source.Loaded? && reference.Loaded? && source != reference && reload.LoadFailed? ==>
      ResizeOutcome(sourceUrl, source, reference, reload) == Err(OtherValue)
  {
  }
}
