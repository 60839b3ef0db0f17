/**
 * The `POST /api/inpaint` handler of app/api/inpaint/route.ts: the guard and
 * response branches, and `dataUrlToBlob`, which parses the header of a
 * `data:[<mediatype>][;base64],<data>` URL (section 3 of RFC 2397) with a
 * comma split and a regular expression.
 *
 * The request body, the `FAL_KEY` environment value and how the two fal.ai
 * calls settle are parameters; the handler's result is its response together
 * with the remote calls it made, in order.
 */
module InpaintRoute {
  import opened Common

  // ---------- String.prototype.split(",") ----------

  /** `s.split(",")`: the maximal comma-free pieces, in order; there is always at least one. */
  function Split(s: string): (parts: seq<string>)
    ensures |parts| >= 1
    ensures forall i :: 0 <= i < |parts| ==> ',' !in parts[i]
    ensures |parts| == 1 <==> ',' !in s
    decreases |s|
  {
    if s == [] then [""]
    else if s[0] == ',' then [""] + Split(s[1..])
    else
      var rest := Split(s[1..]);
      assert ',' !in s[1..] ==> ',' !in s by {
        if ',' !in s[1..] {
          assert s == [s[0]] + s[1..];
        }
      }
      [[s[0]] + rest[0]] + rest[1..]
  }

  function Join(parts: seq<string>): string
    requires |parts| >= 1
    decreases |parts|
  {
    if |parts| == 1 then parts[0] else parts[0] + "," + Join(parts[1..])
  }

  /** Splitting loses nothing: joining the pieces with commas gives the input back. */
  lemma {:induction false} JoinSplit(s: string)
    ensures Join(Split(s)) == s
    decreases |s|
  {
    if s != [] {
      JoinSplit(s[1..]);
      var rest := Split(s[1..]);
      if s[0] == ',' {
        assert Split(s)[1..] == rest;
      } else if |rest| == 1 {
        assert Split(s) == [[s[0]] + rest[0]];
      } else {
        var parts := Split(s);
        assert parts[1..] == rest[1..];
        assert Join(parts) == [s[0]] + rest[0] + "," + Join(rest[1..]);
      }
    }
  }

  /** The first piece is the text before the first comma; the rest splits the text after it. */
  lemma {:induction false} SplitAtFirstComma(a: string, b: string)
    requires ',' !in a
    ensures Split(a + "," + b) == [a] + Split(b)
    decreases |a|
  {
    if a == [] {
      assert a + "," + b == [','] + b;
      assert ([','] + b)[1..] == b;
    } else {
      var s := a + "," + b;
      assert s[0] == a[0] && s[1..] == a[1..] + "," + b;
      SplitAtFirstComma(a[1..], b);
      assert [a[0]] + a[1..] == a;
    }
  }

  // ---------- header.match(/data:([^;]+)/) ----------

  /** The regular expression matches at position `i`: `data:` then at least one character other than `;`. */
  predicate MatchesAt(h: string, i: nat) {
    i + 5 < |h| && h[i..i + 5] == "data:" && h[i + 5] != ';'
  }

  /** `j` is the first position at or after `i` where the expression matches. */
  predicate LeftmostMatch(h: string, i: nat, j: nat) {
    i <= j < |h| && MatchesAt(h, j) && forall k :: i <= k < j ==> !MatchesAt(h, k)
  }

  /** The greedy `[^;]+` run: the longest prefix of `s` without `;`. */
  function RunUntilSemicolon(s: string): (r: string)
    ensures r <= s && ';' !in r
    ensures r == s || s[|r|] == ';'
    decreases |s|
  {
    if s == [] || s[0] == ';' then []
    else
      var rest := RunUntilSemicolon(s[1..]);
      assert [s[0]] + rest <= s by {
        assert s == [s[0]] + s[1..];
      }
      [s[0]] + rest
  }

  /**
   * The capture group of the leftmost match at or after position `i`, or
   * `None` when the expression matches nowhere from there on.
   */
  function CaptureFrom(h: string, i: nat): (r: Option<string>)
    ensures r.None? <==> forall j :: i <= j < |h| ==> !MatchesAt(h, j)
    ensures r.Some? ==> exists j :: LeftmostMatch(h, i, j) && r.value == RunUntilSemicolon(h[j + 5..])
    ensures r.Some? ==> |r.value| > 0 && ';' !in r.value
    decreases |h| - i
  {
    if i + 5 >= |h| then None
    else if MatchesAt(h, i) then
      var run := RunUntilSemicolon(h[i + 5..]);
      assert h[i + 5..][0] != ';';
      assert |run| > 0 && LeftmostMatch(h, i, i);
      Some(run)
    else
      var r := CaptureFrom(h, i + 1);
      assert r.Some? ==> exists j :: LeftmostMatch(h, i, j) && r.value == RunUntilSemicolon(h[j + 5..]) by {
        if r.Some? {
          var j :| LeftmostMatch(h, i + 1, j) && r.value == RunUntilSemicolon(h[j + 5..]);
          LeftmostFromNext(h, i, j);
        }
      }
      r
  }

  /** When the expression does not match at `i`, the leftmost match from `i + 1` is the leftmost from `i`. */
  lemma LeftmostFromNext(h: string, i: nat, j: nat)
    requires !MatchesAt(h, i) && LeftmostMatch(h, i + 1, j)
    ensures LeftmostMatch(h, i, j)
  {
  }

  const DefaultMimeType := "image/png"

  /** `mimeMatch ? mimeMatch[1] : "image/png"`. */
  function MimeType(header: string): string {
    match CaptureFrom(header, 0)
    case Some(m) => m
    case None => DefaultMimeType
  }

  /** A well-formed header yields its media type. */
  lemma {:induction false} MimeTypeOfHeader(m: string, params: string)
    requires |m| > 0 && ';' !in m
    requires params == [] || params[0] == ';'
    ensures MimeType("data:" + m + params) == m
  {
    var h := "data:" + m + params;
    assert h[0..5] == "data:";
    assert h[5] == m[0];
    assert MatchesAt(h, 0);
    assert h[5..] == m + params;
    RunOfMediaType(m, params);
  }

  lemma {:induction false} RunOfMediaType(m: string, params: string)
    requires ';' !in m
    requires params == [] || params[0] == ';'
    ensures RunUntilSemicolon(m + params) == m
    decreases |m|
  {
    if m == [] {
      assert m + params == params;
    } else {
      assert (m + params)[0] == m[0] && (m + params)[1..] == m[1..] + params;
      RunOfMediaType(m[1..], params);
      assert [m[0]] + m[1..] == m;
    }
  }

  /**
   * A header in which the expression matches nowhere (no `data:` at all, or
   * only `data:;…` with no media type) gets the `image/png` default; any other
   * header gets the capture of its leftmost match.
   */
  lemma NoMediaTypeDefaults(h: string)
    ensures (forall j :: 0 <= j < |h| ==> !MatchesAt(h, j)) ==> MimeType(h) == DefaultMimeType
    ensures (exists j :: 0 <= j < |h| && MatchesAt(h, j)) ==> MimeType(h) == CaptureFrom(h, 0).value
    ensures MimeType("data:;base64") == "image/png"
  {
    var b := "data:;base64";
    forall j | 0 <= j < |b| ensures !MatchesAt(b, j) {
      if j + 5 < |b| && j > 0 {
        assert b[j..j + 5] != "data:" by {
          assert b[j..j + 5][4] == b[j + 4];
        }
      }
    }
  }

  // ---------- dataUrlToBlob ----------

  /** A blob: its MIME type and the base64 text it was decoded from. */
  datatype Blob = Blob(mimeType: string, base64Data: string)

  /** `Buffer.from(undefined, "base64")`: the payload is missing when the URL has no comma. */
  const MissingPayloadError := ErrorValue(false, "TypeError",
    "The first argument must be of type string or an instance of Buffer, ArrayBuffer, or Array or an Array-like Object. Received undefined")

  predicate PrintableAscii(t: string) {
    forall i :: 0 <= i < |t| ==> ' ' <= t[i] <= '~'
  }

  function AsciiLower(c: char): char {
    if 'A' <= c <= 'Z' then (c as int + 32) as char else c
  }

  /**
   * The `type` a `Blob` or `File` constructor stores: the empty string when
   * some character lies outside U+0020..U+007E, the ASCII lower case of the
   * given type otherwise (the File API's `Blob` constructor, step 3).
   */
  function BlobType(t: string): string {
    if PrintableAscii(t) then seq(|t|, i requires 0 <= i < |t| => AsciiLower(t[i])) else ""
  }

  /**
   * Normalising twice is normalising once: the `File` built from a blob with
   * `{ type: blob.type }` carries the blob's type unchanged.
   */
  lemma BlobTypeIdempotent(t: string)
    ensures BlobType(BlobType(t)) == BlobType(t)
  {
    var n := BlobType(t);
    assert PrintableAscii(n) by {
      forall i | 0 <= i < |n| ensures ' ' <= n[i] <= '~' {
        assert n[i] == AsciiLower(t[i]);
      }
    }
    assert BlobType(n) == n by {
      forall i | 0 <= i < |n| ensures BlobType(n)[i] == n[i] {
        assert n[i] == AsciiLower(t[i]);
      }
    }
  }

  /**
   * A printable type with no upper-case letter is stored as given, an
   * upper-case letter is lowered, and a non-ASCII character empties the type.
   */
  lemma BlobTypeCases(t: string)
    ensures PrintableAscii(t) && (forall i :: 0 <= i < |t| ==> !('A' <= t[i] <= 'Z')) ==> BlobType(t) == t
    ensures !PrintableAscii(t) ==> BlobType(t) == ""
    ensures BlobType("Image/PNG") == "image/png"
    ensures BlobType("imag\U{00E9}/png") == ""
  {
    if PrintableAscii(t) && (forall i :: 0 <= i < |t| ==> !('A' <= t[i] <= 'Z')) {
      assert forall i :: 0 <= i < |t| ==> BlobType(t)[i] == t[i];
    }
    var upper := "Image/PNG";
    assert PrintableAscii(upper);
    assert BlobType(upper) == "image/png" by {
      forall i | 0 <= i < |upper| ensures BlobType(upper)[i] == "image/png"[i] {
      }
    }
    var accented := "imag\U{00E9}/png";
    assert !(' ' <= accented[4] <= '~');
  }

  /**
   * `dataUrlToBlob`: the header is the first comma piece, the payload the
   * second, and the type is the header's media type as the `Blob`
   * constructor normalises it.
   */
  function DataUrlToBlob(dataUrl: string): Result<Blob, Thrown> {
    var parts := Split(dataUrl);
    if |parts| < 2 then Err(MissingPayloadError)
    else Ok(Blob(BlobType(MimeType(parts[0])), parts[1]))
  }

  /**
   * The header is the text before the first comma and the payload the text
   * between the first and the second; a URL without a comma throws.
   */
  lemma DataUrlToBlobSplits(header: string, rest: string)
    requires ',' !in header
    ensures DataUrlToBlob(header + "," + rest) == Ok(Blob(BlobType(MimeType(header)), Split(rest)[0]))
    ensures DataUrlToBlob(header) == Err(MissingPayloadError)
    ensures ',' !in rest ==> DataUrlToBlob(header + "," + rest) == Ok(Blob(BlobType(MimeType(header)), rest))
  {
    var parts := Split(header + "," + rest);
    SplitAtFirstComma(header, rest);
    assert parts[0] == header && parts[1] == Split(rest)[0] && |parts| >= 2;
    JoinSplit(header);
    assert Split(header) == [header];
    if ',' !in rest {
      JoinSplit(rest);
      assert Split(rest) == [rest];
    }
  }

  /**
   * A data URL with a media type and one comma, such as the PNG data URLs
   * the canvas produces, yields its media type and its payload.
   */
  lemma WellFormedDataUrl(m: string, params: string, payload: string)
    requires |m| > 0 && ';' !in m && ',' !in m
    requires (params == [] || params[0] == ';') && ',' !in params
    requires ',' !in payload
    ensures DataUrlToBlob("data:" + m + params + "," + payload) == Ok(Blob(BlobType(m), payload))
  {
    var header := "data:" + m + params;
    assert ',' !in header by {
      assert forall k :: 0 <= k < |header| ==> header[k] == ("data:" + m + params)[k];
    }
    DataUrlToBlobSplits(header, payload);
    MimeTypeOfHeader(m, params);
  }

  // ---------- POST ----------

  /** `await req.json()` destructured; a field is `None` when absent or `null`. */
  datatype Body =
    | Parsed(image: Option<string>, mask: Option<string>, prompt: Option<string>)
    | Unparsable(e: Thrown)

  /** One element of `result.data.images`. */
  datatype ModelImage = ModelImage(url: Option<string>, width: int, height: int)

  /** `result.data.images`, `None` when `data` or `images` is missing. */
  datatype ModelData = ModelData(images: Option<seq<ModelImage>>)

  /** The input the inpaint endpoint is called with. */
  datatype ModelInput = ModelInput(
    prompt: string,
    imageUrl: string,
    maskUrl: string,
    numInferenceSteps: int,
    guidanceScale: real,
    outputFormat: string,
    strength: real)

  datatype RemoteCall =
    | StorageUpload(fileName: string, blob: Blob)
    | Subscribe(endpoint: string, input: ModelInput)

  datatype ResponseBody = ErrorBody(error: string) | EditedBody(editedImageUrl: string, width: int, height: int)

  datatype Response = Response(status: int, body: ResponseBody)

  /** The response and the fal.ai calls made before it, in order. */
  datatype Handled = Handled(response: Response, calls: seq<RemoteCall>)

  const MissingFieldsMessage := "Missing required fields: image, mask, prompt"
  const FalKeyMessage := "FAL_KEY is not configured. Please add your fal.ai API key to .env.local"
  const PlaceholderKey := "your_fal_api_key_here"
  const NoImageMessage := "No image was returned from the AI model."
  const UnexpectedMessage := "An unexpected error occurred."
  const Endpoint := "fal-ai/qwen-image-edit/inpaint"

  /** A JavaScript string value is truthy when present and non-empty. */
  predicate Truthy(v: Option<string>) {
    v.Some? && v.value != ""
  }

  /** `resultData?.images?.[0]?.url`, when truthy. */
  function FirstImage(data: ModelData): Option<ModelImage> {
    if data.images.Some? && |data.images.value| > 0 && Truthy(data.images.value[0].url)
    then Some(data.images.value[0])
    else None
  }

  /** The `catch` block. */
  function Failure(e: Thrown, calls: seq<RemoteCall>): Handled {
    Handled(Response(500, ErrorBody(MessageOr(e, UnexpectedMessage))), calls)
  }

  /**
   * `POST`. `uploads` is how the two storage uploads settled (the image URL
   * and the mask URL), `outcome` how the inpaint call settled; neither is
   * consulted unless the handler gets that far.
   */
  function Post(body: Body, falKey: Option<string>, uploads: Result<(string, string), Thrown>,
                outcome: Result<ModelData, Thrown>): Handled
  {
    match body
    case Unparsable(e) => Failure(e, [])
    case Parsed(image, mask, prompt) =>
      if !Truthy(image) || !Truthy(mask) || !Truthy(prompt) then
        Handled(Response(400, ErrorBody(MissingFieldsMessage)), [])
      else if !Truthy(falKey) || falKey.value == PlaceholderKey then
        Handled(Response(500, ErrorBody(FalKeyMessage)), [])
      else
        match DataUrlToBlob(image.value)
        case Err(e) => Failure(e, [])
        case Ok(imageBlob) =>
          match DataUrlToBlob(mask.value)
          case Err(e) => Failure(e, [])
          case Ok(maskBlob) =>
            var stored := [StorageUpload("image.png", imageBlob), StorageUpload("mask.png", maskBlob)];
            match uploads
            case Err(e) => Failure(e, stored)
            case Ok(urls) =>
              var calls := stored + [Subscribe(Endpoint, ModelInput(prompt.value, urls.0, urls.1, 30, 4.0, "png", 0.93))];
              match outcome
              case Err(e) => Failure(e, calls)
              case Ok(data) =>
                match FirstImage(data)
                case None => Handled(Response(500, ErrorBody(NoImageMessage)), calls)
                case Some(first) =>
                  Handled(Response(200, EditedBody(first.url.value, first.width, first.height)), calls)
  }

  /** A missing or empty field is answered 400 before anything else is looked at, and nothing is called. */
  lemma MissingFieldsFirst(image: Option<string>, mask: Option<string>, prompt: Option<string>,
                           falKey: Option<string>, uploads: Result<(string, string), Thrown>,
                           outcome: Result<ModelData, Thrown>)
    requires !Truthy(image) || !Truthy(mask) || !Truthy(prompt)
    ensures Post(Parsed(image, mask, prompt), falKey, uploads, outcome)
      == Handled(Response(400, ErrorBody("Missing required fields: image, mask, prompt")), [])
  {
  }

  /** With every field present, a missing or placeholder key is answered 500 and nothing is called. */
  lemma UnconfiguredKey(image: string, mask: string, prompt: string,
                        falKey: Option<string>, uploads: Result<(string, string), Thrown>,
                        outcome: Result<ModelData, Thrown>)
    requires image != "" && mask != "" && prompt != ""
    requires falKey == None || falKey == Some("") || falKey == Some("your_fal_api_key_here")
    ensures Post(Parsed(Some(image), Some(mask), Some(prompt)), falKey, uploads, outcome)
      == Handled(Response(500, ErrorBody(FalKeyMessage)), [])
  {
  }

  /**
   * Past the guards, with both data URLs well formed: both blobs are
   * uploaded as image.png and mask.png, the endpoint is called with the
   * prompt and the uploaded URLs, and the response is 200 with the first
   * image's URL and size, or 500 when the model returned no image URL.
   */
  lemma ReachesModel(image: string, mask: string, prompt: string, key: string,
                     imageUrl: string, maskUrl: string, data: ModelData)
    requires image != "" && mask != "" && prompt != ""
    requires key != "" && key != PlaceholderKey
    requires DataUrlToBlob(image).Ok? && DataUrlToBlob(mask).Ok?
    ensures var h := Post(Parsed(Some(image), Some(mask), Some(prompt)), Some(key), Ok((imageUrl, maskUrl)), Ok(data));
      && h.calls == [
           StorageUpload("image.png", DataUrlToBlob(image).value),
           StorageUpload("mask.png", DataUrlToBlob(mask).value),
           Subscribe("fal-ai/qwen-image-edit/inpaint", ModelInput(prompt, imageUrl, maskUrl, 30, 4.0, "png", 0.93))]
      && (FirstImage(data).None? ==> h.response == Response(500, ErrorBody("No image was returned from the AI model.")))
      && (FirstImage(data).Some? ==>
            var first := data.images.value[0];
            h.response == Response(200, EditedBody(first.url.value, first.width, first.height)))
  {
  }

  /** The model returned no image exactly when `images[0].url` is missing or empty. */
  lemma FirstImageIff(data: ModelData)
    ensures FirstImage(data).None? <==>
      data.images.None? || |data.images.value| == 0 || data.images.value[0].url.None? || data.images.value[0].url == Some("")
  {
  }

  /**
   * Every response is 200, 400 or 500; it is 200 exactly when it carries an
   * edited image, and an error body never has status 200.
   */
  lemma ResponseShapes(body: Body, falKey: Option<string>, uploads: Result<(string, string), Thrown>,
                       outcome: Result<ModelData, Thrown>)
    ensures var r := Post(body, falKey, uploads, outcome).response;
      && (r.status == 200 || r.status == 400 || r.status == 500)
      && (r.status == 200 <==> r.body.EditedBody?)
      && (r.status == 400 <==> body.Parsed? && (!Truthy(body.image) || !Truthy(body.mask) || !Truthy(body.prompt)))
      && (r.status == 400 ==> r.body == ErrorBody(MissingFieldsMessage))
  {
  }

  /**
   * Any exception, from parsing the body, decoding a data URL or a remote
   * call, is answered 500 with its message, or the fallback text for a
   * non-`Error` throwable.
   */
  lemma ThrownIs500(e: Thrown, calls: seq<RemoteCall>)
    ensures e.ErrorValue? ==> Failure(e, calls).response == Response(500, ErrorBody(e.message))
    ensures e.OtherValue? ==> Failure(e, calls).response == Response(500, ErrorBody("An unexpected error occurred."))
  {
  }

  /** An image data URL without a comma makes the handler answer 500 with the `Buffer` error, before any call. */
  lemma MalformedImageThrows(image: string, mask: string, prompt: string, key: string,
                             uploads: Result<(string, string), Thrown>, outcome: Result<ModelData, Thrown>)
    requires image != "" && mask != "" && prompt != "" && ',' !in image
    requires key != "" && key != PlaceholderKey
    ensures Post(Parsed(Some(image), Some(mask), Some(prompt)), Some(key), uploads, outcome)
      == Handled(Response(500, ErrorBody(MissingPayloadError.message)), [])
  {
    JoinSplit(image);
    assert Split(image) == [image];
    assert DataUrlToBlob(image) == Err(MissingPayloadError);
    assert Post(Parsed(Some(image), Some(mask), Some(prompt)), Some(key), uploads, outcome)
      == Failure(MissingPayloadError, []);
  }
}
