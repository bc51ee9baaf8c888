/**
 * The `/detect` handler (the route body of index.js and `detectHandler` of controller.js): admission by an
 * in-flight counter, validation of the uploaded frame, one key acquisition, one OCR attempt, and the
 * conversion of the normalised box into pixels.
 */
module Detect {
  import opened Wrappers
  import opened JsValues
  import Text
  import PlateOcr
  import ApiKeys

  const MAX_CONCURRENT_DETECTIONS := 1
  const MAX_IMAGE_BYTES := 4 * 1024 * 1024

  /** What `imageSize(buffer)` yields: the width and height (0 when missing), or a throw. */
  datatype Dims = Dims(width: nat, height: nat) | Unreadable

  /** The uploaded `frame`: its mimetype ("" when missing), its size in bytes and its decoded dimensions. */
  datatype Upload = Upload(mimetype: string, size: nat, dims: Dims)

  /** `req.query.stream_id` ("" when missing) and `req.file`. */
  datatype Request = Request(streamId: string, file: Option<Upload>)

  /** The JSON error body: index.js sends `{detail}`, controller.js `{success: false, message}`. */
  datatype ErrorBody = Detail(detail: string) | Unsuccessful(message: string)

  /** The pixel box sent to the client, with the normalised coordinates it came from. */
  datatype PixelBox = PixelBox(
    x1: Num, y1: Num, x2: Num, y2: Num, width: Num, height: Num, cx: Num, cy: Num,
    nx1: Num, ny1: Num, nx2: Num, ny2: Num)

  datatype PlateDetection = PlateDetection(plateText: string, detectionConf: Num, ocrConf: Num, isFocus: bool, box: PixelBox)

  datatype Response =
    | Busy(streamId: Option<string>)
    | BadRequest(body: ErrorBody)
    | ServerError(body: ErrorBody)
    | Detections(streamId: Option<string>, imageW: nat, imageH: nat, focusPlate: Option<string>, detections: seq<PlateDetection>)

  const FRAME_REQUIRED := "frame is required"
  const NOT_AN_IMAGE := "File must be an image"
  const TOO_LARGE := "Image too large (>4MB) for Groq"
  const NO_DIMENSIONS := "Unable to read image dimensions"
  const NO_KEY := "No active API key available"
  const INTERNAL := "Internal server error"

  /** `req.query.stream_id || null`. */
  function StreamIdOf(req: Request): Option<string> {
    if req.streamId == "" then None else Some(req.streamId)
  }

  /** `mimetype && mimetype.startsWith('image/')`. */
  predicate IsImageType(mimetype: string) {
    mimetype != "" && Text.StartsWith(mimetype, "image/")
  }

  /** The outcome of the checks made before a key is fetched. */
  datatype Checked = Accepted(width: nat, height: nat) | Rejected(message: string) | DecodeThrew

  /** The checks in source order; the first that fails decides. A throwing `imageSize` is a 500, not a 400. */
  function Check(file: Option<Upload>): (c: Checked)
    ensures c.Accepted? <==>
      && file.Some? && IsImageType(file.value.mimetype) && file.value.size <= MAX_IMAGE_BYTES
      && file.value.dims.Dims? && file.value.dims.width > 0 && file.value.dims.height > 0
    ensures c.Accepted? ==> c.width == file.value.dims.width && c.height == file.value.dims.height
    ensures c == Rejected(FRAME_REQUIRED) <==> file.None?
    ensures c == Rejected(NOT_AN_IMAGE) <==> file.Some? && !IsImageType(file.value.mimetype)
    ensures c == Rejected(TOO_LARGE) <==>
      file.Some? && IsImageType(file.value.mimetype) && file.value.size > MAX_IMAGE_BYTES
    ensures c.DecodeThrew? <==>
      file.Some? && IsImageType(file.value.mimetype) && file.value.size <= MAX_IMAGE_BYTES && file.value.dims.Unreadable?
    ensures c == Rejected(NO_DIMENSIONS) <==>
      && file.Some? && IsImageType(file.value.mimetype) && file.value.size <= MAX_IMAGE_BYTES
      && file.value.dims.Dims? && (file.value.dims.width == 0 || file.value.dims.height == 0)
  {
    match file
    case None => Rejected(FRAME_REQUIRED)
    case Some(f) =>
      if !IsImageType(f.mimetype) then Rejected(NOT_AN_IMAGE)
      else if f.size > MAX_IMAGE_BYTES then Rejected(TOO_LARGE)
      else match f.dims
        case Unreadable => DecodeThrew
        case Dims(w, h) => if w == 0 || h == 0 then Rejected(NO_DIMENSIONS) else Accepted(w, h)
  }

  /** Normalised coordinates scaled by the image size; width, height and centre derived from them. */
  function PixelBoxOf(d: PlateOcr.Detection, w: nat, h: nat): (b: PixelBox)
    ensures b.nx1 == d.nx1 && b.ny1 == d.ny1 && b.nx2 == d.nx2 && b.ny2 == d.ny2
    ensures b.width == Sub(b.x2, b.x1) && b.height == Sub(b.y2, b.y1)
    ensures b.x1 == Mul(d.nx1, Fin(w as real)) && b.x2 == Mul(d.nx2, Fin(w as real))
    ensures b.y1 == Mul(d.ny1, Fin(h as real)) && b.y2 == Mul(d.ny2, Fin(h as real))
  {
    var x1 := Mul(d.nx1, Fin(w as real));
    var y1 := Mul(d.ny1, Fin(h as real));
    var x2 := Mul(d.nx2, Fin(w as real));
    var y2 := Mul(d.ny2, Fin(h as real));
    var width := Sub(x2, x1);
    var height := Sub(y2, y1);
    PixelBox(x1, y1, x2, y2, width, height, Add(x1, Half(width)), Add(y1, Half(height)), d.nx1, d.ny1, d.nx2, d.ny2)
  }

  /** One axis of the pixel box: a unit span scaled by an image side `w > 0`, its length and its midpoint. */
  lemma ScaledAxis(a: Num, b: Num, w: nat)
    requires w > 0 && PlateOcr.UnitSpan(a, b)
    ensures var x1 := Mul(a, Fin(w as real)); var x2 := Mul(b, Fin(w as real));
      && x1 == Fin(a.r * w as real) && x2 == Fin(b.r * w as real)
      && 0.0 <= x1.r <= x2.r <= w as real
      && Sub(x2, x1) == Fin(x2.r - x1.r)
      && var c := Add(x1, Half(Sub(x2, x1))); c.Fin? && x1.r <= c.r <= x2.r
  {
    var W := w as real;
    assert 0.0 <= a.r * W;
    assert a.r * W <= b.r * W by {
      assert (b.r - a.r) * W >= 0.0;
    }
    assert b.r * W <= W by {
      assert (1.0 - b.r) * W >= 0.0;
    }
  }

  /** For a well-formed normalised box, the pixel box lies inside the image and its centre inside the box. */
  lemma PixelBoxInsideImage(d: PlateOcr.Detection, w: nat, h: nat)
    requires w > 0 && h > 0
    requires PlateOcr.UnitSpan(d.nx1, d.nx2) && PlateOcr.UnitSpan(d.ny1, d.ny2)
    ensures var b := PixelBoxOf(d, w, h);
      && b.x1.Fin? && b.y1.Fin? && b.x2.Fin? && b.y2.Fin?
      && 0.0 <= b.x1.r <= b.x2.r <= w as real
      && 0.0 <= b.y1.r <= b.y2.r <= h as real
      && b.width == Fin(b.x2.r - b.x1.r) && b.height == Fin(b.y2.r - b.y1.r)
      && b.cx.Fin? && b.x1.r <= b.cx.r <= b.x2.r
      && b.cy.Fin? && b.y1.r <= b.cy.r <= b.y2.r
  {
    ScaledAxis(d.nx1, d.nx2, w);
    ScaledAxis(d.ny1, d.ny2, h);
  }

  /** An 800 x 600 frame with the box (0.1, 0.2, 0.3, 0.4). */
  lemma PixelBoxExample()
    ensures PixelBoxOf(PlateOcr.Detection("ABC1234", Fin(0.9), Fin(0.1), Fin(0.2), Fin(0.3), Fin(0.4)), 800, 600)
      == PixelBox(Fin(80.0), Fin(120.0), Fin(240.0), Fin(240.0), Fin(160.0), Fin(120.0), Fin(160.0), Fin(180.0),
                  Fin(0.1), Fin(0.2), Fin(0.3), Fin(0.4))
  {
  }

  /** `plate_text.toUpperCase() === 'UNKNOWN'`. */
  predicate IsUnknownPlate(p: string)
    ensures IsUnknownPlate(p) ==> |p| == |PlateOcr.UNKNOWN|
    ensures IsUnknownPlate(p) ==> forall i :: 0 <= i < |p| ==> p[i] == PlateOcr.UNKNOWN[i] || p[i] == Text.LowerChar(PlateOcr.UNKNOWN[i])
  {
    Text.Upper(p) == PlateOcr.UNKNOWN
  }

  /** `ocr_conf || 1.0`. */
  function ReportedConfidence(c: Num): (r: Num)
    ensures NumTruthy(c) ==> r == c
    ensures !NumTruthy(c) ==> r == Fin(1.0)
  {
    if NumTruthy(c) then c else Fin(1.0)
  }

  /** The response built from the OCR result once a key was obtained (index.js). */
  function DetectionResponse(streamId: Option<string>, w: nat, h: nat, det: Option<PlateOcr.Detection>): (r: Response)
    ensures r.Detections? && r.streamId == streamId && r.imageW == w && r.imageH == h
    ensures r.detections == [] <==> det.None? || det.value.plateText == "" || IsUnknownPlate(det.value.plateText)
    ensures r.focusPlate.None? <==> r.detections == []
    ensures r.detections != [] ==>
      var d := det.value;
      && |r.detections| == 1
      && r.focusPlate == Some(Text.Trim(d.plateText))
      && r.detections[0] == PlateDetection(Text.Trim(d.plateText), ReportedConfidence(d.ocrConf),
                                           ReportedConfidence(d.ocrConf), true, PixelBoxOf(d, w, h))
  {
    if det.None? || det.value.plateText == "" || IsUnknownPlate(det.value.plateText) then
      Detections(streamId, w, h, None, [])
    else
      var d := det.value;
      var plate := Text.Trim(d.plateText);
      var conf := ReportedConfidence(d.ocrConf);
      Detections(streamId, w, h, Some(plate), [PlateDetection(plate, conf, conf, true, PixelBoxOf(d, w, h))])
  }

  /** Any spelling of UNKNOWN, in any letter case, gives no detection. */
  lemma UnknownGivesNoDetection(streamId: Option<string>, w: nat, h: nat, d: PlateOcr.Detection)
    requires Text.Upper(d.plateText) == "UNKNOWN"
    ensures DetectionResponse(streamId, w, h, Some(d)) == Detections(streamId, w, h, None, [])
  {
  }

  /** The first end-to-end scenario: plate ABC1234 at (0.1, 0.2, 0.3, 0.4) on an 800 x 600 frame. */
  lemma ScenarioPlateFound(streamId: Option<string>)
    ensures var d := PlateOcr.Detection("ABC1234", Fin(0.9), Fin(0.1), Fin(0.2), Fin(0.3), Fin(0.4));
      DetectionResponse(streamId, 800, 600, Some(d)) ==
        Detections(streamId, 800, 600, Some("ABC1234"), [PlateDetection("ABC1234", Fin(0.9), Fin(0.9), true, PixelBoxOf(d, 800, 600))])
  {
    var d := PlateOcr.Detection("ABC1234", Fin(0.9), Fin(0.1), Fin(0.2), Fin(0.3), Fin(0.4));
    assert Text.Upper(d.plateText)[0] == 'A';
    Text.TrimKeepsUnpadded("ABC1234");
  }

  /**
   * What the request body (inside the try) does once admitted: `resp` is the response, `rows1` and `calls1`
   * the key table and the OCR-call log afterwards, and `k` the selected row when one was acquired.
   */
  ghost predicate ServedAsIndex(
    req: Request, reply: PlateOcr.Reply, parse: string -> Option<JsObject>, rt: JsRuntime,
    rows0: seq<ApiKeys.KeyRow>, calls0: seq<string>,
    resp: Response, rows1: seq<ApiKeys.KeyRow>, calls1: seq<string>, k: int)
  {
    var c := Check(req.file);
    match c
    case Rejected(message) => resp == BadRequest(Detail(message)) && rows1 == rows0 && calls1 == calls0
    case DecodeThrew => resp == ServerError(Detail(INTERNAL)) && rows1 == rows0 && calls1 == calls0
    case Accepted(w, h) =>
      if !ApiKeys.HasActive(rows0) then
        resp == ServerError(Detail(NO_KEY)) && rows1 == rows0 && calls1 == calls0
      else
        && ApiKeys.IsLeastUsed(rows0, k)
        && rows1 == ApiKeys.Bumped(rows0, rows0[k].email, rows0[k].apiKey)
        && calls1 == calls0 + [rows0[k].apiKey]
        && resp == match PlateOcr.Normalise(reply, parse, rt) {
             case Rejects => ServerError(Detail(INTERNAL))
             case Resolves(d) => DetectionResponse(StreamIdOf(req), w, h, d)
           }
  }

  /** The state of index.js: the module-level counter and the key table, with a log of the OCR calls made. */
  class IndexServer {
    var inFlight: int
    const keys: ApiKeys.KeyTable
    /** The API key of every OCR call made, in order. */
    ghost var ocrCalls: seq<string>

    constructor(keys: ApiKeys.KeyTable)
      ensures inFlight == 0 && this.keys == keys && ocrCalls == []
    {
      inFlight := 0;
      this.keys := keys;
      ocrCalls := [];
    }

    /** The admission check: at capacity nothing changes, otherwise the counter goes up by one. */
    method Admit() returns (admitted: bool)
      modifies this`inFlight
      ensures admitted == (old(inFlight) < MAX_CONCURRENT_DETECTIONS)
      ensures inFlight == if admitted then old(inFlight) + 1 else old(inFlight)
    {
      admitted := inFlight < MAX_CONCURRENT_DETECTIONS;
      if admitted {
        inFlight := inFlight + 1;
      }
    }

    /** The `finally` block. */
    method Release()
      modifies this`inFlight
      ensures inFlight == old(inFlight) - 1
    {
      inFlight := inFlight - 1;
    }

    /** The body of the `try`: at most one key acquisition and at most one OCR call. */
    method Serve(req: Request, reply: PlateOcr.Reply, parse: string -> Option<JsObject>, rt: JsRuntime)
      returns (resp: Response, ghost k: int)
      modifies this`ocrCalls, keys
      ensures ServedAsIndex(req, reply, parse, rt, old(keys.rows), old(ocrCalls), resp, keys.rows, ocrCalls, k)
    {
      k := -1;
      var streamId := StreamIdOf(req);
      match Check(req.file)
      case Rejected(message) =>
        return BadRequest(Detail(message)), k;
      case DecodeThrew =>
        return ServerError(Detail(INTERNAL)), k;
      case Accepted(w, h) =>
        var keyRow;
        keyRow, k := keys.AcquireNext();
        if keyRow.Failure? {
          return ServerError(Detail(NO_KEY)), k;
        }
        ocrCalls := ocrCalls + [keyRow.value.apiKey];
        var settled := PlateOcr.PlateDetect(reply, parse, rt);
        if settled.Rejects? {
          return ServerError(Detail(INTERNAL)), k;
        }
        resp := DetectionResponse(streamId, w, h, settled.detection);
    }

    /** The `/detect` route: busy at capacity, otherwise the body between the increment and the decrement. */
    method Detect(req: Request, reply: PlateOcr.Reply, parse: string -> Option<JsObject>, rt: JsRuntime)
      returns (resp: Response, ghost k: int)
      modifies this, keys
      ensures inFlight == old(inFlight)
      ensures old(inFlight) >= MAX_CONCURRENT_DETECTIONS ==>
        resp == Busy(StreamIdOf(req)) && keys.rows == old(keys.rows) && ocrCalls == old(ocrCalls)
      ensures old(inFlight) < MAX_CONCURRENT_DETECTIONS ==>
        ServedAsIndex(req, reply, parse, rt, old(keys.rows), old(ocrCalls), resp, keys.rows, ocrCalls, k)
    {
      k := -1;
      var admitted := Admit();
      if !admitted {
        return Busy(StreamIdOf(req)), k;
      }
      resp, k := Serve(req, reply, parse, rt);
      Release();
    }
  }

  /** A second request that arrives while a first one is suspended inside its body is answered busy. */
  method OverlappingRequests(keys: ApiKeys.KeyTable, first: Request, second: Request,
                             reply: PlateOcr.Reply, parse: string -> Option<JsObject>, rt: JsRuntime)
    modifies keys
  {
    var server := new IndexServer(keys);
    var admitted := server.Admit();
    assert admitted;
    var busy, _ := server.Detect(second, reply, parse, rt);
    assert busy == Busy(StreamIdOf(second)) && server.ocrCalls == [];
    var resp, _ := server.Serve(first, reply, parse, rt);
    server.Release();
    assert server.inFlight == 0 && |server.ocrCalls| <= 1;
  }

  /** The state of controller.js's `createControllers` closure. */
  class ControllerServer {
    var inFlight: int
    const keys: ApiKeys.KeyTable
    ghost var ocrCalls: seq<string>

    constructor(keys: ApiKeys.KeyTable)
      ensures inFlight == 0 && this.keys == keys && ocrCalls == []
    {
      inFlight := 0;
      this.keys := keys;
      ocrCalls := [];
    }

    /**
     * `detectHandler`: the same admission and checks, with `{success: false, message}` bodies; key
     * acquisition always fails, so a frame that passes the checks always gets a 500 and no OCR call.
     */
    method Detect(req: Request) returns (resp: Response)
      modifies this`inFlight
      ensures inFlight == old(inFlight)
      ensures old(inFlight) >= MAX_CONCURRENT_DETECTIONS ==> resp == Busy(StreamIdOf(req))
      ensures old(inFlight) < MAX_CONCURRENT_DETECTIONS ==>
        resp == match Check(req.file)
          case Rejected(message) => BadRequest(Unsuccessful(message))
          case DecodeThrew => ServerError(Unsuccessful(INTERNAL))
          case Accepted(_, _) => ServerError(Unsuccessful(NO_KEY))
      ensures !resp.Detections?
    {
      if inFlight >= MAX_CONCURRENT_DETECTIONS {
        return Busy(StreamIdOf(req));
      }
      inFlight := inFlight + 1;
      match Check(req.file) {
        case Rejected(message) =>
          resp := BadRequest(Unsuccessful(message));
        case DecodeThrew =>
          resp := ServerError(Unsuccessful(INTERNAL));
        case Accepted(w, h) =>
          var keyRow := keys.AcquireNextAsInController();
          // keyRow is always a failure: the code from `new Groq(...)` on is not reachable.
          assert keyRow.Failure?;
          resp := ServerError(Unsuccessful(NO_KEY));
      }
      inFlight := inFlight - 1;
    }
  }
}
