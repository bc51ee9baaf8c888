/**
 * The OCR response normaliser `groqPlateDetect` (index.js and controller.js carry the same code): the reply
 * of the vision model becomes either a detection record or no result. The request to the model is not part
 * of this model; its outcome is the input `Reply`, and `JSON.parse` is the oracle `parse`.
 */
module PlateOcr {
  import opened Wrappers
  import opened JsValues
  import Text

  /** One element of an array-valued `message.content`: its `type`, and its `text` when that is a string. */
  datatype Part = Part(kind: Option<string>, text: Option<string>)

  /** `completion.choices?.[0]?.message?.content`: an array, a string, or anything else (missing, null, an object). */
  datatype Content = Parts(parts: seq<Part>) | Plain(s: string) | NoText

  /**
   * `err.message ?? String(err)`: a string, or a `message` that is present but has no `includes` method
   * (a number, a boolean, a plain object).
   */
  datatype ErrMessage = MsgString(s: string) | MsgOther

  /** What the model call threw: `err.status ?? err.response.status`, and its message. */
  datatype CallError = CallError(status: Option<int>, message: ErrMessage)

  /** The outcome of the model call. */
  datatype Reply = Completed(content: Content) | Threw(error: CallError)

  /** The record returned on success; coordinates are fractions of the image width and height. */
  datatype Detection = Detection(plateText: string, ocrConf: Num, nx1: Num, ny1: Num, nx2: Num, ny2: Num)

  /**
   * How the promise of `groqPlateDetect` settles: it resolves to a detection or to null, or it rejects when
   * the catch block itself throws.
   */
  datatype Settled = Resolves(detection: Option<Detection>) | Rejects

  /** The four normalised coordinates after repair. */
  datatype Box = Box(nx1: Num, ny1: Num, nx2: Num, ny2: Num)

  /** The plate text the prompt asks for when no plate is visible, and the default for a missing one. */
  const UNKNOWN := "UNKNOWN"

  /** A content part whose text is collected: type `text` or `output_text`, and a string `text`. */
  predicate IsTextPart(p: Part) {
    (p.kind == Some("text") || p.kind == Some("output_text")) && p.text.Some?
  }

  function PartText(p: Part): string {
    if IsTextPart(p) then p.text.value else ""
  }

  /** The texts of the collected parts, concatenated in order. */
  function PartsText(parts: seq<Part>): string {
    if |parts| == 0 then "" else PartsText(parts[..|parts| - 1]) + PartText(parts[|parts| - 1])
  }

  /** Collecting the text of two runs of parts is collecting each and concatenating. */
  lemma {:induction false} PartsTextAppend(a: seq<Part>, b: seq<Part>)
    ensures PartsText(a + b) == PartsText(a) + PartsText(b)
    decreases |b|
  {
    if |b| == 0 {
      assert a + b == a;
    } else {
      var b' := b[..|b| - 1];
      assert (a + b)[..|a + b| - 1] == a + b';
      PartsTextAppend(a, b');
    }
  }

  /** Parts that are not collected contribute nothing. */
  lemma {:induction false} PartsTextSkipsOthers(parts: seq<Part>)
    requires forall i :: 0 <= i < |parts| ==> !IsTextPart(parts[i])
    ensures PartsText(parts) == ""
    decreases |parts|
  {
    if |parts| > 0 {
      PartsTextSkipsOthers(parts[..|parts| - 1]);
    }
  }

  /** The text handed to the JSON extraction, before trimming. */
  function ContentText(c: Content): string {
    match c
    case Parts(ps) => PartsText(ps)
    case Plain(s) => s
    case NoText => ""
  }

  /** The accumulation loop over the content parts. */
  method JoinText(content: Content) returns (text: string)
    ensures text == ContentText(content)
  {
    text := "";
    match content
    case Parts(parts) =>
      for i := 0 to |parts|
        invariant text == PartsText(parts[..i])
      {
        var c := parts[i];
        assert parts[..i + 1][..i] == parts[..i];
        if (c.kind == Some("text") || c.kind == Some("output_text")) && c.text.Some? {
          text := text + c.text.value;
        }
      }
      assert parts[..|parts|] == parts;
    case Plain(s) =>
      text := s;
    case NoText =>
  }

  /**
   * The span from the first `{` to the last `}`, or no result when either is missing or the last `}` is
   * not after the first `{`.
   */
  function ExtractObject(text: string): (r: Option<string>)
    ensures r.Some? <==> '{' in text && '}' in text && Text.LastIndexOf(text, '}') > Text.IndexOf(text, '{')
    ensures r.Some? ==> |r.value| >= 2 && r.value[0] == '{' && r.value[|r.value| - 1] == '}'
    ensures r.Some? ==>
      var first, last := Text.IndexOf(text, '{'), Text.LastIndexOf(text, '}');
      r.value == text[first..last + 1] && '{' !in text[..first] && '}' !in text[last + 1..]
  {
    var first := Text.IndexOf(text, '{');
    var last := Text.LastIndexOf(text, '}');
    if first == -1 || last == -1 || last <= first then None else Some(text[first..last + 1])
  }

  /** Text around an object, with no `{` before it and no `}` after it, gives back exactly the object. */
  lemma ExtractEmbeddedObject(prefix: string, body: string, suffix: string)
    requires '{' !in prefix && '}' !in suffix
    requires |body| >= 2 && body[0] == '{' && body[|body| - 1] == '}'
    ensures ExtractObject(prefix + body + suffix) == Some(body)
  {
    var text := prefix + body + suffix;
    var lo, hi := |prefix|, |prefix| + |body| - 1;
    assert text[lo] == '{' && text[hi] == '}';
    assert text[..lo] == prefix;
    assert text[hi + 1..] == suffix;
    assert text[lo..hi + 1] == body;
  }

  /** Both ends are numbers with 0 <= lo <= hi <= 1. */
  predicate UnitSpan(lo: Num, hi: Num) {
    lo.Fin? && hi.Fin? && 0.0 <= lo.r <= hi.r <= 1.0
  }

  /** Clamps each coordinate into [0, 1], then swaps an inverted x pair or y pair. */
  function RepairBox(x1: Num, y1: Num, x2: Num, y2: Num): (b: Box)
    ensures multiset{b.nx1, b.nx2} == multiset{Clamp01(x1), Clamp01(x2)}
    ensures multiset{b.ny1, b.ny2} == multiset{Clamp01(y1), Clamp01(y2)}
    ensures !x1.NaN? && !x2.NaN? ==> UnitSpan(b.nx1, b.nx2)
    ensures !y1.NaN? && !y2.NaN? ==> UnitSpan(b.ny1, b.ny2)
  {
    var (lx, hx) := Ordered(Clamp01(x1), Clamp01(x2));
    var (ly, hy) := Ordered(Clamp01(y1), Clamp01(y2));
    Box(lx, ly, hx, hy)
  }

  /** One coordinate pair, swapped when the second is less than the first. */
  function Ordered(a: Num, b: Num): (p: (Num, Num))
    ensures multiset{p.0, p.1} == multiset{a, b}
    ensures a.Fin? && b.Fin? ==> p.0.Fin? && p.1.Fin? && p.0.r <= p.1.r
  {
    if Less(b, a) then (b, a) else (a, b)
  }

  /** A box that is already well formed is left as it is. */
  lemma RepairKeepsWellFormed(b: Box)
    requires UnitSpan(b.nx1, b.nx2) && UnitSpan(b.ny1, b.ny2)
    ensures RepairBox(b.nx1, b.ny1, b.nx2, b.ny2) == b
  {
  }

  /** Repairing a repaired box changes nothing. */
  lemma RepairIsIdempotent(x1: Num, y1: Num, x2: Num, y2: Num)
    ensures var b := RepairBox(x1, y1, x2, y2); RepairBox(b.nx1, b.ny1, b.nx2, b.ny2) == b
  {
    RepairAxisIsIdempotent(x1, x2);
    RepairAxisIsIdempotent(y1, y2);
  }

  /** One coordinate pair, NaN included: clamping and ordering a clamped, ordered pair changes nothing. */
  lemma RepairAxisIsIdempotent(a: Num, b: Num)
    ensures var p := Ordered(Clamp01(a), Clamp01(b)); Ordered(Clamp01(p.0), Clamp01(p.1)) == p
  {
    var ca, cb := Clamp01(a), Clamp01(b);
    assert Clamp01(ca) == ca && Clamp01(cb) == cb;
    if Less(cb, ca) {
      assert !Less(ca, cb);
    }
  }

  /** A coordinate field: `Number(parsed.key ?? 0)`. */
  function Coordinate(o: JsObject, key: string, rt: JsRuntime): Num {
    ToNumber(Coalesce(Get(o, key), JNum(Fin(0.0))), rt)
  }

  /** `Number(parsed.ocr_conf ?? 0)`. */
  function RawConfidence(o: JsObject, rt: JsRuntime): Num {
    ToNumber(Coalesce(Get(o, "ocr_conf"), JNum(Fin(0.0))), rt)
  }

  /** `String(parsed.plate_text || '').trim()`. */
  function RawPlate(o: JsObject, rt: JsRuntime): string {
    Text.Trim(ToJsString(OrElse(Get(o, "plate_text"), JStr("")), rt))
  }

  lemma UnknownIsUnpadded()
    ensures Text.Trim(UNKNOWN) == UNKNOWN
  {
    Text.TrimKeepsUnpadded(UNKNOWN);
  }

  /** A missing `plate_text` gives the empty raw plate. */
  lemma MissingPlateIsBlank(o: JsObject, rt: JsRuntime)
    ensures Get(o, "plate_text").None? ==> RawPlate(o, rt) == ""
  {
    if Get(o, "plate_text").None? {
      assert ToJsString(OrElse(Get(o, "plate_text"), JStr("")), rt) == "";
      Text.TrimKeepsUnpadded("");
    }
  }

  /** `plate_text || 'UNKNOWN'`: never empty, never padded. */
  function CoercedPlate(o: JsObject, rt: JsRuntime): (p: string)
    ensures p != "" && Text.Trim(p) == p
    ensures p == (if RawPlate(o, rt) == "" then UNKNOWN else RawPlate(o, rt))
    ensures Get(o, "plate_text").None? ==> p == UNKNOWN
  {
    MissingPlateIsBlank(o, rt);
    if RawPlate(o, rt) == "" then
      UnknownIsUnpadded();
      UNKNOWN
    else
      Text.TrimIsIdempotent(ToJsString(OrElse(Get(o, "plate_text"), JStr("")), rt));
      RawPlate(o, rt)
  }

  /** `isNaN(ocr_conf) ? 0 : ocr_conf`. */
  function CoercedConfidence(o: JsObject, rt: JsRuntime): (c: Num)
    ensures !c.NaN?
    ensures c == (if RawConfidence(o, rt).NaN? then Fin(0.0) else RawConfidence(o, rt))
    ensures Get(o, "ocr_conf").None? ==> c == Fin(0.0)
  {
    var conf := RawConfidence(o, rt);
    if conf.NaN? then Fin(0.0) else conf
  }

  /** The field coercion applied to a parsed object. */
  function Coerce(o: JsObject, rt: JsRuntime): (d: Detection)
    ensures d.plateText != "" && Text.Trim(d.plateText) == d.plateText
    ensures d.plateText == (if RawPlate(o, rt) == "" then UNKNOWN else RawPlate(o, rt))
    ensures Get(o, "plate_text").None? ==> d.plateText == UNKNOWN
    ensures !d.ocrConf.NaN?
    ensures d.ocrConf == (if RawConfidence(o, rt).NaN? then Fin(0.0) else RawConfidence(o, rt))
    ensures Get(o, "ocr_conf").None? ==> d.ocrConf == Fin(0.0)
    ensures Box(d.nx1, d.ny1, d.nx2, d.ny2) ==
      RepairBox(Coordinate(o, "nx1", rt), Coordinate(o, "ny1", rt), Coordinate(o, "nx2", rt), Coordinate(o, "ny2", rt))
  {
    var b := RepairBox(Coordinate(o, "nx1", rt), Coordinate(o, "ny1", rt), Coordinate(o, "nx2", rt), Coordinate(o, "ny2", rt));
    Detection(CoercedPlate(o, rt), CoercedConfidence(o, rt), b.nx1, b.ny1, b.nx2, b.ny2)
  }

  /**
   * The whole normaliser: joined text, trimmed, object span extracted, parsed, fields coerced. A thrown
   * error resolves to null, unless classifying it throws.
   */
  function Normalise(reply: Reply, parse: string -> Option<JsObject>, rt: JsRuntime): (r: Settled)
    ensures r.Rejects? <==> reply.Threw? && Classify(reply.error) == CatchThrows
    ensures r.Resolves? && r.detection.Some? <==>
      && reply.Completed?
      && Text.Trim(ContentText(reply.content)) != ""
      && ExtractObject(Text.Trim(ContentText(reply.content))).Some?
      && parse(ExtractObject(Text.Trim(ContentText(reply.content))).value).Some?
    ensures r.Resolves? && r.detection.Some? ==>
      r.detection.value == Coerce(parse(ExtractObject(Text.Trim(ContentText(reply.content))).value).value, rt)
  {
    match reply
    case Threw(e) => if Classify(e) == CatchThrows then Rejects else Resolves(None)
    case Completed(content) =>
      var text := Text.Trim(ContentText(content));
      if text == "" then Resolves(None)
      else
        match ExtractObject(text)
        case None => Resolves(None)
        case Some(span) =>
          match parse(span)
          case None => Resolves(None)
          case Some(o) => Resolves(Some(Coerce(o, rt)))
  }

  /** A rate-limit message. */
  predicate IsRateLimitMessage(m: string) {
    Text.Contains(m, "rate_limit_exceeded") || Text.Contains(m, "Rate limit reached")
  }

  /**
   * How the catch block treats a thrown error: a warning for a rate limit, an error otherwise, or a
   * `TypeError` of its own when `message.includes` is reached on a message that is not a string.
   */
  datatype FailureKind = RateLimited | OtherError | CatchThrows

  function Classify(e: CallError): (k: FailureKind)
    ensures k == RateLimited <==>
      || e.status == Some(429)
      || (e.message.MsgString? && exists i :: Text.OccursAt(e.message.s, "rate_limit_exceeded", i))
      || (e.message.MsgString? && exists i :: Text.OccursAt(e.message.s, "Rate limit reached", i))
    ensures k == CatchThrows <==> e.status != Some(429) && e.message.MsgOther?
  {
    if e.status == Some(429) then RateLimited
    else match e.message
      case MsgOther => CatchThrows
      case MsgString(m) => if IsRateLimitMessage(m) then RateLimited else OtherError
  }

  /** `groqPlateDetect` from the reply on: every failure is null, except one whose classification throws. */
  method PlateDetect(reply: Reply, parse: string -> Option<JsObject>, rt: JsRuntime) returns (r: Settled)
    ensures r == Normalise(reply, parse, rt)
  {
    match reply
    case Threw(e) =>
      var kind := Classify(e);
      if kind == CatchThrows {
        return Rejects;
      }
      r := Resolves(None);
    case Completed(content) =>
      var text := JoinText(content);
      text := Text.Trim(text);
      if text == "" {
        return Resolves(None);
      }
      var span := SliceObject(text);
      if span.None? {
        return Resolves(None);
      }
      var parsed := parse(span.value);
      if parsed.None? {
        return Resolves(None);
      }
      var d := CoerceFields(parsed.value, rt);
      r := Resolves(Some(d));
  }

  /** The brace search and slice of the reply text. */
  method SliceObject(text: string) returns (r: Option<string>)
    ensures r == ExtractObject(text)
  {
    var firstBrace := Text.IndexOf(text, '{');
    var lastBrace := Text.LastIndexOf(text, '}');
    if firstBrace == -1 || lastBrace == -1 || lastBrace <= firstBrace {
      return None;
    }
    r := Some(text[firstBrace..lastBrace + 1]);
  }

  /** The coercion of the parsed fields, with the clamp and swap done on local variables. */
  method CoerceFields(o: JsObject, rt: JsRuntime) returns (d: Detection)
    ensures d == Coerce(o, rt)
  {
    var plate := RawPlate(o, rt);
    var conf := RawConfidence(o, rt);
    var nx1, ny1, nx2, ny2 := Coordinate(o, "nx1", rt), Coordinate(o, "ny1", rt), Coordinate(o, "nx2", rt), Coordinate(o, "ny2", rt);
    ghost var box := RepairBox(nx1, ny1, nx2, ny2);
    nx1 := Clamp01(nx1);
    ny1 := Clamp01(ny1);
    nx2 := Clamp01(nx2);
    ny2 := Clamp01(ny2);
    if Less(nx2, nx1) {
      nx1, nx2 := nx2, nx1;
    }
    if Less(ny2, ny1) {
      ny1, ny2 := ny2, ny1;
    }
    assert Box(nx1, ny1, nx2, ny2) == box;
    d := Detection(if plate == "" then UNKNOWN else plate, if conf.NaN? then Fin(0.0) else conf, nx1, ny1, nx2, ny2);
  }
}
