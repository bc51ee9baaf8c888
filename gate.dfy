/**
 * The gate state machine of controller2.js: `detectHandler` reassigns the closure variable `gateState`
 * according to the detected vehicles and plates and a clock, and publishes it on the `gate-update` event.
 */
module Gate {
  import opened Wrappers
  import Text

  /** How long, in milliseconds, a plate identification is held before plates are looked up again. */
  const DWELL_MS := 5000

  /** `lastUpdate`: null, missing from the record altogether, or a time in milliseconds. */
  datatype Stamp = Null | Absent | At(ms: int)

  datatype Driver = Driver(fullName: string)
  datatype VehicleInfo = VehicleInfo(brand: string, model: string, kind: string)

  datatype GateState = GateState(
    vehicleFound: bool, plate: Option<string>, driver: Option<Driver>, vehicle: Option<VehicleInfo>, lastUpdate: Stamp)

  const INITIAL := GateState(false, None, None, None, Null)

  /** One entry of `plates`: the `ocr.text` it carries, if any. */
  datatype PlateObs = PlateObs(ocrText: Option<string>)

  /** The request body: the number of detected vehicles and the detected plates (missing arrays are empty). */
  datatype GateRequest = GateRequest(vehicles: nat, plates: seq<PlateObs>)

  /** `{success: true, data}` or the 500 `{success: false, message: "Internal server error"}`. */
  datatype GateResponse = Ok(data: GateState) | InternalError

  /** A row of `dbo."Vehicles"` as far as the plate lookup uses it. */
  datatype VehicleRow = VehicleRow(plateNumber: string, active: bool, info: VehicleInfo)

  /** The new state, the payload published (if any) and the response of one call. */
  datatype Outcome = Outcome(state: GateState, published: Option<GateState>, response: GateResponse)

  /** `gateState.lastUpdate || 0`. */
  function LastUpdateMs(s: GateState): int {
    if s.lastUpdate.At? then s.lastUpdate.ms else 0
  }

  predicate IsDash(c: char) { c == '-' }
  predicate IsBlank(c: char) { c == ' ' }

  /** The key of an OCR reading: every whitespace character and every `-` removed, then lower-cased. */
  function OcrPlateKey(text: string): (k: string)
    ensures |k| <= |text|
  {
    Text.Lower(Text.Remove(Text.Remove(text, Text.IsSpace), IsDash))
  }

  /** The key of a registered plate in the SQL lookup: only `' '` and `-` removed, then lower-cased. */
  function RegistryPlateKey(plateNumber: string): (k: string)
    ensures |k| <= |plateNumber|
    ensures forall i :: 0 <= i < |k| ==> k[i] != ' ' && k[i] != '-'
  {
    var stripped := Text.Remove(Text.Remove(plateNumber, IsBlank), IsDash);
    assert forall c :: c in stripped ==> !IsBlank(c) && !IsDash(c);
    assert forall i :: 0 <= i < |stripped| ==> stripped[i] in stripped;
    Text.Lower(stripped)
  }

  /** `plates.map(x => x.ocr?.text?.replace(...).replace(...).toLowerCase())`. */
  function OcrKeys(plates: seq<PlateObs>): (keys: seq<Option<string>>)
    ensures |keys| == |plates|
    ensures forall i :: 0 <= i < |plates| ==>
      keys[i] == if plates[i].ocrText.Some? then Some(OcrPlateKey(plates[i].ocrText.value)) else None
  {
    seq(|plates|, i requires 0 <= i < |plates| =>
      if plates[i].ocrText.Some? then Some(OcrPlateKey(plates[i].ocrText.value)) else None)
  }

  /** The lookup query: the active vehicles whose registry key equals one of the OCR keys. */
  function MatchingVehicles(registry: seq<VehicleRow>, keys: seq<Option<string>>): (rows: seq<VehicleRow>)
    ensures forall v :: v in rows <==> v in registry && v.active && Some(RegistryPlateKey(v.plateNumber)) in keys
  {
    if registry == [] then []
    else
      var v := registry[0];
      assert forall w :: w in registry <==> w == v || w in registry[1..];
      (if v.active && Some(RegistryPlateKey(v.plateNumber)) in keys then [v] else []) + MatchingVehicles(registry[1..], keys)
  }

  /** One call of `detectHandler` on the state `s` at time `now`. */
  function Transition(s: GateState, req: GateRequest, now: int): (o: Outcome)
    ensures o.response.Ok? ==> o.published == Some(o.state) && o.response.data == o.state
    ensures o.response.InternalError? ==> o.published.None? && o.state == s
    ensures o.response.Ok? <==> req.plates == [] || now - LastUpdateMs(s) > DWELL_MS
    ensures req.plates == [] ==> (o.state.vehicleFound <==> req.vehicles > 0)
    ensures req.plates == [] ==> o.state.plate.None? && o.state.driver.None? && o.state.vehicle.None?
    ensures req.plates == [] ==> o.state.lastUpdate == if req.vehicles == 0 then Absent else s.lastUpdate
    ensures req.plates != [] ==> o.state == s
  {
    if req.vehicles == 0 && req.plates == [] then
      var cleared := GateState(false, None, None, None, Absent);
      Outcome(cleared, Some(cleared), Ok(cleared))
    else if req.plates == [] then
      var waiting := GateState(true, None, None, None, s.lastUpdate);
      Outcome(waiting, Some(waiting), Ok(waiting))
    else if now - LastUpdateMs(s) > DWELL_MS then
      Outcome(s, Some(s), Ok(s))
    else
      Outcome(s, None, InternalError)
  }

  /** The closure of `createControllers`: the current `gateState` and the log of published payloads. */
  class GateController {
    var state: GateState
    ghost var published: seq<GateState>

    constructor()
      ensures state == INITIAL && published == []
    {
      state := INITIAL;
      published := [];
    }

    /** `detectHandler` with the clock reading `now` and the vehicle registry the query runs against. */
    method Detect(req: GateRequest, now: int, registry: seq<VehicleRow>) returns (resp: GateResponse)
      modifies this
      ensures var o := Transition(old(state), req, now);
        && state == o.state && resp == o.response
        && published == old(published) + (if o.published.Some? then [o.published.value] else [])
    {
      if req.vehicles == 0 && req.plates == [] {
        state := GateState(false, None, None, None, Absent);
        published := published + [state];
        return Ok(state);
      }
      if req.vehicles > 0 && req.plates == [] {
        state := GateState(true, None, None, None, state.lastUpdate);
        published := published + [state];
        return Ok(state);
      }
      var timeSinceLastUpdate := now - LastUpdateMs(state);
      if timeSinceLastUpdate > DWELL_MS {
        published := published + [state];
        return Ok(state);
      }
      var foundPlates := OcrKeys(req.plates);
      var rows := MatchingVehicles(registry, foundPlates);
      // The result is assigned to `vehicleDetails`, which is never declared: in an ES module that
      // assignment throws a ReferenceError, caught as a 500 before anything is published.
      resp := InternalError;
    }
  }

  datatype Call = Call(req: GateRequest, now: int)

  /** The state after a sequence of calls. */
  function Run(s: GateState, calls: seq<Call>): GateState
    decreases |calls|
  {
    if calls == [] then s else Run(Transition(s, calls[0].req, calls[0].now).state, calls[1..])
  }

  /** No plate, driver or vehicle recorded, and no time stamped. */
  predicate Unidentified(s: GateState) {
    s.plate.None? && s.driver.None? && s.vehicle.None? && !s.lastUpdate.At?
  }

  /** Since the only assignment of a time is unreachable, no sequence of calls records an identification. */
  lemma {:induction false} RunStaysUnidentified(s: GateState, calls: seq<Call>)
    requires Unidentified(s)
    ensures Unidentified(Run(s, calls))
    decreases |calls|
  {
    if calls != [] {
      RunStaysUnidentified(Transition(s, calls[0].req, calls[0].now).state, calls[1..]);
    }
  }

  /**
   * From the initial state, once the clock is past 5000 ms every call with plates republishes the state
   * unchanged: the plate lookup is never reached again.
   */
  lemma PlatesAfterDwellRepublish(calls: seq<Call>, req: GateRequest, now: int)
    requires req.plates != [] && now > DWELL_MS
    ensures var s := Run(INITIAL, calls); Transition(s, req, now) == Outcome(s, Some(s), Ok(s))
  {
    RunStaysUnidentified(INITIAL, calls);
  }

  /** The OCR key holds no whitespace, no `-` and no upper-case ASCII letter. */
  lemma OcrPlateKeyIsClean(text: string)
    ensures forall i :: 0 <= i < |OcrPlateKey(text)| ==>
      var c := OcrPlateKey(text)[i]; !Text.IsSpace(c) && c != '-' && !('A' <= c <= 'Z')
  {
    var stripped := Text.Remove(Text.Remove(text, Text.IsSpace), IsDash);
    forall i | 0 <= i < |stripped| ensures !Text.IsSpace(stripped[i]) && stripped[i] != '-' {
      assert stripped[i] in stripped;
    }
  }

  /** Normalising an OCR key again gives the same key. */
  lemma OcrPlateKeyIsIdempotent(text: string)
    ensures OcrPlateKey(OcrPlateKey(text)) == OcrPlateKey(text)
  {
    var k := OcrPlateKey(text);
    OcrPlateKeyIsClean(text);
    Text.RemoveKeeps(k, Text.IsSpace);
    Text.RemoveKeeps(k, IsDash);
    assert Text.Lower(k) == k;
  }

  lemma RemoveDropped(sep: char, drop: char -> bool)
    requires drop(sep)
    ensures Text.Remove([sep], drop) == []
  {
    assert [sep][1..] == [];
  }

  /** Removing a single dropped separator between two kept parts joins the parts. */
  lemma StripSeparator(a: string, sep: char, b: string, drop: char -> bool)
    requires Text.Remove(a, drop) == a && Text.Remove(b, drop) == b
    requires drop(sep)
    ensures Text.Remove(a + [sep] + b, drop) == a + b
  {
    Text.RemoveAppend(a + [sep], b, drop);
    Text.RemoveAppend(a, [sep], drop);
    RemoveDropped(sep, drop);
    assert a + [] == a;
  }

  lemma ExampleStrings()
    ensures "NBC 1234" == "NBC" + [' '] + "1234"
    ensures "NBC-1234" == "NBC" + ['-'] + "1234"
    ensures "NBC\t1234" == "NBC" + ['\t'] + "1234"
    ensures "NBC" + "1234" == "NBC1234"
  {
  }

  lemma ExamplePartsKept()
    ensures Text.Remove("NBC", Text.IsSpace) == "NBC" && Text.Remove("NBC", IsDash) == "NBC"
    ensures Text.Remove("1234", Text.IsSpace) == "1234" && Text.Remove("1234", IsDash) == "1234"
  {
    LettersKept();
    DigitsKept();
  }

  lemma LettersKept()
    ensures Text.Remove("NBC", Text.IsSpace) == "NBC" && Text.Remove("NBC", IsDash) == "NBC"
  {
    var s := "NBC";
    assert s[0] == 'N' && s[1] == 'B' && s[2] == 'C';
    AlnumKept(s);
  }

  lemma DigitsKept()
    ensures Text.Remove("1234", Text.IsSpace) == "1234" && Text.Remove("1234", IsDash) == "1234"
  {
    var s := "1234";
    assert s[0] == '1' && s[1] == '2' && s[2] == '3' && s[3] == '4';
    AlnumKept(s);
  }

  predicate IsAlnum(c: char) { 'A' <= c <= 'Z' || 'a' <= c <= 'z' || '0' <= c <= '9' }

  lemma AlnumKept(s: string)
    requires forall i :: 0 <= i < |s| ==> IsAlnum(s[i])
    ensures Text.Remove(s, Text.IsSpace) == s && Text.Remove(s, IsDash) == s
  {
    Text.RemoveKeeps(s, Text.IsSpace);
    Text.RemoveKeeps(s, IsDash);
  }

  lemma JoinedKept()
    ensures Text.Remove("NBC1234", Text.IsSpace) == "NBC1234" && Text.Remove("NBC1234", IsDash) == "NBC1234"
  {
    var s := "NBC1234";
    assert s[0] == 'N' && s[1] == 'B' && s[2] == 'C' && s[3] == '1' && s[4] == '2' && s[5] == '3' && s[6] == '4';
    AlnumKept(s);
  }

  lemma LowerJoined()
    ensures Text.Lower("NBC1234") == "nbc1234"
  {
    var s, r := "NBC1234", "nbc1234";
    assert s[0] == 'N' && s[1] == 'B' && s[2] == 'C' && s[3] == '1' && s[4] == '2' && s[5] == '3' && s[6] == '4';
    assert r[0] == 'n' && r[1] == 'b' && r[2] == 'c' && r[3] == '1' && r[4] == '2' && r[5] == '3' && r[6] == '4';
    assert forall i :: 0 <= i < 7 ==> Text.Lower(s)[i] == r[i];
  }

  lemma LowerPlain()
    ensures Text.Lower("nbc1234") == "nbc1234"
  {
    var s := "nbc1234";
    assert s[0] == 'n' && s[1] == 'b' && s[2] == 'c' && s[3] == '1' && s[4] == '2' && s[5] == '3' && s[6] == '4';
    Text.LowerKeeps(s);
  }

  lemma LowerTabbed()
    ensures Text.Lower("NBC\t1234") == "nbc\t1234"
  {
    var s, r := "NBC\t1234", "nbc\t1234";
    assert s[0] == 'N' && s[1] == 'B' && s[2] == 'C' && s[3] == '\t' && s[4] == '1' && s[5] == '2' && s[6] == '3' && s[7] == '4';
    assert r[0] == 'n' && r[1] == 'b' && r[2] == 'c' && r[3] == '\t' && r[4] == '1' && r[5] == '2' && r[6] == '3' && r[7] == '4';
    assert forall i :: 0 <= i < 8 ==> Text.Lower(s)[i] == r[i];
  }

  lemma SpacedKey()
    ensures OcrPlateKey("NBC 1234") == "nbc1234"
  {
    ExampleStrings();
    ExamplePartsKept();
    StripSeparator("NBC", ' ', "1234", Text.IsSpace);
    JoinedKept();
    LowerJoined();
  }

  lemma DashedHasNoSpace()
    ensures Text.Remove("NBC-1234", Text.IsSpace) == "NBC-1234"
  {
    var s := "NBC-1234";
    assert s[0] == 'N' && s[1] == 'B' && s[2] == 'C' && s[3] == '-' && s[4] == '1' && s[5] == '2' && s[6] == '3' && s[7] == '4';
    Text.RemoveKeeps(s, Text.IsSpace);
  }

  lemma DashedKey()
    ensures OcrPlateKey("NBC-1234") == "nbc1234"
  {
    DashedHasNoSpace();
    ExampleStrings();
    ExamplePartsKept();
    StripSeparator("NBC", '-', "1234", IsDash);
    LowerJoined();
  }

  lemma PlainKey()
    ensures OcrPlateKey("nbc1234") == "nbc1234"
  {
    var s := "nbc1234";
    assert s[0] == 'n' && s[1] == 'b' && s[2] == 'c' && s[3] == '1' && s[4] == '2' && s[5] == '3' && s[6] == '4';
    AlnumKept(s);
    LowerPlain();
  }

  /** A space, a dash or neither: the three spellings of one plate share a key. */
  lemma OcrPlateKeyExamples()
    ensures OcrPlateKey("NBC 1234") == "nbc1234"
    ensures OcrPlateKey("NBC-1234") == "nbc1234"
    ensures OcrPlateKey("nbc1234") == "nbc1234"
  {
    SpacedKey();
    DashedKey();
    PlainKey();
  }

  /** When the only whitespace in a registered plate is `' '`, both sides compute the same key. */
  lemma KeysAgreeOnBlankSpacing(p: string)
    requires forall i :: 0 <= i < |p| ==> Text.IsSpace(p[i]) ==> p[i] == ' '
    ensures RegistryPlateKey(p) == OcrPlateKey(p)
  {
    Text.RemoveAgrees(p, IsBlank, Text.IsSpace);
  }

  /** A registered plate containing a tab never matches any OCR reading: the OCR key keeps no whitespace. */
  lemma TabbedPlateNeverMatches(p: string, t: string)
    requires '\t' in p
    ensures RegistryPlateKey(p) != OcrPlateKey(t)
  {
    var q := Text.Remove(Text.Remove(p, IsBlank), IsDash);
    assert '\t' in Text.Remove(p, IsBlank);
    assert '\t' in q;
    var i :| 0 <= i < |q| && q[i] == '\t';
    assert RegistryPlateKey(p)[i] == '\t';
    OcrPlateKeyIsClean(t);
    if RegistryPlateKey(p) == OcrPlateKey(t) {
      assert Text.IsSpace(OcrPlateKey(t)[i]);
    }
  }

  /** The plate "NBC\t1234" has the registry key "nbc\t1234" but is read as "nbc1234". */
  lemma TabbedPlateExample()
    ensures OcrPlateKey("NBC\t1234") == "nbc1234"
    ensures RegistryPlateKey("NBC\t1234") == "nbc\t1234"
  {
    TabbedOcrKey();
    TabbedRegistryKey();
  }

  lemma TabbedOcrKey()
    ensures OcrPlateKey("NBC\t1234") == "nbc1234"
  {
    ExampleStrings();
    ExamplePartsKept();
    StripSeparator("NBC", '\t', "1234", Text.IsSpace);
    JoinedKept();
    LowerJoined();
  }

  lemma TabbedHasNoBlankOrDash()
    ensures Text.Remove("NBC\t1234", IsBlank) == "NBC\t1234"
    ensures Text.Remove("NBC\t1234", IsDash) == "NBC\t1234"
  {
    TabbedKeptBy(IsBlank);
    TabbedKeptBy(IsDash);
  }

  lemma TabbedKeptBy(drop: char -> bool)
    requires drop == IsBlank || drop == IsDash
    ensures Text.Remove("NBC\t1234", drop) == "NBC\t1234"
  {
    var s := "NBC\t1234";
    assert forall i :: 0 <= i < |s| ==> !drop(s[i]);
    Text.RemoveKeeps(s, drop);
  }

  lemma TabbedRegistryKey()
    ensures RegistryPlateKey("NBC\t1234") == "nbc\t1234"
  {
    TabbedHasNoBlankOrDash();
    LowerTabbed();
  }
}
