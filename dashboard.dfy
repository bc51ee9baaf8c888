/**
 * The dashboard page (public/js/dashboard.js): chart axis labels and range controls, the gate panel
 * driven by `gate-update` events with its single reset timer, and the camera online/offline status.
 */
module Dashboard {
  import opened Wrappers
  import opened JsValues
  import Text

  // ---------------------------------------------------------------------------------------------
  // Time resolutions and axis labels
  // ---------------------------------------------------------------------------------------------

  datatype Resolution = Hour | Day | Week

  /** The `ranges` of `RESOLUTION_CONFIG`. */
  function Ranges(res: Resolution): seq<nat> {
    match res
    case Hour => [6, 12, 24]
    case Day => [3, 7, 14]
    case Week => [4, 8, 12]
  }

  /** The label of the current period. */
  function CurrentLabel(res: Resolution): string {
    match res
    case Hour => "Now"
    case Day => "Today"
    case Week => "This week"
  }

  function UnitLetter(res: Resolution): char {
    match res
    case Hour => 'h'
    case Day => 'd'
    case Week => 'w'
  }

  /** The label of a period `diff` units back, `-${diff}h` and its day and week analogues. */
  function AgoLabel(res: Resolution, diff: nat): string {
    "-" + Text.NatToString(diff) + [UnitLetter(res)]
  }

  /** `labelFormatter(range)`: one label per period, oldest first, the current period last. */
  function LabelFormatter(res: Resolution, range: nat): (labels: seq<string>)
    ensures |labels| == range
    ensures range > 0 ==> labels[range - 1] == CurrentLabel(res)
    ensures forall i :: 0 <= i < range - 1 ==> labels[i] == AgoLabel(res, range - 1 - i)
  {
    seq(range, i requires 0 <= i < range => if range - 1 - i == 0 then CurrentLabel(res) else AgoLabel(res, range - 1 - i))
  }

  lemma AgoLabelInjective(res: Resolution, a: nat, b: nat)
    requires AgoLabel(res, a) == AgoLabel(res, b)
    ensures a == b
  {
    var la := AgoLabel(res, a);
    var lb := AgoLabel(res, b);
    assert la[1..|la| - 1] == Text.NatToString(a);
    assert lb[1..|lb| - 1] == Text.NatToString(b);
    Text.NatToStringInjective(a, b);
  }

  /** No two labels of one axis are equal. */
  lemma LabelsAreDistinct(res: Resolution, range: nat)
    ensures forall i, j :: 0 <= i < j < range ==> LabelFormatter(res, range)[i] != LabelFormatter(res, range)[j]
  {
    var labels := LabelFormatter(res, range);
    forall i, j | 0 <= i < j < range ensures labels[i] != labels[j] {
      if j == range - 1 {
        assert labels[i][0] == '-';
        assert CurrentLabel(res)[0] != '-';
      } else if labels[i] == labels[j] {
        AgoLabelInjective(res, range - 1 - i, range - 1 - j);
        assert false;
      }
    }
  }

  /** A longer axis ends with the labels of a shorter one: widening the range only adds older periods. */
  lemma LongerRangeExtendsLabels(res: Resolution, n: nat, m: nat)
    requires n <= m
    ensures LabelFormatter(res, m)[m - n..] == LabelFormatter(res, n)
  {
    var long := LabelFormatter(res, m);
    var short := LabelFormatter(res, n);
    forall i | 0 <= i < n ensures long[m - n + i] == short[i] {
      assert m - 1 - (m - n + i) == n - 1 - i;
    }
  }

  lemma HourLabelsExample()
    ensures LabelFormatter(Hour, 6) == ["-5h", "-4h", "-3h", "-2h", "-1h", "Now"]
  {
    var labels := LabelFormatter(Hour, 6);
    assert AgoLabel(Hour, 5) == "-5h" && AgoLabel(Hour, 4) == "-4h" && AgoLabel(Hour, 3) == "-3h";
    assert AgoLabel(Hour, 2) == "-2h" && AgoLabel(Hour, 1) == "-1h";
    assert labels[0] == AgoLabel(Hour, 5);
    assert labels[1] == AgoLabel(Hour, 4);
    assert labels[2] == AgoLabel(Hour, 3);
    assert labels[3] == AgoLabel(Hour, 2);
    assert labels[4] == AgoLabel(Hour, 1);
  }

  /**
   * The resolution chips and range select of one panel (the traffic chart, or the activity history, which
   * repeats the same logic in `updateActivityRangeSelect` and its listeners).
   */
  class RangeSelector {
    var resolution: Resolution
    var range: Num

    /** `currentResolution = "hour"`, `currentRange = ranges[0]`, then `updateRangeSelect()` at start-up. */
    constructor()
      ensures resolution == Hour && range == Fin(6.0)
    {
      resolution := Hour;
      range := Fin(Ranges(Hour)[0] as real);
    }

    /** `updateRangeSelect`: the options are rebuilt and the range goes back to the first option. */
    method UpdateRangeSelect()
      modifies this`range
      ensures range == Fin(Ranges(resolution)[0] as real)
    {
      range := Fin(Ranges(resolution)[0] as real);
    }

    /** A click on a chip carrying `chip` as its resolution (`None` when it carries none). */
    method ChipClicked(chip: Option<Resolution>)
      modifies this
      ensures chip.None? || chip == Some(old(resolution)) ==> resolution == old(resolution) && range == old(range)
      ensures chip.Some? && chip.value != old(resolution) ==>
        resolution == chip.value && range == Fin(Ranges(chip.value)[0] as real)
    {
      if chip.None? || chip.value == resolution {
        return;
      }
      resolution := chip.value;
      UpdateRangeSelect();
    }

    /** `Number(evt.target.value) || currentRange`, where `value` is the select's value as a number. */
    method RangeChanged(value: Num)
      modifies this`range
      ensures range == if NumTruthy(value) then value else old(range)
    {
      if NumTruthy(value) {
        range := value;
      }
    }
  }

  /** The range is one of the options offered for the resolution. */
  predicate RangeOffered(res: Resolution, range: Num) {
    exists i :: 0 <= i < |Ranges(res)| && range == Fin(Ranges(res)[i] as real)
  }

  /** Each resolution's first option is offered, so a resolution change leaves an offered range. */
  lemma FirstRangeOffered(res: Resolution)
    ensures RangeOffered(res, Fin(Ranges(res)[0] as real))
  {
    assert 0 < |Ranges(res)|;
  }

  /** Choosing any offered option, or an empty value, keeps the range offered. */
  lemma ChosenRangeOffered(res: Resolution, old_range: Num, value: Num)
    requires RangeOffered(res, old_range)
    requires value == Fin(0.0) || value.NaN? || RangeOffered(res, value)
    ensures RangeOffered(res, if NumTruthy(value) then value else old_range)
  {
  }

  // ---------------------------------------------------------------------------------------------
  // The gate panel
  // ---------------------------------------------------------------------------------------------

  const GATE_DETECT_TIMEOUT_MS := 15000
  const NO_VEHICLE := "NO VEHICLE"
  const NOT_REGISTERED := "NOT REGISTERED"
  const REGISTERED := "REGISTERED"
  const CAR_IMAGE := "images/car.png"
  const EMPTY_INFO := ["---", "---", "---", "---", "---"]

  /** The classes on the status band. */
  datatype Band = Plain | RegisteredBand | NotRegisteredBand

  /** The band, the label, the vehicle image and the five info fields (plate, driver, type, brand, model). */
  datatype Display = Display(band: Band, status: string, image: string, info: seq<string>)

  /** What `reset()` shows. */
  const CLEARED := Display(Plain, NO_VEHICLE, "", EMPTY_INFO)

  datatype DriverPayload = DriverPayload(fullName: Option<string>)
  datatype VehiclePayload = VehiclePayload(plate: Option<string>, kind: Option<string>, brand: Option<string>, model: Option<string>)

  /** A `gate-update` payload: missing and null fields are both `None`; `kind` is the top-level `type`. */
  datatype GatePayload = GatePayload(
    vehicleFound: bool, plate: Option<string>, driver: Option<DriverPayload>, vehicle: Option<VehiclePayload>,
    kind: Option<string>)

  /** `!!data.plate`. */
  predicate PlateTruthy(plate: Option<string>) {
    plate.Some? && plate.value != ""
  }

  /** Setting `textContent` to a missing value leaves the field empty. */
  function FieldText(v: Option<string>): string {
    if v.Some? then v.value else ""
  }

  function InfoFields(p: GatePayload): seq<string>
    requires p.driver.Some? && p.vehicle.Some?
  {
    [FieldText(p.vehicle.value.plate), FieldText(p.driver.value.fullName), FieldText(p.vehicle.value.kind),
     FieldText(p.vehicle.value.brand), FieldText(p.vehicle.value.model)]
  }

  /** The words looked for in the lower-cased `type`, in order, with the image each selects. */
  const IMAGE_RULES: seq<(string, string)> := [
    ("motorcycle", "images/motorcycle.png"), ("truck", "images/truck.png"), ("bus", "images/bus.png"),
    ("utility vehicle", "images/van.png"), ("pickup", "images/pickup.png")]

  /** No rule in `rules[lo..hi]` has a word that `t` contains. */
  predicate NoneMatchBetween(t: string, rules: seq<(string, string)>, lo: int, hi: int)
    requires 0 <= lo <= hi <= |rules|
  {
    forall j :: lo <= j < hi ==> !Text.Contains(t, rules[j].0)
  }

  /** Rule `i` is the first whose word `t` contains. */
  predicate FirstMatchAt(t: string, rules: seq<(string, string)>, i: int)
    requires 0 <= i < |rules|
  {
    Text.Contains(t, rules[i].0) && NoneMatchBetween(t, rules, 0, i)
  }

  /** The rule scan from index `k` on. */
  function ImageFrom(t: string, rules: seq<(string, string)>, k: int): (image: string)
    requires 0 <= k <= |rules|
    ensures forall i :: k <= i < |rules| && Text.Contains(t, rules[i].0) && NoneMatchBetween(t, rules, k, i) ==>
      image == rules[i].1
    ensures NoneMatchBetween(t, rules, k, |rules|) ==> image == CAR_IMAGE
    ensures image == CAR_IMAGE || exists i :: k <= i < |rules| && image == rules[i].1
    decreases |rules| - k
  {
    if k == |rules| then CAR_IMAGE
    else if Text.Contains(t, rules[k].0) then rules[k].1
    else ImageFrom(t, rules, k + 1)
  }

  /** The image of the first rule whose word `t` contains, the car when there is none. */
  function FirstMatchingImage(t: string, rules: seq<(string, string)>): (image: string)
    ensures forall i :: 0 <= i < |rules| && FirstMatchAt(t, rules, i) ==> image == rules[i].1
    ensures NoneMatchBetween(t, rules, 0, |rules|) ==> image == CAR_IMAGE
    ensures image == CAR_IMAGE || exists i :: 0 <= i < |rules| && image == rules[i].1
  {
    ImageFrom(t, rules, 0)
  }

  /** The image for `data?.type?.toLowerCase() || ""`. */
  function VehicleImage(kind: Option<string>): (image: string)
    ensures image in {CAR_IMAGE, "images/motorcycle.png", "images/truck.png", "images/bus.png", "images/van.png", "images/pickup.png"}
  {
    FirstMatchingImage(Text.Lower(FieldText(kind)), IMAGE_RULES)
  }

  /** A payload without a top-level `type` always shows the car, whatever `vehicle.type` says. */
  lemma NoTopLevelTypeShowsCar(p: GatePayload)
    requires p.kind.None?
    ensures VehicleImage(p.kind) == CAR_IMAGE
  {
    assert Text.Lower(FieldText(p.kind)) == [];
    NothingOccursInEmpty("motorcycle");
    NothingOccursInEmpty("truck");
    NothingOccursInEmpty("bus");
    NothingOccursInEmpty("utility vehicle");
    NothingOccursInEmpty("pickup");
  }

  lemma NothingOccursInEmpty(p: string)
    requires p != []
    ensures !Text.Contains([], p)
  {
    assert forall i :: !Text.OccursAt([], p, i);
  }

  /** What the `gate-update` handler leaves on the display `d` (ignoring the 100 ms delay of the image). */
  function Shown(d: Display, p: GatePayload): (r: Display)
    ensures r.status == REGISTERED <==> p.vehicleFound && p.driver.Some? && p.vehicle.Some? && PlateTruthy(p.plate)
    ensures r.status == NOT_REGISTERED <==> p.vehicleFound && (p.driver.None? || p.vehicle.None?)
    ensures r.status == NO_VEHICLE <==> !p.vehicleFound || (p.driver.Some? && p.vehicle.Some? && !PlateTruthy(p.plate))
    ensures r.status == NO_VEHICLE ==> r == CLEARED
    ensures r.status == NOT_REGISTERED ==> r == Display(NotRegisteredBand, NOT_REGISTERED, CAR_IMAGE, d.info)
    ensures r.status == REGISTERED ==> r == Display(RegisteredBand, REGISTERED, VehicleImage(p.kind), InfoFields(p))
  {
    if !p.vehicleFound then CLEARED
    else if p.driver.None? || p.vehicle.None? then Display(NotRegisteredBand, NOT_REGISTERED, CAR_IMAGE, d.info)
    else if !PlateTruthy(p.plate) then CLEARED
    else Display(RegisteredBand, REGISTERED, VehicleImage(p.kind), InfoFields(p))
  }

  /** What happens to the pending reset timer. */
  datatype TimerEffect = Cancel | Rearm | Keep

  function TimerEffectOf(p: GatePayload): (e: TimerEffect)
    ensures e == Cancel <==> !p.vehicleFound
    ensures e == Keep <==> Shown(CLEARED, p).status == NO_VEHICLE && p.vehicleFound
    ensures e == Rearm <==> Shown(CLEARED, p).status != NO_VEHICLE
  {
    if !p.vehicleFound then Cancel
    else if p.driver.None? || p.vehicle.None? then Rearm
    else if !PlateTruthy(p.plate) then Keep
    else Rearm
  }

  /**
   * The gate panel: what it shows, the `gateResetTimer` slot, and the browser's table of pending timers
   * (only the reset timers; they are identified by positive handles).
   */
  class GatePanel {
    var display: Display
    var resetTimer: Option<nat>
    var pending: map<nat, int>
    var nextHandle: nat

    /** The slot holds the only pending timer, if any. */
    ghost predicate Valid()
      reads this
    {
      && (resetTimer.None? ==> pending == map[])
      && (resetTimer.Some? ==> pending.Keys == {resetTimer.value} && resetTimer.value < nextHandle)
      && nextHandle > 0
    }

    /** The page start: `gateResetTimer = null`, then `reset()`. */
    constructor()
      ensures Valid() && display == CLEARED && resetTimer.None? && pending == map[]
    {
      resetTimer := None;
      pending := map[];
      nextHandle := 1;
      display := CLEARED;
    }

    method Reset()
      modifies this`display
      ensures display == CLEARED
    {
      display := CLEARED;
    }

    /** `scheduleGateReset`: clear the pending timer, if any, then arm a new one. */
    method ScheduleReset(now: int)
      requires Valid()
      modifies this`resetTimer, this`pending, this`nextHandle
      ensures Valid()
      ensures resetTimer == Some(old(nextHandle)) && pending == map[old(nextHandle) := now + GATE_DETECT_TIMEOUT_MS]
      ensures nextHandle == old(nextHandle) + 1
    {
      if resetTimer.Some? {
        pending := pending - {resetTimer.value};
      }
      var handle := nextHandle;
      nextHandle := nextHandle + 1;
      pending := pending[handle := now + GATE_DETECT_TIMEOUT_MS];
      resetTimer := Some(handle);
    }

    /** The `gate-update` handler, receiving `p` at time `now`. */
    method OnGateUpdate(p: GatePayload, now: int)
      requires Valid()
      modifies this
      ensures Valid()
      ensures display == Shown(old(display), p)
      ensures match TimerEffectOf(p)
        case Cancel => resetTimer.None? && pending == map[]
        case Rearm => resetTimer == Some(old(nextHandle)) && pending == map[old(nextHandle) := now + GATE_DETECT_TIMEOUT_MS]
        case Keep => resetTimer == old(resetTimer) && pending == old(pending)
    {
      if !p.vehicleFound {
        display := Display(Plain, NO_VEHICLE, "", display.info);
        if resetTimer.Some? {
          pending := pending - {resetTimer.value};
          resetTimer := None;
        }
        Reset();
        return;
      }
      display := display.(image := CAR_IMAGE);
      if p.driver.None? || p.vehicle.None? {
        display := display.(band := NotRegisteredBand, status := NOT_REGISTERED);
        ScheduleReset(now);
        return;
      } else if !PlateTruthy(p.plate) {
        display := display.(band := Plain, status := NO_VEHICLE);
        Reset();
        return;
      }
      display := display.(band := RegisteredBand, status := REGISTERED);
      display := display.(info := InfoFields(p));
      display := display.(image := VehicleImage(p.kind));
      ScheduleReset(now);
    }

    /** The pending timer `handle` fires: `reset()` and the slot is freed. */
    method OnResetTimer(handle: nat)
      requires Valid() && handle in pending
      modifies this
      ensures Valid()
      ensures display == CLEARED && resetTimer.None? && pending == map[]
    {
      pending := pending - {handle};
      Reset();
      resetTimer := None;
    }
  }

  /** With the panel's invariant, at most one reset is pending, and it is the one in the slot. */
  lemma AtMostOneResetPending(resetTimer: Option<nat>, pending: map<nat, int>)
    requires resetTimer.None? ==> pending == map[]
    requires resetTimer.Some? ==> pending.Keys == {resetTimer.value}
    ensures |pending.Keys| <= 1
    ensures forall h :: h in pending ==> resetTimer == Some(h)
  {
  }

  // ---------------------------------------------------------------------------------------------
  // Camera status
  // ---------------------------------------------------------------------------------------------

  const CAMERA_TIMEOUT_MS := 2000
  const DEFAULT_STREAM := "mobile-1"

  /** The preview of the first camera card: the placeholder, or the latest frame of a stream. */
  datatype Preview = NoVideo | LatestFrame(streamId: string, ts: int)

  /**
   * The preview's URL contains `no-video.png`: the placeholder itself, or a frame whose stream id contains it
   * (`encodeURIComponent` leaves those characters as they are and never produces them).
   */
  predicate NamesPlaceholder(p: Preview) {
    p.NoVideo? || Text.Contains(p.streamId, "no-video.png")
  }

  class Camera {
    var lastFrameTs: Option<int>
    var online: bool
    var preview: Preview

    /** Offline until the first frame arrives. */
    constructor()
      ensures lastFrameTs.None? && !online && preview == NoVideo
    {
      lastFrameTs := None;
      online := false;
      preview := NoVideo;
    }

    /** A `frame` event with the given `stream_id` and `ts` ("" and 0 when missing), at time `now`. */
    method OnFrame(streamId: string, ts: int, now: int)
      modifies this
      ensures lastFrameTs == Some(now) && online
      ensures preview == LatestFrame(if streamId == "" then DEFAULT_STREAM else streamId, if ts == 0 then now else ts)
    {
      var stream := if streamId == "" then DEFAULT_STREAM else streamId;
      var stamp := if ts == 0 then now else ts;
      lastFrameTs := Some(now);
      online := true;
      preview := LatestFrame(stream, stamp);
    }

    /** The periodic check at time `now`. */
    method OnInterval(now: int)
      modifies this`online, this`preview
      ensures online == (old(online) && !(old(lastFrameTs).Some? && now - old(lastFrameTs).value > CAMERA_TIMEOUT_MS))
      ensures preview ==
        if lastFrameTs.Some? && now - lastFrameTs.value > CAMERA_TIMEOUT_MS && !NamesPlaceholder(old(preview))
        then NoVideo else old(preview)
    {
      if lastFrameTs.None? {
        return;
      }
      var diff := now - lastFrameTs.value;
      if diff > CAMERA_TIMEOUT_MS {
        online := false;
        if !NamesPlaceholder(preview) {
          preview := NoVideo;
        }
      }
    }
  }

  /** The status after frames arrive and checks run, as the camera's specification. */
  datatype CameraEvent = Frame(at: int) | Check(at: int)

  function OnlineAfter(online: bool, last: Option<int>, events: seq<CameraEvent>): (r: bool)
    decreases |events|
  {
    if events == [] then online
    else match events[0]
      case Frame(t) => OnlineAfter(true, Some(t), events[1..])
      case Check(t) => OnlineAfter(online && !(last.Some? && t - last.value > CAMERA_TIMEOUT_MS), last, events[1..])
  }

  /** A camera driven by a sequence of frames and checks is online exactly as `OnlineAfter` says. */
  method RunCamera(c: Camera, events: seq<CameraEvent>)
    modifies c
    ensures c.online == OnlineAfter(old(c.online), old(c.lastFrameTs), events)
    decreases |events|
  {
    if events == [] {
      return;
    }
    match events[0] {
      case Frame(t) => c.OnFrame("", 0, t);
      case Check(t) => c.OnInterval(t);
    }
    RunCamera(c, events[1..]);
  }

  /** Online only after a frame: a camera that never got one stays offline whatever the checks. */
  lemma {:induction false} NoFrameStaysOffline(events: seq<CameraEvent>)
    requires forall i :: 0 <= i < |events| ==> events[i].Check?
    ensures !OnlineAfter(false, None, events)
    decreases |events|
  {
    if events != [] {
      NoFrameStaysOffline(events[1..]);
    }
  }

  /** A new camera card that only ever sees checks stays offline. */
  method NeverFramedCamera(checks: seq<CameraEvent>) returns (c: Camera)
    requires forall i :: 0 <= i < |checks| ==> checks[i].Check?
    ensures !c.online
  {
    c := new Camera();
    RunCamera(c, checks);
    NoFrameStaysOffline(checks);
  }

  /** Checks that come within 2000 ms of the last frame leave the camera online. */
  lemma {:induction false} RecentFrameStaysOnline(t: int, checks: seq<CameraEvent>)
    requires forall i :: 0 <= i < |checks| ==> checks[i].Check? && checks[i].at - t <= CAMERA_TIMEOUT_MS
    ensures OnlineAfter(true, Some(t), checks)
    decreases |checks|
  {
    if checks != [] {
      RecentFrameStaysOnline(t, checks[1..]);
    }
  }

  /** One check more than 2000 ms after the last frame takes the camera offline. */
  lemma LateCheckGoesOffline(online: bool, t: int, now: int)
    requires now - t > CAMERA_TIMEOUT_MS
    ensures !OnlineAfter(online, Some(t), [Check(now)])
  {
  }
}
