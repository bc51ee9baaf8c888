# Plate-recognition gate: a Dafny model

This project models the server side of a licence-plate gate and the dashboard that displays it.

On the server, the `/detect` endpoint works in five steps:

1. It admits at most one request at a time and answers any other request "busy".
2. It validates the uploaded frame.
3. It takes the least-used active API key from the `dbo."APIKeyManagement"` table and increments that key's usage.
4. It makes one call to a vision model.
5. It turns the model's free-text reply into a detection record, scales the box to pixels and answers.

There are two copies of this pipeline:
- `index.js` is the working copy.
- `controller.js` has a defective key read, so every validated frame there ends in a 500.

A third handler, in `controller2.js`, keeps a `gateState` record. It changes that record according to detected vehicles, detected plates and the clock, and publishes it on the `gate-update` channel.

The dashboard (`public/js/dashboard.js`) consumes that channel. It:
- shows NO VEHICLE, NOT REGISTERED or REGISTERED;
- keeps a single 15-second reset timer;
- chooses a vehicle image;
- tracks whether the camera is online;
- formats the axis labels of its charts.

## Files

- `wrappers.dfy`: the `Option` and `Result` types.
- `text.dfy`: the JavaScript string built-ins the code relies on, each with the properties used later. These are `trim`, `indexOf`, `lastIndexOf`, `includes`, global `replace` by `""`, ASCII case mapping, and decimal rendering of naturals.
- `jsvalues.dfy`: JavaScript numbers, including NaN and the infinities, together with `Math.min`/`Math.max`, the arithmetic of the pixel box, parsed JSON values, and `??`, `||`, `Number()` and `String()`.
- `plate_ocr.dfy`: the normaliser `groqPlateDetect`.
- `api_keys.dfy`: the rotator `getNextApiKeyFromDb`, in both versions.
- `detect.dfy`: the `/detect` handler of `index.js` and `detectHandler` of `controller.js`.
- `gate.dfy`: the gate state machine of `controller2.js`.
- `dashboard.dfy`: the dashboard.
- `gate_protocol.dfy`: lemmas over both ends of the `gate-update` channel.

## Modelling choices

- **Numbers.** JavaScript numbers are `Num = Fin(real) | PosInf | NegInf | NaN`. Arithmetic on them is exact rational arithmetic plus NaN and infinity propagation. Because of this, NaN coordinates pass through `clamp01` unrepaired, exactly as in the code. The bounds on the repaired box are proved for inputs that are not NaN.
- **Parsing and coercion.** `JSON.parse` is an oracle `parse: string -> Option<JsObject>`, where `None` means it threw. The string-to-number and number-to-string conversions of the runtime are the oracle record `JsRuntime`.
- **The vision-model call.** Its outcome is the input `Reply`: either the message content, or the error it threw. That error has an optional status and a message, which is a string or a value with no `includes` method.
- **The key table.** It is an in-memory `seq<KeyRow>` in the class `KeyTable`. The whole transaction is one atomic method.
- **The detect handlers.** They are classes holding the in-flight counter. An `IndexServer` also owns its key table and a ghost log of the keys each vision-model call used.
- **Gate state and publishing.** `gateState` is a field of `GateController`. `pusher.trigger` appends the payload to the ghost log `published`.
- **Time.** `Date.now()` is a parameter `now`. The browser's timer table is a `map` from handles to deadlines, and a firing timer is a method call.
- **Dashboard inputs.** The `gate-update` payload is a record in which a field that is missing and a field that is null are both `None`.

## What the code does not do

The model follows the code, which has none of the following:
- a retry loop that rotates keys between attempts;
- a presence-sensor endpoint;
- a frame relay with a latest-frame store;
- a "detection in progress" flag;
- a path on which the `controller2.js` state machine reaches its registered state.

In the code, each request makes at most one key acquisition, and only once the frame passes validation. It makes at most one vision-model call.

## Model

| member | source | states |
|---|---|---|
| Text.TrimMeaning | index.js:201 | `trim` removes exactly the leading and trailing whitespace: the result is a slice of the input with only whitespace around it, it neither starts nor ends with whitespace, and it is empty iff the input is all whitespace |
| Text.TrimIsIdempotent | controller.js:169 | trimming twice is trimming once |
| Text.TrimKeepsUnpadded | controller.js:188 | a string with no outer whitespace is its own trim |
| Text.IndexOf | index.js:207 | -1 iff the character is absent; otherwise the position of its first occurrence |
| Text.LastIndexOf | index.js:208 | -1 iff the character is absent; otherwise the position of its last occurrence |
| Text.Contains | public/js/dashboard.js:555-563 | `includes` holds iff the pattern occurs at some position |
| Text.Remove | controller2.js:75 | no removed character remains, and every other character of the input remains |
| Text.RemoveAppend | controller2.js:75 | removal distributes over concatenation |
| Text.RemoveIsIdempotent | controller2.js:75 | removing the same characters twice is removing them once |
| Text.RemoveKeeps | controller2.js:75 | removing characters that do not occur changes nothing |
| Text.RemoveAgrees | controller2.js:82 | two removals agree on a string whose characters they judge alike |
| Text.NatToString | public/js/dashboard.js:15 | a template literal renders a natural number as decimal digits without a leading zero |
| Text.NatToStringRoundTrip | public/js/dashboard.js:15 | reading the digits back gives the number |
| Text.NatToStringInjective | public/js/dashboard.js:15 | different numbers render differently |
| Text.Lower | controller2.js:75 | `toLowerCase` on ASCII: the same length, no upper-case ASCII letter in the result, and every character that is not an upper-case ASCII letter kept in place |
| Text.Upper | index.js:395 | `toUpperCase` on ASCII: the same length, no lower-case ASCII letter in the result, and every character that is not a lower-case ASCII letter kept in place |
| JsValues.Clamp01 | index.js:232 | NaN iff the input is NaN; otherwise a number in [0, 1], unchanged when already there, 0 below zero and for -Infinity, 1 above one and for +Infinity |
| JsValues.Mul | index.js:416-419 | the product of two numbers; NaN propagates |
| JsValues.Sub | index.js:421-422 | the difference of two numbers; NaN propagates |
| JsValues.Add | index.js:423-424 | the sum of two numbers; NaN propagates |
| JsValues.Half | index.js:423-424 | `width / 2`; NaN propagates |
| JsValues.Coalesce | index.js:225-230 | `??` yields the default exactly for a missing or null value |
| JsValues.OrElse | index.js:224 | `\|\|` yields the default exactly for a missing or falsy value |
| JsValues.ToNumber | index.js:225-230 | `Number(v)`: a number passes through unchanged, null and false give 0, a plain object gives NaN; strings and arrays go through the runtime's conversion |
| JsValues.ToJsString | index.js:224 | `String(v)`: a string passes through unchanged and null gives "null"; numbers go through the runtime's conversion |
| PlateOcr.PartsTextAppend | controller.js:130-137 | joining the text parts of two lists is joining each and concatenating |
| PlateOcr.PartsTextSkipsOthers | controller.js:131-134 | parts that are not text parts contribute nothing |
| PlateOcr.JoinText | controller.js:127-140 | the accumulating loop yields the text of the in-order text parts of an array, or the string content, or "" |
| PlateOcr.ExtractObject | controller.js:147-154 | a result iff both braces exist and the last `}` is after the first `{`; then exactly the span between them, starting with `{`, ending with `}`, at least 2 long, with no `{` before and no `}` after |
| PlateOcr.ExtractEmbeddedObject | index.js:207-214 | an object surrounded by text with no `{` before and no `}` after is extracted exactly |
| PlateOcr.RepairBox | controller.js:177-185 | each output pair is the clamped input pair, possibly swapped; for non-NaN inputs, 0 <= nx1 <= nx2 <= 1 and 0 <= ny1 <= ny2 <= 1 |
| PlateOcr.Ordered | index.js:240-241 | one swap: the pair keeps its two values, and finite values come out in ascending order |
| PlateOcr.RepairKeepsWellFormed | index.js:232-241 | a well-formed box is left unchanged |
| PlateOcr.RepairIsIdempotent | index.js:232-241 | repairing a repaired box changes nothing, for every input including NaN |
| PlateOcr.RepairAxisIsIdempotent | index.js:232-241 | the same for one coordinate pair: clamping and ordering a clamped, ordered pair changes nothing |
| PlateOcr.Coerce | controller.js:169-194 | the plate is non-empty and trimmed: "UNKNOWN" when the trimmed text is empty or missing, otherwise the trimmed text. The confidence is never NaN: 0 when missing or NaN, otherwise the number. The box is the repaired box of the coordinates, which default to 0 |
| PlateOcr.Normalise | index.js:185-268 | the promise rejects iff the call threw an error that is not status 429 and whose message is not a string, because `message.includes` then throws in the catch block. It resolves to a detection iff the call completed, the trimmed text is non-empty, and an object span exists and parses; the detection is then the coercion of the parsed object. Every other thrown error resolves to null |
| PlateOcr.Classify | index.js:251-258 | a failure is a rate limit iff the status is 429 or the message is a string containing `rate_limit_exceeded` or `Rate limit reached`. The catch block itself throws iff the status is not 429 and the message is not a string |
| PlateOcr.PlateDetect | index.js:146-268 | the step-by-step normaliser computes `Normalise`, its rejection included |
| PlateOcr.SliceObject | index.js:207-214 | the brace search and slice computes `ExtractObject` |
| PlateOcr.CoercedPlate | controller.js:169-188 | the coerced plate is never empty and never padded; "UNKNOWN" when the trimmed text is empty or the field is missing |
| PlateOcr.CoercedConfidence | controller.js:170-189 | the coerced confidence is never NaN; 0 when the field is missing or not a number |
| PlateOcr.CoerceFields | index.js:224-250 | the field coercion with clamping and swapping in place computes `Coerce` |
| ApiKeys.StrLessIrreflexive | index.js:97 | no e-mail orders before itself |
| ApiKeys.StrLessTransitive | index.js:97 | the e-mail order is transitive |
| ApiKeys.RanksBeforeStrict | index.js:97 | `ORDER BY "Usage" ASC NULLS FIRST, "Email" ASC` is a strict order |
| ApiKeys.SelectLeastUsed | index.js:92-101 | -1 iff no row is active; otherwise an active row that no active row ranks before (smallest usage, null first, ties by smallest e-mail) |
| ApiKeys.Bumped | index.js:110-117 | every row matching the e-mail and key gets `COALESCE(Usage,0)+1` and every other row is unchanged |
| ApiKeys.BumpedTotal | index.js:113 | the update raises the total usage, null counted as 0, by the number of rows it touches |
| ApiKeys.DistinctKeysMatchOnce | index.js:114 | with distinct (Email, APIKey) pairs the update touches exactly the selected row |
| ApiKeys.AcquisitionAddsOne | index.js:110-119 | when no two rows share (Email, APIKey), a successful acquisition raises the total usage by exactly 1. With duplicate pairs, `BumpedTotal` gives the rise: the number of rows matched |
| ApiKeys.KeyTable.constructor | index.js:86-133 | the table holds exactly the given rows before any acquisition |
| ApiKeys.KeyTable.AcquireNext | index.js:86-133 | with no active row: the error, and the table unchanged. Otherwise the least-used active row, returned as read before the increment, and the table is the update of the old table |
| ApiKeys.KeyTable.AcquireNextAsInController | controller.js:32-78 | never succeeds: the no-active-keys error, or the TypeError of `selectRes[0].Email`; no row changes |
| Detect.Check | controller.js:236-264 | the four checks in order, the first failing one deciding: missing file, mimetype not `image/...`, size > 4 MiB, zero width or height. A throwing dimension decoder is a 500, not a 400 |
| Detect.PixelBoxOf | index.js:416-440 | the normalised coordinates are carried unchanged, each pixel coordinate is its normalised coordinate times its image side (NaN and the infinities included), and width and height are the differences. `PixelBoxInsideImage` and `PixelBoxExample` state its bounds and a worked case |
| Detect.IsUnknownPlate | index.js:395 | only a plate of the length of "UNKNOWN" whose every letter is that of "UNKNOWN" in either case qualifies; `UnknownGivesNoDetection` states the effect on the response |
| Detect.ScaledAxis | index.js:416-429 | one axis of a unit span scaled by a side w > 0: both ends are finite, with 0 <= x1 <= x2 <= w. The length is the difference, and the midpoint lies between the ends |
| Detect.PixelBoxInsideImage | index.js:416-429 | for a well-formed normalised box and w, h > 0: 0 <= x1 <= x2 <= w, 0 <= y1 <= y2 <= h, width and height are the differences, and the centre lies within the box |
| Detect.PixelBoxExample | index.js:416-440 | 800x600 with (0.1, 0.2, 0.3, 0.4) gives (80, 120, 240, 240), width 160, height 120, centre (160, 180) |
| Detect.ReportedConfidence | index.js:444-445 | `ocr_conf \|\| 1.0`: the confidence when truthy, otherwise 1.0 |
| Detect.DetectionResponse | index.js:392-458 | the real dimensions are always reported. There are no detections iff the result is absent, its plate is empty, or its plate is UNKNOWN in upper case. Otherwise there is exactly one detection, marked focus, with the trimmed plate as `focus_plate`, the reported confidence, and the pixel box |
| Detect.UnknownGivesNoDetection | index.js:392-405 | UNKNOWN in any letter case gives `focus_plate: null` and no detections |
| Detect.ScenarioPlateFound | index.js:407-458 | ABC1234 at (0.1, 0.2, 0.3, 0.4) with confidence 0.9 on 800x600 gives one focus detection with confidence 0.9 |
| Detect.IndexServer.Admit | index.js:337-349 | admitted iff fewer than one request is in flight; the counter rises by one exactly when admitted |
| Detect.IndexServer.Release | index.js:462-464 | the `finally` lowers the counter by one |
| Detect.IndexServer.constructor | index.js:38 | `inFlightDetections` starts at 0, with the given key table and no call made |
| Detect.IndexServer.Serve | index.js:351-461 | a validation failure gives its 400 with no key taken and no call made. A throwing decoder gives 500. No active key gives 500 "No active API key available" and no call. Otherwise exactly one least-used key is taken and bumped, exactly one call is made with it, and the response is built from the normalised reply. A rejected normaliser gives 500 "Internal server error", after the key was taken and the call made |
| Detect.IndexServer.Detect | index.js:336-465 | at capacity the response is busy and nothing changes; otherwise as `Serve`. The counter is the same afterwards on every path |
| Detect.ControllerServer.constructor | controller.js:16 | `inFlightDetections` starts at 0 |
| Detect.ControllerServer.Detect | controller.js:219-357 | busy at capacity. Otherwise the checks' 400s with `{success: false, message}`, a 500 for a throwing decoder, and a 500 "No active API key available" for every frame that passes. No path yields a detection, and the counter is restored on every path |
| Gate.OcrKeys | controller2.js:75 | one key per plate: the normalised OCR text, or none when the plate has no text |
| Gate.OcrPlateKey | controller2.js:75 | the OCR key is no longer than the text. `OcrPlateKeyIsClean`, `OcrPlateKeyIsIdempotent` and `OcrPlateKeyExamples` state its content |
| Gate.RegistryPlateKey | controller2.js:82 | the key of a registered plate is no longer than the plate and holds no `' '` and no `-` |
| Gate.MatchingVehicles | controller2.js:76-85 | a vehicle is returned iff it is active and its registry key equals one of the OCR keys |
| Gate.Transition | controller2.js:29-119 | without plates: `vehicleFound` iff vehicles were seen, no plate, driver or vehicle, `lastUpdate` dropped (no vehicles) or kept. With plates: the state never changes, and the call succeeds iff more than 5000 ms passed since `lastUpdate \|\| 0`. A success publishes exactly the returned state; a 500 publishes nothing |
| Gate.GateController.constructor | controller2.js:11-17 | the initial `gateState`: no vehicle, no plate, driver or vehicle, a null `lastUpdate`, and nothing published |
| Gate.GateController.Detect | controller2.js:29-119 | the new state, the response and the one appended publication (or none) are those of `Transition` |
| Gate.RunStaysUnidentified | controller2.js:87-106 | from a state with no plate, driver, vehicle or time stamp, any sequence of calls keeps it so |
| Gate.PlatesAfterDwellRepublish | controller2.js:64-72 | from the initial state, after any calls, once the clock is past 5000 a call with plates republishes the state unchanged |
| Gate.OcrPlateKeyIsClean | controller2.js:75 | the OCR key has no whitespace, no `-` and no upper-case letter |
| Gate.OcrPlateKeyIsIdempotent | controller2.js:75 | normalising an OCR key again gives the same key |
| Gate.OcrPlateKeyExamples | controller2.js:75 | "NBC 1234", "NBC-1234" and "nbc1234" all give "nbc1234" |
| Gate.KeysAgreeOnBlankSpacing | controller2.js:82 | when the only whitespace of a plate is `' '`, the registry key and the OCR key coincide |
| Gate.TabbedPlateNeverMatches | controller2.js:75-82 | a registered plate containing a tab matches no OCR reading at all: its registry key keeps the tab, and no OCR key holds whitespace |
| Gate.TabbedPlateExample | controller2.js:75-82 | "NBC\t1234" has the registry key "nbc\t1234" but the OCR key "nbc1234" |
| Dashboard.LabelFormatter | public/js/dashboard.js:12-36 | `range` labels; the last one is the current period, and label i is the one for `range-1-i` units back |
| Dashboard.LabelsAreDistinct | public/js/dashboard.js:12-36 | no two labels of one axis coincide |
| Dashboard.LongerRangeExtendsLabels | public/js/dashboard.js:13-15 | the labels of a longer range end with those of a shorter one |
| Dashboard.HourLabelsExample | public/js/dashboard.js:12-16 | the initial 6-hour axis is -5h, -4h, -3h, -2h, -1h, Now |
| Dashboard.RangeSelector.constructor | public/js/dashboard.js:54-55 | the initial resolution is hour and the initial range 6 |
| Dashboard.RangeSelector.UpdateRangeSelect | public/js/dashboard.js:113-125 | the range becomes the first option of the resolution |
| Dashboard.RangeSelector.ChipClicked | public/js/dashboard.js:233-247 | a chip without a resolution, or one for the current resolution, changes nothing; any other sets the resolution and resets the range to its first option |
| Dashboard.RangeSelector.RangeChanged | public/js/dashboard.js:249-252 | the new range is the selected number, or the old range when that number is 0 or NaN |
| Dashboard.FirstRangeOffered | public/js/dashboard.js:124 | the range after a resolution change is one of the offered options |
| Dashboard.ChosenRangeOffered | public/js/dashboard.js:250 | choosing an offered option, or an empty value, keeps the range offered |
| Dashboard.FirstMatchingImage | public/js/dashboard.js:554-567 | the image of the first rule whose word the type contains, and the car when none does |
| Dashboard.VehicleImage | public/js/dashboard.js:554-567 | the image is the car or one of the five rule images; `NoTopLevelTypeShowsCar` states the case without a type |
| Dashboard.NoTopLevelTypeShowsCar | public/js/dashboard.js:554 | without a top-level `type`, the image is the car whatever `vehicle.type` says |
| Dashboard.Shown | public/js/dashboard.js:511-569 | REGISTERED iff a vehicle is found with driver, vehicle and a truthy plate. NOT REGISTERED iff a vehicle is found and driver or vehicle is missing; that state shows the car with the info fields as they were. NO VEHICLE otherwise, and it is exactly the reset display. REGISTERED fills the five fields and chooses the image |
| Dashboard.TimerEffectOf | public/js/dashboard.js:515-573 | the reset timer is cancelled iff no vehicle is found. It is kept iff NO VEHICLE is shown for a found vehicle, and re-armed iff NOT REGISTERED or REGISTERED is shown |
| Dashboard.GatePanel.constructor | public/js/dashboard.js:486-509 | no timer pending, and the reset display shown |
| Dashboard.GatePanel.Reset | public/js/dashboard.js:488-496 | the display becomes the reset display: no band, NO VEHICLE, no image and every field `---` |
| Dashboard.GatePanel.ScheduleReset | public/js/dashboard.js:499-507 | the old timer is cleared and exactly one new 15000 ms timer is pending, held in the slot |
| Dashboard.GatePanel.OnGateUpdate | public/js/dashboard.js:511-574 | the display becomes `Shown`. The timer is cancelled (slot null, none pending), re-armed (one new timer) or untouched, as `TimerEffectOf` says, and at most one timer stays pending |
| Dashboard.GatePanel.OnResetTimer | public/js/dashboard.js:503-506 | the firing timer resets the display and frees the slot |
| Dashboard.AtMostOneResetPending | public/js/dashboard.js:498-507 | under the panel invariant at most one timer is pending, and it is the slot's |
| Dashboard.Camera.constructor | public/js/dashboard.js:593-610 | offline, showing the no-video placeholder, and no frame seen |
| Dashboard.Camera.OnFrame | public/js/dashboard.js:613-624 | online, the frame time recorded, and the preview requested for `stream_id \|\| "mobile-1"` and `ts \|\| now` |
| Dashboard.Camera.OnInterval | public/js/dashboard.js:595-634 | offline exactly when a frame was seen and more than 2000 ms have passed since it. The placeholder is then shown, unless the preview already names `no-video.png`, which keeps the preview as it is. Otherwise nothing changes |
| Dashboard.RunCamera | public/js/dashboard.js:610-634 | a `Camera` driven through `OnFrame` and `OnInterval` by a sequence of frames and checks ends online exactly as the fold `OnlineAfter` says; the three lemmas below are stated of that fold |
| Dashboard.NeverFramedCamera | public/js/dashboard.js:610-634 | a new `Camera` that only ever sees checks stays offline |
| Dashboard.NoFrameStaysOffline | public/js/dashboard.js:610-634 | a camera that never got a frame stays offline whatever the checks |
| Dashboard.RecentFrameStaysOnline | public/js/dashboard.js:627-634 | checks within 2000 ms of the last frame leave the camera online |
| Dashboard.LateCheckGoesOffline | public/js/dashboard.js:630-633 | a check more than 2000 ms after the last frame takes the camera offline |
| GateProtocol.ToPayload | controller2.js:43 | the published record carries the state's flag and plate and has no top-level `type` |
| GateProtocol.PublishedNeverRegistered | controller2.js:29-119 | every payload the server can publish shows NOT REGISTERED when a vehicle is found and NO VEHICLE otherwise, never REGISTERED |
| GateProtocol.PublishedTimerEffect | public/js/dashboard.js:515-534 | every such payload re-arms the dashboard's reset timer when a vehicle is found and cancels it otherwise |

## Left out

- The vision-model request is not modelled: the prompt, the model name and the base64 data URL. Its outcome is an input value.
- The actual parser of `JSON.parse` is not modelled: it is an oracle.
- The image-dimension decoder `imageSize` is not modelled: its result is an input value.
- Postgres itself is not modelled: connections, `BEGIN`/`COMMIT`/`ROLLBACK`, `FOR UPDATE` row locks, failures of the database, and `client.release()`. Each acquisition is one atomic step on an in-memory table, so the rollback is simply "no change".
- Interleavings of concurrent requests are not modelled. The in-flight counter is modelled sequentially; `Detect.OverlappingRequests` shows a second request arriving while a first is suspended.
- ApiKeys.StrLess: the e-mail order is code-point order, not the collation of the Postgres database. Among rows equal in both usage and e-mail, the model takes the first, while Postgres may take any.
- PlateOcr.Classify: a thrown `message` that is an array, or an object with an `includes` method of its own, is not modelled. For such a message `includes` runs instead of throwing.
- Text.Lower and Text.Upper: only ASCII letters are mapped. This is exact for the comparison with "UNKNOWN" and for the plate keys of ASCII plates.
- Text.IsSpace is the ECMAScript whitespace and line-terminator set, as used by `trim` and by `\s`.
- Floating point is not modelled: numbers are exact reals plus NaN and the infinities. A product that overflows to infinity therefore does not arise.
- Detect.ControllerServer.Detect: everything after `controller.js:274` is unreachable and not modelled. That includes the `etections` key at `controller.js:345`.
- Gate.Transition: the registered branch at `controller2.js:96-106` is unreachable and not modelled, because the assignment to the undeclared `vehicleDetails` throws first. So are the undeclared `foundPlate` and `response` there.
- Gate.MatchingVehicles: duplicate rows that the cross join produces for repeated OCR keys are collapsed.
- Gate.MatchingVehicles: the SQL `LOWER` is modelled by the same ASCII lower-casing.
- Entries of `plates` that are null or undefined, and `ocr.text` values that are neither nullish nor strings, are not modelled. The code throws on them, which ends in the same 500. Entries that are numbers, strings or booleans, and a null `ocr.text`, give an undefined key without throwing. The model's plate without text, a `None` key, is exactly that case.
- Pusher is not modelled beyond the ghost log of published payloads.
- The Express and multer wiring, `routes.js`, the CRUD handlers of `controller.js` and the other browser scripts are not modelled.
- In `dashboard.js`, the chart and the mock traffic and activity data are not modelled. Neither is the text of the range options (`Last 6 hours`, ...), which is markup only.
- Dashboard.Shown: the 100 ms delay before the vehicle image is set is not modelled, and the five info fields are assumed present on the page. A field whose value is missing is shown empty.
- Dashboard.RangeSelector.ChipClicked: chips whose `data-resolution` names no configured resolution are not modelled.
- Dashboard.Camera.OnFrame: the preview URL is reduced to the stream id and the cache-busting stamp. The base URL of `getAIURL()` is left out.
- Dashboard.Camera.OnInterval: the `no-video.png` test on the frame URL is modelled through the stream id only. The base URL is assumed not to contain `no-video.png`, and the stamp is a number.
- ApiKeys.AcquisitionAddsOne: the key table is assumed to hold each (Email, APIKey) pair at most once. The code shown does not guarantee it; without it the UPDATE raises every matching row, as `ApiKeys.BumpedTotal` states.
