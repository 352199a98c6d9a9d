# Smart Sock: sensor store, Arduino link and sensor views

Smart Sock reads a pressure-sensing sock through an Arduino. The Arduino has 30
channels, 15 per foot. A Flask server owns the link:

- It keeps a store `sensor_data` of 30 readings under the keys `sensor_1` .. `sensor_30`.
- It keeps a status record `arduino_status` with `connected`, `message` and `port`.
- It starts a reader thread on `POST /api/connect`. The thread opens the serial
  port, decodes one JSON object per line, merges it into the store and broadcasts
  `sensor_update` and `arduino_status` over Socket.IO.
- `POST /api/disconnect` stops the link.

A React client draws the store in two ways:

- a grid of buttons, sorted by channel number and coloured by a three-threshold band;
- a diagram of both feet, with each channel at a fixed position and coloured on a
  green-to-red scale.

The project has four modules:

- `Sensors` (`sensors.dfy`): the key format `sensor_<decimal>`, its parse, and the
  key ranges. It also holds the client's lookup in which a missing reading counts as 0.
- `ArduinoServer` (`server.dfy`): the server as a class `Server`.
  - The class holds the store, the status, `stop_thread` and whether the global port is open.
  - It also holds the map of reader threads still alive and a ghost log of broadcast events.
  - The reader thread's body is split into atomic steps. They interleave with
    the atomic `Connect` and `Disconnect` handlers.
  - The three scenario methods build a server and drive it through the
    interleavings that matter: an open failure, the disconnect/`finally` race,
    and a stale reader surviving a join that timed out.
- `SensorButtons` (`sensor_buttons.dfy`): the colour bands, the text colour, the
  numeric key sort and the button for a key.
- `FootDiagram` (`foot_diagram.dfy`): the two position maps and the clamp and
  branch of the colour scale.

## Model

| member | source | states |
|---|---|---|
| Sensors.Decimal | flask-server/server.py:17 | channel text as an f-string prints it: at least one digit, all digits, one digit exactly below 10, no leading zero |
| Sensors.ParseDigits | client/src/components/SensorButtons.js:28-29 | `parseInt` on a string of decimal digits (no ensures; `ParseDecimal` is its round trip with `Decimal`) |
| Sensors.ParseDecimal | client/src/components/SensorButtons.js:28-29 | `parseInt` of the key's digits gives the channel number back (round trip) |
| Sensors.DecimalInjective | flask-server/server.py:17 | different channels print differently |
| Sensors.SensorKey | flask-server/server.py:17 | every key is `sensor_` followed by more text |
| Sensors.SensorKeyInjective | flask-server/server.py:17 | different channels get different keys |
| Sensors.KeyRange | flask-server/server.py:17 | the keys of channels lo..hi, as the comprehension builds them (specification helper, no ensures; `KeyRangeSize` and `KeyRangeSplit` state its facts) |
| Sensors.AllSensorKeys | flask-server/server.py:16-18 | the store's key set `sensor_1` .. `sensor_30` (specification helper, no ensures; used by `Server.Valid` and `InitialSensorData`) |
| Sensors.KeyRangeSize | flask-server/server.py:16-18 | channels lo..hi give exactly hi+1-lo distinct keys |
| Sensors.KeyRangeSplit | client/src/components/FootDiagram.js:9-45 | cutting a channel range in two gives disjoint key sets whose union is the whole range |
| Sensors.Suffix | client/src/components/SensorButtons.js:28 | a key that yields a number starts with `sensor_` |
| Sensors.SuffixOfSensorKey | client/src/components/SensorButtons.js:28-29 | the comparator's number for `sensor_i` is `i` |
| Sensors.SuffixInRange | client/src/components/SensorButtons.js:28-29 | every key of a channel range parses to a number inside it |
| Sensors.ValueOr0 | client/src/components/SensorButtons.js:33 | the stored reading when the key is present, 0 when it is missing |
| ArduinoServer.InitialSensorData | flask-server/server.py:16-18 | the initial store has exactly the 30 sensor keys, each at 0 |
| ArduinoServer.InitialKeys | flask-server/server.py:16-18 | `sensor_i` is in the initial store if and only if 1 <= i <= 30 |
| ArduinoServer.Merged | flask-server/server.py:74-76 | merge keeps the key set; known keys in the record take its value; keys absent from the record keep theirs; unknown keys are ignored |
| ArduinoServer.MergeIgnoresUnknownKeys | flask-server/server.py:74-76 | dropping the record's unknown keys does not change the result |
| ArduinoServer.MergeIdempotent | flask-server/server.py:74-76 | merging the same record twice equals merging it once |
| ArduinoServer.MergeSequence | flask-server/server.py:74-76 | two merges in a row equal one merge of both records, the later record winning |
| ArduinoServer.MergeHasNoRangeCheck | flask-server/server.py:76 | a reading of 150 is stored unchanged: no [0,100] bound |
| ArduinoServer.PortGiven | flask-server/server.py:121-123 | what `if not port` lets through: a `port` that is present and not empty (no ensures; used by `Server.Connect`'s contract) |
| ArduinoServer.Effective | flask-server/server.py:65 | on a closed port a pass of the loop always fails; on an open port it has the line's outcome |
| ArduinoServer.Server.constructor | flask-server/server.py:15-30 | store of 30 zeros, status "Arduino not connected" with empty port, stop flag down, no port, no reader |
| ArduinoServer.Server.Disconnect | flask-server/server.py:136-160 | stop flag up and port closed; status `{false, "Disconnected", ""}` broadcast; reply success; store and readers unchanged |
| ArduinoServer.Server.Connect | flask-server/server.py:115-134 | missing or empty port: 400, no state change. Otherwise: disconnect, stop flag down, exactly one new reader, success reply |
| ArduinoServer.Server.ReaderOpenOk | flask-server/server.py:48-57 | port open; status connected with "Connected to Arduino on p" and port p, broadcast; the reader enters its loop |
| ArduinoServer.Server.ReaderOpenFail | flask-server/server.py:89-96 | status not connected with "Arduino not connected: e" and the port, broadcast; the reader goes to `finally` |
| ArduinoServer.Server.MergeRecord | flask-server/server.py:74-76 | the loop over the record leaves the store equal to `Merged(old store, record)`; nothing else changes |
| ArduinoServer.Server.ReaderLine | flask-server/server.py:63-87 | runs only with the stop flag down. A decoded object is merged and the store broadcast; a non-JSON line changes nothing; any other failure ends the loop |
| ArduinoServer.Server.ReaderStop | flask-server/server.py:63 | with the stop flag up the loop ends and nothing else changes |
| ArduinoServer.Server.ReaderExit | flask-server/server.py:100-108 | port closed; `connected` false and message "Arduino disconnected" with the port kept, broadcast; the thread ends |
| ArduinoServer.Server.HandleConnect | flask-server/server.py:177-182 | a new observer is sent the current store (all 30 keys), then the current status |
| ArduinoServer.DisconnectTwice | flask-server/server.py:141-160 | two disconnects give the same reply and the same status |
| ArduinoServer.OpenFailure | flask-server/server.py:89-108 | the open error is broadcast, then `finally` overwrites the message, so the kept status no longer says why |
| ArduinoServer.DisconnectRace | flask-server/server.py:100-158 | reader ends first: kept status is "Disconnected". Reader ends after: "Arduino disconnected" with an empty port |
| ArduinoServer.StaleReader | flask-server/server.py:127-132 | an old reader that outlives the join closes the shared port and reports not connected while the new reader is still reading |
| SensorButtons.SensorColour | client/src/components/SensorButtons.js:7-12 | white if and only if 0; green if and only if nonzero and <= 30, negatives included; yellow if and only if 31..70; red if and only if above 70 |
| SensorButtons.TextColour | client/src/components/SensorButtons.js:15-20 | black if and only if 0 or 31..70; white otherwise |
| SensorButtons.ColourPairs | client/src/components/SensorButtons.js:7-20 | background and text come only as white/black, green/white, yellow/black, red/white |
| SensorButtons.BandsAreMonotone | client/src/components/SensorButtons.js:9-11 | a larger positive reading never has a lower band |
| SensorButtons.KeyNumber | client/src/components/SensorButtons.js:28-29 | the number the comparator compares: for a `sensor_<digits>` key, the channel number that `Suffix` parses |
| SensorButtons.InsertBy | client/src/components/SensorButtons.js:27-31 | insertion adds exactly one copy of the element |
| SensorButtons.InsertKeepsOrder | client/src/components/SensorButtons.js:27-31 | inserting into a sorted sequence keeps it sorted |
| SensorButtons.SortBy | client/src/components/SensorButtons.js:27-31 | result is a permutation of the input and ascending by number |
| SensorButtons.SortKeys | client/src/components/SensorButtons.js:26-31 | the keys as a permutation, same length, ascending by numeric suffix |
| SensorButtons.SortedArrangementUnique | client/src/components/SensorButtons.js:27-31 | with distinct numbers there is only one sorted arrangement, so the order is fully determined |
| SensorButtons.KeySeq | flask-server/server.py:16-18 | `sensor_lo` .. `sensor_hi`, one per channel, in channel order |
| SensorButtons.KeySeqSorted | client/src/components/SensorButtons.js:27-31 | that sequence is well formed, ascending and with distinct numbers |
| SensorButtons.ServerKeysSorted | client/src/components/SensorButtons.js:26-31 | any arrangement of the server's 30 keys sorts to `sensor_1` .. `sensor_30` (`sensor_2` before `sensor_10`) |
| SensorButtons.ButtonFor | client/src/components/SensorButtons.js:33-49 | value is the reading or 0; background is `SensorColour` and text `TextColour` of that value; caption is the key without `sensor_`; border `#ccc` if and only if white, otherwise the background |
| SensorButtons.MissingReadingIsWhite | client/src/components/SensorButtons.js:33 | a missing reading shows 0 on white with black text and a `#ccc` border |
| SensorButtons.Buttons | client/src/components/SensorButtons.js:26-52 | one button per key, in sorted key order |
| SensorButtons.ServerGridLabels | client/src/components/SensorButtons.js:32-48 | for the server's keys, button i is captioned `i+1` (rendered after the literal `Sensor `, which is not modelled) and shows that channel's reading |
| FootDiagram.LeftFootSensorPositions | client/src/components/FootDiagram.js:9-25 | the left map, transcribed key by key with its `top`/`left` percentages (a constant; its key set is stated by `LeftFootKeys`) |
| FootDiagram.RightFootSensorPositions | client/src/components/FootDiagram.js:29-45 | the right map, transcribed key by key with its `top`/`left` percentages (a constant; its key set is stated by `RightFootKeys`) |
| FootDiagram.LeftKeyTexts | client/src/components/FootDiagram.js:10-24 | keys of channels 1..15 spelled as in the left map |
| FootDiagram.RightKeyTextsLow | client/src/components/FootDiagram.js:30-36 | keys of channels 16..22 spelled as in the right map |
| FootDiagram.RightKeyTextsHigh | client/src/components/FootDiagram.js:37-44 | keys of channels 23..30 spelled as in the right map |
| FootDiagram.LeftFootKeys | client/src/components/FootDiagram.js:9-25 | the left map's keys are exactly `sensor_1` .. `sensor_15` |
| FootDiagram.RightFootKeys | client/src/components/FootDiagram.js:29-45 | the right map's keys are exactly `sensor_16` .. `sensor_30` |
| FootDiagram.FeetPartitionSensors | client/src/components/FootDiagram.js:9-45 | the two maps are disjoint and together hold the server's 30 keys |
| FootDiagram.FifteenPerFoot | client/src/components/FootDiagram.js:9-45 | each foot holds 15 sensors |
| FootDiagram.Clamp | client/src/components/FootDiagram.js:49 | result in [0,100]; identity inside it, 100 above it, 0 below it |
| FootDiagram.ColourIntensity | client/src/components/FootDiagram.js:48-67 | blue 0; red and green in [0,255]; clamped value below 50 gives green 255; 50 or more gives red 255 |
| FootDiagram.ClampedColours | client/src/components/FootDiagram.js:49 | above 100 colours like 100; below 0 colours like 0 |
| FootDiagram.ColourEndpoints | client/src/components/FootDiagram.js:54-64 | 0 is rgb(0,255,0) and 100 is rgb(255,0,0) |
| FootDiagram.ColourMonotone | client/src/components/FootDiagram.js:54-64 | a larger reading is never less red and never more green |
| FootDiagram.PointColour | client/src/components/FootDiagram.js:88 | a missing reading is drawn as 0, pure green; otherwise its colour |
| FootDiagram.FootColours | client/src/components/FootDiagram.js:81-94 | one colour per position key, each the `PointColour` of that key's reading; blue always 0; a key with no reading is pure green |
| FootDiagram.DiagramCoversStore | client/src/components/FootDiagram.js:99-117 | the two rendered feet draw each of the server's 30 sensors exactly once |

## Left out

- Serial I/O: the baud rate, timeouts, the warm-up and polling sleeps, and byte decoding are not modelled.
  - A pass of the read loop takes an already-classified `LineOutcome`.
  - Port enumeration and `GET /api/ports` (flask-server/server.py:32-40, 110-113) are device queries.
- Threads are not modelled as concurrent code, and neither is `join(timeout=1.0)`.
  - The reader is a set of atomic steps that a caller may interleave with the handlers.
  - A reader that ends inside the join window is modelled by scheduling its steps before `Disconnect`.
  - Timing is not modelled.
- ArduinoServer.Server.ReaderLine: the loop test and the line read are one atomic step. A disconnect that lands between them is modelled as landing before the test, so the reader takes `ReaderStop`; the source would instead fail the read on the closed port, and both paths leave the reader in the same state (loop left, store unchanged, `finally` next).
- Flask routes `/api/sensors`, `/api/status` and `/` are not modelled, and neither are CORS, static files, JSON encoding or the Socket.IO transport.
  - Broadcasts go into a ghost event log.
  - What `HandleConnect` sends to one observer is its result. It is not part of the log.
- ArduinoServer.Server.Connect: only a JSON object body is modelled, with `port` absent, empty or a string. A JSON `null` or list body makes `data.get` raise inside the handler (a 500), and a missing or non-JSON body is refused by Flask with a code that depends on its version; a `port` that is not a string is not modelled.
- Readings are integers. JSON floats, strings, `null` and nested values that the server would copy as they are are not modelled, and neither are the client's falsy-to-0 cases other than a missing key.
- FootDiagram.ColourIntensity: uses exact arithmetic, `floor(51c/10)` and `floor(51(100-c)/10)`, for the gradient. The client computes it in double precision, which gives one less green at readings 80 and 90 (101 and 50 instead of 102 and 51). Only the branch, clamp, bounds, endpoint and monotonicity facts are claimed for the client's values.
- The glow (`boxShadow`) sizes, the foot images and the headings are not modelled.
  - The headings are swapped: the right map is drawn under "Left Foot" (client/src/components/FootDiagram.js:102-117).
- SensorButtons.SortKeys: requires keys of the form `sensor_<digits>`. Other keys are left out: `parseInt` would read a leading number from them (`sensor_12abc` gives 12, `sensor_-3` gives -3) or give NaN, but the client only ever holds the server's keys `sensor_1` .. `sensor_30` (client/src/App.js:84-88, 107, 121). Whether the sort is stable is not stated; for those keys it does not matter, because their numbers are distinct.
- `client/src/App.js` and `client/src/components/SensorSliders.js` are user interface outside this model: React state, fetch calls, sliders.
- No posture classifier, smoothing, simulated source or `mode` status field exists in the server code, so none is modelled.
  - The status record has only `connected`, `message` and `port` (flask-server/server.py:21-25).
  - Readings are not bounded to [0,100] anywhere on the server (see `MergeHasNoRangeCheck`).
