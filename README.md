# VIVOTEK PTZ smart-tracking client, modelled in Dafny

This project models the client that drives a VIVOTEK pan-tilt-zoom camera over
its HTTP control surface. It covers two parts:

- **The motion controller** (`PTZ_Camera_Controller`):
  - connecting, which reads the four pan/tilt limits and polls the position;
  - the parameter query and its `name=value&...` reply format;
  - vector moves, with the speed cap and the optional zoom;
  - absolute moves, checked against the limits;
  - the cached current position.
- **The smart-tracking client** (`SmartPTZ`):
  - the preset directory, read from the device and cached;
  - moving to home, to a preset by name, or to a preset by Python list index;
  - arming the device's smart tracking with five commands;
  - supervising the tracking by polling its status until the camera stops tracking;
  - stopping the tracking.

The camera is an oracle held by the `Controller` class:

- `script` holds the reply bodies the device will give, in order.
- `statuses` holds the tracking statuses it will report.
- The ghost field `trace` records every request the client sends and every pause it makes.

A request that finds no reply left fails as a transport error. This is how the
Python client raises when the device does not answer.

Python exceptions become `Result` values:

- `Transport`: no reply.
- `Protocol`: a reply of the wrong shape, i.e. a `ValueError`, `IndexError` or `KeyError` while parsing.
- `OutOfRange`: a rejected absolute move.
- `NotFound`: a preset index outside the directory.

The files:

- `channel.dfy`: the requests, events, statuses and errors, and the script oracle.
- `pytext.dfy`: the Python string operations the client relies on.
  - `split` and `join` on one character;
  - `strip`, `rstrip` and `lower`;
  - `replace(c, "")`;
  - `str(int)` and `int(str)`.
- `params.dfy`: the parameter query and its reply codec.
- `ptz_controller.dfy`: the `Controller` class, with imperative methods over its fields.
- `smart_tracking.dfy`: the `SmartPtz` class.
  - Each operation is specified by a function from a `Session` to a `Run`.
  - A `Session` is the cached names plus what the device will still answer.
  - A `Run` is the outcome, the events added and the session after.
  - Each method that runs a whole operation is proved to follow its function exactly; the single-request helpers are specified directly by the reply or status they consume.
- `directory_props.dfy`: lemmas about those functions for the preset directory.
- `tracking_props.dfy`: lemmas about those functions for arming and supervision.

Quirks kept as written:

- **Speed cap.** The vector-move speed is capped only from above, at 150.
- **Accepted range.** An absolute move accepts `range(min - 1, max + 1)`. That is one step below each lower limit, and nothing above an upper limit (`AcceptedTargets`).
- **When the directory is rebuilt.** It is rebuilt only when the cache is empty or shorter than the index. An index equal to the cache length therefore skips the rebuild and then fails (`IndexAtCacheLength`).
- **Order of the directory fetches.** The first name is read from a second fetch of the count query. Each later name is read from the slot *before* it. So slot `count - 1` is never fetched (`RebuildFetchOrder`).

## Model

| member | source | states |
|---|---|---|
| Channel.FetchesAppend | smart_tracking.py:126-130 | fetch counts and pause totals of consecutive event sequences add up |
| PyText.RStrip | ptz_controler.py:72 | `rstrip` keeps a prefix, removes only whitespace, and leaves no trailing whitespace |
| PyText.LStrip | ptz_controler.py:33 | `lstrip` keeps a suffix, removes only whitespace, and leaves no leading whitespace |
| PyText.Lower | ptz_controler.py:33 | `lower` keeps the length, lower-cases every ASCII capital, leaves no capital behind and keeps every other character |
| PyText.LowerUnchanged | ptz_controler.py:33-35 | `lower` leaves a text without capitals alone |
| PyText.Split | ptz_controler.py:72 | `split` yields at least one piece, no piece holds the separator, and the pieces join back to the text |
| PyText.Remove | smart_tracking.py:69 | `replace(c, "")` removes every `c` and keeps every other character as many times as it occurs; with `RemoveAppend`, in their order |
| PyText.RemoveAppend | smart_tracking.py:69 | removing a character distributes over concatenation |
| PyText.SplitWhole | smart_tracking.py:69 | a text without the separator splits into itself alone |
| PyText.SplitAfter | ptz_controler.py:77 | a first piece without the separator comes off whole |
| PyText.SplitFirst | smart_tracking.py:69 | a leading run without the separator belongs to the first piece |
| PyText.SplitSingle | smart_tracking.py:63 | a text splits into more than one piece exactly when it holds the separator |
| PyText.SplitJoin | ptz_controler.py:68-72 | splitting undoes joining pieces free of the separator |
| PyText.JoinLast | ptz_controler.py:69 | the last separator of a join stands right before the last piece |
| PyText.RStripAppended | ptz_controler.py:72 | `rstrip` removes exactly the whitespace appended to a text |
| PyText.StripUnchanged | ptz_controler.py:33 | `strip` leaves a text without surrounding whitespace alone |
| PyText.NatToString | ptz_controler.py:29 | `str(n)` of a natural is a non-empty digit string without a leading zero |
| PyText.IntToString | ptz_controler.py:29 | `str(n)` is a minus sign exactly when `n` is negative, followed by a non-empty run of digits |
| PyText.DecimalOfNatToString | ptz_controler.py:78 | the digits of `str(n)` read back as `n` |
| PyText.ParseIntToString | ptz_controler.py:78 | `int(str(n)) == n`, with any surrounding whitespace |
| PyText.SignedDigitsOfIntToString | ptz_controler.py:78 | the signed digits of `str(n)` read back as `n` |
| PyText.StripPadded | ptz_controler.py:78 | `strip` removes exactly the whitespace around a text |
| PyText.LStripPrepended | ptz_controler.py:78 | `lstrip` removes exactly the whitespace put before a text |
| ParamCodec.ParseItems | ptz_controler.py:75-79 | a failed parse of the items is a protocol error |
| ParamCodec.ParseErrorPersists | ptz_controler.py:76-78 | once a prefix of the items fails to parse, every longer prefix fails |
| ParamCodec.ParsePrefixStep | ptz_controler.py:75-78 | one more item adds its pair to a parsed prefix, and a malformed one makes the prefix fail |
| ParamCodec.ParseBody | ptz_controler.py:72-79 | the parse loop returns exactly the parse of the reply body: the map of all pairs, or a protocol error at the first malformed item |
| ParamCodec.QueryLists | ptz_controler.py:68-69 | the query names each requested parameter with `get`, in order |
| ParamCodec.EncodedItemShape | ptz_controler.py:72-78 | an encoded item holds no `&` and ends in a digit |
| ParamCodec.ItemRoundTrip | ptz_controler.py:77-78 | an encoded `name=value` item parses back to the same parameter |
| ParamCodec.ItemsRoundTrip | ptz_controler.py:75-79 | parsing the encoded items yields the map of the parameters |
| ParamCodec.EncodedShape | ptz_controler.py:72 | an encoded reply ends in a digit, and none of its items holds `&` |
| ParamCodec.ParamsRoundTrip | ptz_controler.py:72-79 | a reply listing parameters, with trailing whitespace, parses to their map |
| ParamCodec.AsMapLookup | ptz_controler.py:76-78 | the map holds exactly the names in the reply, each with its last value |
| ParamCodec.ItemsFail | ptz_controler.py:76-78 | the parse fails exactly when some item is not one `name=value` pair with an integer value |
| ParamCodec.MalformedSnoc | ptz_controler.py:76-78 | one more item makes the list malformed exactly when it or an earlier item is |
| ParamCodec.ParamsFail | ptz_controler.py:72-79 | a reply is rejected exactly when an `&`-separated item of its stripped body is malformed |
| PtzController.LimitsRoundTrip | ptz_controler.py:12-17 | a limits reply listing well-named parameters, with any trailing whitespace, yields exactly the four bounds it lists; a reply missing one of them is a protocol error |
| PtzController.PositionRoundTrip | ptz_controler.py:82-87 | a position reply listing well-named parameters yields the whole map when it has `pan` and `tilt`, else a protocol error. The pan it lists is stored even without a tilt; the tilt is stored only with both |
| PtzController.Clamp | ptz_controler.py:25-28 | speeds above 150 become 150; all others pass unchanged |
| PtzController.NormalizeZoom | ptz_controler.py:32-35 | the zoom is kept exactly when its stripped lower-case form is `tele` or `wide`, and then is that form |
| PtzController.ZoomSuffix | ptz_controler.py:36-37 | the zoom part is sent exactly when a direction or a zoom speed is given |
| PtzController.VectorQueryFields | ptz_controler.py:29-37 | the vector query's fields are the stream, channel, capped speeds and `vs=10`, then the zoom pair exactly when the zoom part is sent |
| PtzController.ShowPlain | ptz_controler.py:37 | a shown zoom speed holds no `&` |
| PtzController.ShownZoomPlain | ptz_controler.py:37 | a shown zoom direction holds no `&` |
| PtzController.NormalizeZoomIdempotent | ptz_controler.py:32-35 | normalising the zoom twice is the same as once |
| PtzController.ZoomWordFixed | ptz_controler.py:33-34 | `tele` and `wide` are fixed points of lower-casing and stripping |
| PtzController.AcceptedTargets | ptz_controler.py:44-49 | a target is accepted exactly when each axis lies between one below its minimum and its maximum |
| PtzController.RejectsBeyondMaxPan | ptz_controler.py:44-46 | a pan past the maximum is rejected; one below the minimum is accepted |
| PtzController.PositionQueryFields | ptz_controler.py:51-53 | the absolute query carries target, speeds and the non-blocking mode, in that order |
| PtzController.Controller.constructor | ptz_controler.py:8-11 | a new client keeps its endpoint and oracle, has no position and no trace, and is not yet connected |
| PtzController.Controller.Open | ptz_controler.py:8-20 | connecting succeeds exactly when the limits reply and the position reply are well formed. It then hands out a connected client that stores the limits and position, consumes two replies and sends the two queries. On failure it gives the error of the first reply that fails |
| PtzController.Controller.Connect | ptz_controler.py:12-20 | the body of connecting, for a client not yet connected, with the same outcome, state and trace as `Open`; the client counts as connected exactly when it succeeds |
| PtzController.Controller.ReadLimits | ptz_controler.py:12-19 | on a client not yet connected, the limits query consumes one reply and sends one request; the limits it parses are stored and the position cleared, while a failed read stores nothing |
| PtzController.Controller.Send | ptz_controler.py:92-93 | a request is recorded and answered by the next reply, or fails as a transport error |
| PtzController.Controller.SendForStatus | smart_tracking.py:154-155 | a status request is recorded and answered by the next status |
| PtzController.Controller.Sleep | smart_tracking.py:125 | a sleep is recorded as a pause of its length |
| PtzController.Controller.GetParam | ptz_controler.py:67-79 | a parameter query sends one request, consumes one reply, and returns exactly the parse of that reply |
| PtzController.Controller.CurrentPosition | ptz_controler.py:82-87 | a position poll returns the parsed position. The pan is stored as soon as it is read; the tilt is stored when both are present |
| PtzController.Controller.VectorMove | ptz_controler.py:24-40 | with no zoom direction and no zoom speed unless given, a vector move sends its query and then polls the position. It updates the cache from the poll and returns the move's reply, or the error that stopped it |
| PtzController.Controller.SendVectorMove | ptz_controler.py:38-40 | the same, for a given query |
| PtzController.Controller.PositionMove | ptz_controler.py:43-62 | on a connected client, with both speeds 100 unless given: a rejected target changes nothing. An accepted one sends the query, pauses 0.1 s and polls the position, with the same outcome as a vector move |
| PtzController.Controller.SendPositionMove | ptz_controler.py:55-58 | the accepted part, for a given query |
| SmartTracking.NameOf | smart_tracking.py:69 | a name is read exactly when the reply holds `=`, and it holds no quote or carriage return (`NameReplyValue` says which text it is) |
| SmartTracking.ReadNames | smart_tracking.py:66-70 | the names read so far come in order from the replies. Reading stops on the first missing reply or nameless one |
| SmartTracking.EntryTrace | smart_tracking.py:66-71 | `k` entries take `k` fetches |
| SmartTracking.DropStep | smart_tracking.py:66-67 | the reply after `i` consumed ones is reply `i`, if any |
| SmartTracking.PyIndex | smart_tracking.py:49 | a Python index resolves exactly within `-len .. len - 1`, counting negative ones from the end |
| SmartTracking.LeadingTracking | smart_tracking.py:126-130 | the count of leading `Tracking` statuses, followed by one that is not `Tracking` |
| SmartTracking.WatchEnds | smart_tracking.py:126-130 | the poll loop consumes the leading `Tracking` statuses and one more. It ends normally exactly when a non-`Tracking` status arrives, and otherwise fails as a transport error |
| SmartTracking.ReadingStops | smart_tracking.py:66-70 | once reading has failed, further rounds change nothing |
| SmartTracking.SmartPtz.constructor | smart_tracking.py:11-13 | a new smart client wraps a connected controller and has an empty directory |
| SmartTracking.SmartPtz.Open | smart_tracking.py:11-13 | connecting succeeds exactly when the controller connects, with the same error otherwise. It then hands out a client with an empty directory around a connected controller holding the limits and position read, two replies consumed and the two queries sent |
| SmartTracking.SmartPtz.Issue | ptz_controler.py:98-104 | a request whose body is not read fails only when there is no reply |
| SmartTracking.SmartPtz.MoveToHome | smart_tracking.py:16-20 | one home request |
| SmartTracking.SmartPtz.MoveToPreset | smart_tracking.py:27-31 | one recall of the named preset |
| SmartTracking.SmartPtz.StopSmartTracking | smart_tracking.py:132-136 | one stop request |
| SmartTracking.SmartPtz.GetPresetNames | smart_tracking.py:55-75 | the directory read follows `Rebuild` in outcome, trace and new state |
| SmartTracking.SmartPtz.ReadCount | smart_tracking.py:59-63 | the count is read from one count query, or fails on a missing or unreadable reply |
| SmartTracking.SmartPtz.ReadEntries | smart_tracking.py:64-73 | the loop follows `Entries`: the names are cleared, then read in order from the URL of the previous round |
| SmartTracking.SmartPtz.MoveToPresetIndex | smart_tracking.py:38-50 | a move by index follows `MovePresetIndex` |
| SmartTracking.SmartPtz.CheckTrackingStatus | smart_tracking.py:153-160 | one status poll returns the next status |
| SmartTracking.SmartPtz.IsCameraTracking | smart_tracking.py:162-168 | the camera is tracking exactly when the status is `Tracking`; no status is a transport error |
| SmartTracking.SmartPtz.Arm | smart_tracking.py:96-121 | the arming follows `Arming` |
| SmartTracking.SmartPtz.TrackFromHere | smart_tracking.py:88-130 | by default from the preset and with no polling, a tracking session follows `Track`: start move, arming, supervision |
| SmartTracking.SmartPtz.StartTracking | smart_tracking.py:89-94 | the start move is home, or the preset at the index |
| SmartTracking.SmartPtz.SuperviseTracking | smart_tracking.py:122-130 | supervision is off for a non-positive interval; otherwise a 3 s pause and the poll loop |
| SmartTracking.SmartPtz.WatchTracking | smart_tracking.py:126-130 | the poll loop follows `Watch` |
| SmartTracking.SmartPtz.MoveToHomeAndStopTracking | smart_tracking.py:139-141 | home, then stop, as `HomeAndStop` |
| SmartTracking.SmartPtz.MoveToHomeAndTracking | smart_tracking.py:144-145 | a session from home at index 0, with no polling unless an interval is given |
| DirectoryProperties.CountReplyRoundTrip | smart_tracking.py:63 | a `key=<n>` reply with trailing whitespace yields the count `n` |
| DirectoryProperties.NameReplyValue | smart_tracking.py:69 | a `key=<value>\r...` reply yields the text between the first `=` and the carriage return, with its quotes taken out |
| DirectoryProperties.NameReplyRoundTrip | smart_tracking.py:69 | a `key='<name>'\r...` reply yields the name |
| DirectoryProperties.Unquote | smart_tracking.py:69 | removing the quotes around a quote-free name gives the name back |
| DirectoryProperties.RebuildOutcome | smart_tracking.py:55-75 | a rebuild fails before any name on a missing or bad count, leaving the cache alone. Otherwise the cache becomes the names read in order, at most the count of them. It succeeds exactly when all of them were read |
| DirectoryProperties.RebuildDiscardsCache | smart_tracking.py:65 | the cache before a rebuild plays no part in it |
| DirectoryProperties.EntryTraceAt | smart_tracking.py:66-71 | entry `j` is fetched from `EntryUrl(ip, j)` |
| DirectoryProperties.RebuildFetchOrder | smart_tracking.py:59-71 | a rebuild fetches the count query, the count query again, then slot `j - 2` as request `j`. A successful rebuild makes one request per name plus one |
| DirectoryProperties.CamCtrlPrefix | ptz_controler.py:29 | every camera-control URL shares one prefix |
| DirectoryProperties.RecallIsNotCount | smart_tracking.py:28 | a recall is never the count query |
| DirectoryProperties.MoveRebuildsIff | smart_tracking.py:40-41 | a move by index queries the count exactly when the cache is empty or shorter than the index |
| DirectoryProperties.MoveRecallsIndex | smart_tracking.py:38-50 | the move recalls exactly the name at the Python index. It fails as not found, without a recall, exactly when the index is outside the directory it has |
| DirectoryProperties.IndexAtCacheLength | smart_tracking.py:40-49 | an index equal to a non-empty cache's length skips the rebuild and fails with nothing sent |
| TrackingProperties.WatchCounts | smart_tracking.py:126-130 | the loop polls once per leading `Tracking` status and once more, pausing one interval per `Tracking` poll |
| TrackingProperties.WatchIgnoresNames | smart_tracking.py:126-130 | the loop never looks at the preset directory |
| TrackingProperties.SupervisedPolls | smart_tracking.py:122-130 | with a positive interval: a 3 s pause, `n + 1` polls and `n` intervals, and a normal end exactly when a non-`Tracking` status arrives |
| TrackingProperties.SupervisionOff | smart_tracking.py:122-123 | a non-positive interval means no event and no status consumed |
| TrackingProperties.SupervisionScenario | smart_tracking.py:125-130 | two `Tracking` statuses then `Missing`, polled every second, give the exact trace |
| TrackingProperties.ArmOrder | smart_tracking.py:96-121 | the five arming commands go out in order, one reply each; a device that stops answering ends the arming with a transport error after the unanswered command |
| TrackingProperties.RequestsDoNotPause | smart_tracking.py:89-121 | a sequence of requests has no pause in it |
| TrackingProperties.StartMoveRequests | smart_tracking.py:89-94 | the start move only sends requests and reads no status |
| TrackingProperties.RebuildRequests | smart_tracking.py:55-75 | a rebuild only sends requests and reads no status |
| TrackingProperties.MoveRequests | smart_tracking.py:38-50 | a move by index only sends requests and reads no status |
| TrackingProperties.TrackOrder | smart_tracking.py:88-121 | a session sends the start move, then the five arming commands, before any supervision |
| TrackingProperties.TrackWithoutPolling | smart_tracking.py:122-123 | with a non-positive interval the session is exactly the start move followed by arming: requests only, so no status is polled and nothing pauses |
| TrackingProperties.TrackWithPolling | smart_tracking.py:122-130 | with a positive interval and an answering device, the session pauses 3 s plus one interval per `Tracking` poll. It consumes the leading `Tracking` statuses and one more |
| TrackingProperties.HomeIgnoresDirectory | smart_tracking.py:89-91 | from home, neither the index nor the cached names make any difference |
| TrackingProperties.HomeAndStopOrder | smart_tracking.py:139-141 | home then stop, once each and in order; no stop when home finds no reply |

## Left out

- HTTP transport and digest authentication (`http_get`, `http_other`): replaced by the reply script. The HTTP status code of a reply is not looked at, as in the client.
- The unknown-method branch of `http_other`: only `delete`, `put` and `post` are ever passed to it.
- Logging (`log`, `print`): it has no effect on state.
- Time: `time.sleep` is recorded as a pause event of its length in milliseconds. No clock is modelled.
- The JSON parse of the status reply: the status is one of `Waiting`, `Tracking`, `Missing`, `Sleep`. Any other reported string behaves like a non-`Tracking` status.
- Text decoding (`r.encoding = r.apparent_encoding`): replies are already text.
- URL quoting: preset names and parameters go into URLs as they are, as in the client.
- Dynamic typing: speeds, targets, indices and intervals are integers, and the zoom direction and zoom speed of a vector move are optional texts written into the query as given (`None` when absent). Values of other types are not modelled.
- PyText.LowerChar: lower-cases ASCII letters only, not Unicode case folding.
- PyText.ParseInt: accepts an optional sign and ASCII digits only. `int()`'s underscores and non-ASCII digits are not accepted.
- PtzController.Controller.PositionMove: a rejected target is `Err(OutOfRange)`, whereas the client logs and returns `None`. Nothing is sent or changed in either.
- SmartTracking.SmartPtz.MoveToPresetIndex: an index outside the list is `Err(NotFound)`, whereas the client raises `IndexError` (logging first only when the index exceeds the cache length).
- The `__main__` demonstration blocks of both files.
- Concurrent use of one client: the client is written for a single caller.
