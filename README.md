# ArtNet to MQTT bridge, modelled in Dafny

The bridge listens to a contiguous range of ArtNet universes. It cuts every
512-byte DMX frame into fixed-width lights and queues `(light id, bytes)`
for an MQTT publisher. A light is queued only when its bytes changed, or
when it has not been sent for longer than the rebroadcast time. A watchdog
marks a universe lost after more than three seconds without a frame.

The model covers the sequential core of `ArtnetMQTTBridge.py`, file by file:

- `light_map.dfy` (`LightMap`) is the startup arithmetic and the layout of
  lights over universes:
  - the universe list;
  - `512 // channels` lights per universe;
  - the number of universes required, and the capacity check;
  - each universe's range of light ids;
  - each light's byte offset.

  Python's floor division and `math.ceil` are written out for every sign.
- `topic.dfy` (`Topic`) is `str(i)` for a light id, and the left-to-right
  replacement of every `[NUM]` in the topic template.
- `startup.dfy` (`Startup`) holds the configuration record, its defaults,
  and the startup checks in the order the script makes them.
- `liveness.dfy` (`Liveness`) is the shared `has_artnet` / `last_artnet`
  table as a class. It also holds `set_universes`, one wake-up of the
  watchdog loop as `Tick(now)`, and the per-universe two-state machine.
- `frame_spec.dfy` (`FrameSpec`) states what one call of `artnet_receive`
  does to the per-light state and the queue:
  - `Run` follows the loop light by light.
  - `RunCharacterized` states the outcome all at once: of the lights that
    qualify, in id order, as many as the queue has room for are queued and
    recorded; the call stops at the first light that finds the queue full;
    nothing else changes.
- `bridge.dfy` (`Bridge`) is the imperative side:
  - the bounded FIFO queue of capacity 10000;
  - `FrameProcessor`, whose `Receive` method loops over `lastLights` and
    `lastTimes` arrays and is proved equal to `FrameSpec.Process`;
  - the publishing worker's dequeue and topic rendering;
  - a `Pipeline` that wires these together as the script's main block does.

Time is an integer tick count, passed in as a parameter. "Queue full" means
the queue holds `capacity` messages at the moment of the put.

Three consequences of the code as written, which the model keeps:

- A rebroadcast time of 0 is accepted: the check at line 191 is `>= 0`
  (`Startup.ZeroRebroadcastAndEmptyUrlAccepted`).
- An empty broker address is accepted: line 195 compares the address with
  the bytes value `b""`, which a string address never equals. Only
  `"example.com"` or a port of 0 or less fails.
- A light dropped because the queue was full is retried: lines 93-97 leave
  its stored bytes and time as they were, so the same bytes qualify again in
  the next frame (`FrameSpec.DroppedLightRequalifies`).

## Model

| member | source | states |
|---|---|---|
| LightMap.FloorDiv | ArtnetMQTTBridge.py:164 | the quotient is the floor of a/b for either sign of b, as Python's `//` |
| LightMap.CeilDiv | ArtnetMQTTBridge.py:165 | for b > 0 the result is the least q with a <= q*b, and for b < 0 the greatest q with q*b <= a: in both cases the ceiling of a / b, as `math.ceil(a / b)` |
| LightMap.Universes | ArtnetMQTTBridge.py:158-160 | the list has max(0, count) entries, strictly increasing |
| LightMap.InUniverses | ArtnetMQTTBridge.py:158-160 | u is listed iff start <= u < start + count |
| LightMap.LightsPerUniverse | ArtnetMQTTBridge.py:164 | positive iff 0 < channels <= 512, negative iff channels < 0; for positive channels it is the most lights whose bytes fit in 512 |
| LightMap.Plan | ArtnetMQTTBridge.py:158-167 | fails with a division by zero iff channels is 0 or above 512; otherwise fails iff lpu * universes < lights, reporting ceil(lights / lpu), which exceeds the universe count for positive channels; on success returns the layout, which covers every light |
| LightMap.CapacityIff | ArtnetMQTTBridge.py:165-167 | for lpu > 0: lpu * U >= n iff ceil(n / lpu) <= U |
| LightMap.PlanSucceedsIff | ArtnetMQTTBridge.py:164-167 | for a valid stride, startup accepts the layout iff the required universe count is at most the configured count |
| LightMap.FirstLight | ArtnetMQTTBridge.py:84 | `lights_offset`, the id of ordinal u's first light; its meaning is stated by `LightIds`, `UniverseOwnsIds` and `LightHasHome` |
| LightMap.LightsIn | ArtnetMQTTBridge.py:85 | `universe_lights`, which may be zero or negative; `LightIds` states that a non-positive count processes no light, and `UniverseOwnsIds` which ids a positive one covers |
| LightMap.LightIds | ArtnetMQTTBridge.py:84-87 | universe ordinal u processes ids u*lpu + k for k below min(lpu, n - u*lpu), none when that is not positive |
| LightMap.InLightIds | ArtnetMQTTBridge.py:84-87 | a universe's ids are exactly one contiguous range |
| LightMap.UniverseOwnsIds | ArtnetMQTTBridge.py:84-87 | in an accepted layout, id belongs to ordinal u iff 0 <= id < n and id / lpu == u |
| LightMap.UniversesDisjoint | ArtnetMQTTBridge.py:84-87 | no id belongs to two different ordinals |
| LightMap.LightHasHome | ArtnetMQTTBridge.py:84-89 | in an accepted layout every light id < n has a universe ordinal below the universe count, is processed by it at position id % lpu, and its bytes lie inside the 512-byte frame |
| LightMap.ByteOffset | ArtnetMQTTBridge.py:88 | `j`, where a light's bytes start in its universe's frame; `LightHasHome` states that the light's `channels` bytes from there lie inside the 512-byte frame |
| LightMap.TwoUniverseLayout | ArtnetMQTTBridge.py:158-167 | 2 universes of 4-channel lights accept 200 lights: ids 0..127 and 128..199 |
| LightMap.TooFewUniverses | ArtnetMQTTBridge.py:165-167 | 300 four-channel lights on 2 universes are refused, reporting 3 required universes |
| Topic.DigitChar | ArtnetMQTTBridge.py:114 | a digit value below 10 gives a decimal digit character |
| Topic.Decimal | ArtnetMQTTBridge.py:114 | `str(i)` is nonempty, all digits, and has no leading zero |
| Topic.DecimalRoundTrip | ArtnetMQTTBridge.py:114 | parsing the decimal text of n gives back n |
| Topic.DecimalInjective | ArtnetMQTTBridge.py:114 | different light ids give different texts |
| Topic.Contains | ArtnetMQTTBridge.py:199 | Python's `pat in s`: some position where `pat` occurs; used by `Startup.ValidTopic`, and `ReplaceLeavesNoPlaceholder` states that a rendered topic fails it |
| Topic.Replace | ArtnetMQTTBridge.py:114 | Python's `str.replace`; its meaning is stated by `ReplaceWithoutMatch` (no occurrence: unchanged), `ReplaceFirstMatch` (first occurrence replaced, prefix kept, scan continues after it) and `ReplaceLeavesNoPlaceholder` |
| Topic.Render | ArtnetMQTTBridge.py:114 | the topic of light i, `topic.replace("[NUM]", str(i))`; stated by `RenderComplete`, `RenderLightTopic` and `RenderDefaultTopic` |
| Topic.ReplaceWithoutMatch | ArtnetMQTTBridge.py:114 | a template without `[NUM]` is unchanged |
| Topic.ReplaceFirstMatch | ArtnetMQTTBridge.py:114 | the first occurrence is replaced, the text before it is kept, and replacement continues after it |
| Topic.PrefixKept | ArtnetMQTTBridge.py:114 | if the rendered text starts with characters that are neither digits nor `[`, the template starts with the same characters |
| Topic.ReplaceLeavesNoPlaceholder | ArtnetMQTTBridge.py:114 | replacing with digits leaves no `[NUM]` in the result |
| Topic.RenderComplete | ArtnetMQTTBridge.py:114 | a rendered topic contains no `[NUM]` |
| Topic.RenderLightTopic | ArtnetMQTTBridge.py:16 | the default template renders as "light/" followed by the id |
| Topic.RenderDefaultTopic | ArtnetMQTTBridge.py:16 | the default template renders light 7 as "light/7", 0 as "light/0" and 42 as "light/42" |
| Startup.Start | ArtnetMQTTBridge.py:158-203 | startup succeeds iff the layout, rebroadcast time, broker, topic and QoS all pass; each failure is reported as the first failing check in the script's order; on success the settings carry the layout and the configured values |
| Startup.DefaultConfig | ArtnetMQTTBridge.py:11-24 | the default configuration's values; `DefaultConfigRejected` states which checks they pass and which refuses them |
| Startup.ValidRebroadcast | ArtnetMQTTBridge.py:191 | the rebroadcast check `>= 0`; `Start` reports `NegativeRebroadcast` exactly when it fails after the layout passed, and `ZeroRebroadcastAndEmptyUrlAccepted` that 0 passes |
| Startup.ValidBroker | ArtnetMQTTBridge.py:195 | the broker check: refused only for `"example.com"` or a port of 0 or less, since a string never equals `b""`; `Start` and `ZeroRebroadcastAndEmptyUrlAccepted` use it |
| Startup.ValidTopic | ArtnetMQTTBridge.py:199 | the topic contains `[NUM]`; `Start` reports `MissingPlaceholder` exactly when it is the first failing check, and `DefaultTopicValid` that the default passes |
| Startup.ValidQos | ArtnetMQTTBridge.py:203 | QoS is 0, 1 or 2; `Start` reports `BadQos` exactly when it is the first failing check |
| Startup.DefaultTopicValid | ArtnetMQTTBridge.py:16 | the default topic contains `[NUM]` |
| Startup.DefaultConfigRejected | ArtnetMQTTBridge.py:11-24 | the default configuration passes the layout and rebroadcast checks and is refused for its placeholder address |
| Startup.EditedDefaultStarts | ArtnetMQTTBridge.py:191-205 | the defaults with any other address start |
| Startup.ZeroRebroadcastAndEmptyUrlAccepted | ArtnetMQTTBridge.py:191-196 | a rebroadcast time of 0 and an empty address pass their checks |
| Liveness.TickOnlyDisconnects | ArtnetMQTTBridge.py:66-69 | a tick never connects a universe, never changes its time, and changes its flag iff it is connected and silent for more than 3 |
| Liveness.OnFrame | ArtnetMQTTBridge.py:78-82 | a frame at t makes the entry (t, connected); stated by `FrameReconnects` and `FrameThenTick` |
| Liveness.TimedOut | ArtnetMQTTBridge.py:67 | connected and silent for more than 3; `TickOnlyDisconnects` states that a tick flips the flag exactly then |
| Liveness.OnTick | ArtnetMQTTBridge.py:66-69 | one universe's examination by the watchdog; stated by `TickOnlyDisconnects`, `TickIdempotent` and `LostStaysLost` |
| Liveness.TickIdempotent | ArtnetMQTTBridge.py:66-69 | a second tick at the same time changes nothing |
| Liveness.LostStaysLost | ArtnetMQTTBridge.py:66-69 | a lost universe stays lost at every later tick |
| Liveness.FrameReconnects | ArtnetMQTTBridge.py:78-82 | a frame reconnects a universe whatever its state |
| Liveness.FrameThenTick | ArtnetMQTTBridge.py:67 | after a frame at t, a tick at now disconnects iff now - t > 3 |
| Liveness.AfterTick | ArtnetMQTTBridge.py:66-69 | the table's set of universes is unchanged by a tick |
| Liveness.AfterTickExactly | ArtnetMQTTBridge.py:66-69 | a tick clears exactly the watched universes that timed out and leaves every other flag |
| Liveness.Reset | ArtnetMQTTBridge.py:59-61 | every listed universe gets the value, and every other entry is kept |
| Liveness.ResetStep | ArtnetMQTTBridge.py:59-61 | resetting one more universe is one more dictionary assignment |
| Liveness.UniverseTable.constructor | ArtnetMQTTBridge.py:49-50 | both dictionaries start empty |
| Liveness.UniverseTable.MarkReceived | ArtnetMQTTBridge.py:78-82 | a frame sets the universe connected and last seen at t, and changes no other entry |
| Liveness.Watchdog.constructor | ArtnetMQTTBridge.py:52-54 | the watchdog starts with no universes |
| Liveness.Watchdog.SetUniverses | ArtnetMQTTBridge.py:56-61 | every listed universe becomes (0, disconnected), other entries stay |
| Liveness.Watchdog.Tick | ArtnetMQTTBridge.py:62-69 | one wake-up leaves the times alone and sets the flags to `AfterTick` of the old ones |
| FrameSpec.Slice | ArtnetMQTTBridge.py:89 | Python's clamped slice: its length and that each byte is the frame's byte at the offset |
| FrameSpec.Offset | ArtnetMQTTBridge.py:88 | `j = i * light_channels`; `FullFramePayload` states that in a full frame the light's slice starts there |
| FrameSpec.PayloadOf | ArtnetMQTTBridge.py:88-90 | the light's bytes `data[j:j+light_channels]`, at most `channels` of them; `Slice` gives each byte and `FullFramePayload` the exact bytes in a full frame |
| FrameSpec.Qualifies | ArtnetMQTTBridge.py:91 | the change-or-rebroadcast test; `QualifyingExactly` states that the qualifying positions are exactly those where it holds, and `NeverSent` that no other light is queued |
| FrameSpec.Visit | ArtnetMQTTBridge.py:86-97 | one loop iteration keeps one entry per light; its effect is stated by `VisitEffect` |
| FrameSpec.Run | ArtnetMQTTBridge.py:86-97 | the loop keeps one entry per light; its outcome is stated by `RunCharacterized` |
| FrameSpec.Process | ArtnetMQTTBridge.py:84-97 | one whole call keeps one entry per light; its outcome is stated by `RunCharacterized`, `ProcessQueue` and `QueueBounded`, and `Bridge.FrameProcessor.Receive` is proved equal to it |
| FrameSpec.Qualifying | ArtnetMQTTBridge.py:86-91 | the positions that qualify are below the loop bound and strictly increasing |
| FrameSpec.Messages | ArtnetMQTTBridge.py:92-93 | one `(id, slice)` message per position, in the same order |
| FrameSpec.RunCharacterized | ArtnetMQTTBridge.py:84-97 | after the loop, the queue is the old queue plus the messages of the qualifying lights that fit in the free places, in id order; the call halted iff more lights qualified than there were free places; exactly the sent lights hold the new bytes and time; every other light is unchanged |
| FrameSpec.VisitEffect | ArtnetMQTTBridge.py:91-97 | one more light is written iff it is sent, and the queue stays as characterized |
| FrameSpec.VisitSkips | ArtnetMQTTBridge.py:91 | a light that does not qualify, or comes after a halt, changes nothing and is not sent |
| FrameSpec.VisitFindsFull | ArtnetMQTTBridge.py:93-95 | a qualifying light that finds the queue full ends the call without changes |
| FrameSpec.VisitSends | ArtnetMQTTBridge.py:92-97 | a qualifying light with room is appended to the queue and recorded with its bytes and time |
| FrameSpec.HaltedStays | ArtnetMQTTBridge.py:94-95 | after the return, the remaining lights change nothing |
| FrameSpec.QualifyingExactly | ArtnetMQTTBridge.py:91 | a position is listed iff that light qualifies |
| FrameSpec.QualifyingAll | ArtnetMQTTBridge.py:91 | when every light qualifies, all positions are listed in order |
| FrameSpec.SentPositions | ArtnetMQTTBridge.py:91-95 | the sent positions fit in the free places, are in range and increase |
| FrameSpec.ProcessQueue | ArtnetMQTTBridge.py:92-95 | the queue after a call is the old queue followed by the messages of the sent lights |
| FrameSpec.QueueBounded | ArtnetMQTTBridge.py:71 | the queue never exceeds its capacity, and earlier messages stay at the front |
| FrameSpec.SentInIdOrder | ArtnetMQTTBridge.py:86-93 | a call appends messages only for this universe's lights, each with its own slice, in increasing id order |
| FrameSpec.NotSentKept | ArtnetMQTTBridge.py:91-97 | a light that is not sent keeps its stored bytes and time |
| FrameSpec.NotQualifyingKept | ArtnetMQTTBridge.py:91 | a light whose bytes are unchanged and which is not overdue is not queued and keeps its state |
| FrameSpec.NeverSent | ArtnetMQTTBridge.py:91-93 | no appended message is for a light that does not qualify |
| FrameSpec.DroppedLightRequalifies | ArtnetMQTTBridge.py:93-97 | a light dropped on a full queue qualifies again in any later frame with the same bytes |
| FrameSpec.AllSentWhenRoom | ArtnetMQTTBridge.py:86-97 | when every light qualifies and there is room, all are queued in id order |
| FrameSpec.Initial | ArtnetMQTTBridge.py:170-171 | every light starts with empty bytes and time 0, and the queue is empty |
| FrameSpec.FrameOfFits | ArtnetMQTTBridge.py:84-87 | in an accepted layout, each universe's frame fits the per-light state and visits exactly its light ids |
| FrameSpec.OtherUniversesKept | ArtnetMQTTBridge.py:84-97 | a frame of one universe leaves every light of the other universes unchanged |
| FrameSpec.FullFramePayload | ArtnetMQTTBridge.py:88-90 | in a full 512-byte frame every light's slice is exactly its `channels` bytes |
| FrameSpec.FirstFrameSendsAll | ArtnetMQTTBridge.py:170-171 | from the initial state a full frame queues every light of the universe, in id order |
| Bridge.OutboundQueue.constructor | ArtnetMQTTBridge.py:71 | the queue starts empty with the given capacity |
| Bridge.OutboundQueue.Put | ArtnetMQTTBridge.py:93-95 | a put succeeds iff the queue is not full, and then appends the message at the back |
| Bridge.OutboundQueue.Get | ArtnetMQTTBridge.py:110-112 | a get returns the oldest message and removes it, or reports an empty queue |
| Bridge.FrameProcessor.constructor | ArtnetMQTTBridge.py:170-171 | one empty value and one time 0 per light |
| Bridge.FrameProcessor.Receive | ArtnetMQTTBridge.py:76-97 | marks the universe connected and seen at t, and leaves the arrays and queue as `Process` of the old state |
| Bridge.FrameProcessor.ProcessFrame | ArtnetMQTTBridge.py:84-97 | the loop, with its early return, leaves the arrays and queue equal to `Process` of the old state |
| Bridge.FrameProcessor.VisitLight | ArtnetMQTTBridge.py:87-97 | one iteration makes the state that of one more step of `Run`, and reports a rejected put |
| Bridge.PublishWorker.constructor | ArtnetMQTTBridge.py:100-105 | empty topic, QoS 1, no retain |
| Bridge.PublishWorker.Configure | ArtnetMQTTBridge.py:200-205 | takes the checked topic, QoS and retain flag |
| Bridge.PublishWorker.Next | ArtnetMQTTBridge.py:110-114 | dequeues the oldest message and names its topic with the id filled in |
| Bridge.Pipeline.constructor | ArtnetMQTTBridge.py:170-173 | after the checks pass, lights start empty, every universe starts disconnected at 0, and the queue is empty |
| Bridge.Pipeline.OnArtnet | ArtnetMQTTBridge.py:129-132 | the listener of the i-th universe calls `Receive` with that universe's number |
| Bridge.Pipeline.OnWatchdogTick | ArtnetMQTTBridge.py:62-69 | one watchdog wake-up over the configured universes |
| Bridge.Pipeline.OnPublish | ArtnetMQTTBridge.py:106-114 | one worker turn takes the oldest message with its rendered topic and the configured QoS and retain |

## Left out

- `load_config` (lines 10-47) is left out: it reads and rewrites `config.json` and merges keys by comparing JSON value types. The model starts from a `Config` value; `Startup.DefaultConfig` holds the defaults.
- The publish and retry loop (lines 116-122) is an exchange with the MQTT client library (`is_connected`, `publish`, `wait_for_publish`, `is_published`). The worker model stops at the publication it would make.
- Threads, `time.sleep`, the `exit` flags and `shutdown` (lines 51-55, 64-65, 108, 137-146) are concurrency and are left out. The model is one call at a time.
- The one-second blocking timeouts of `Queue.put` and `Queue.get` are left out. "Full" and "empty" are decided at the moment of the call.
- `time.time()` gives floating-point seconds; the model uses integer ticks passed in.
- Liveness.Watchdog.Tick: the script reads the clock once per universe inside the loop, while the model examines every universe at one `now`.
- LightMap.CeilDiv: `math.ceil(n / lpu)` divides in floating point. The model uses the exact integer ceiling, so two things are not modelled: rounding for very large light counts, and the `OverflowError` line 165 raises once the quotient leaves the float range, where the model instead reports `NotEnoughUniverses` with the exact count (or accepts the layout when the universes suffice).
- Registration with `StupidArtnetServer`, the MQTT connection and callbacks, the status `print` lines and `loop_forever` (lines 124-132, 148-152, 175-178, 207-214) are library calls and I/O. Only the listener's universe binding is kept, in `Bridge.Pipeline.OnArtnet`.
- The username and password handling (lines 179-188) only chooses a status line and calls the client library, so it is left out.
- `bytes(chans)` raising for channel values outside 0..255 is left out: frames are byte sequences.
- Bridge.FrameProcessor.Receive: a frame for a universe missing from `has_artnet` raises `KeyError` in the script. The model instead requires the universe to be in the table, which holds for every registered listener.
- Bridge.FrameProcessor.Receive: also requires an accepted layout, because the script only receives frames after the startup checks.
