# soundio core, modelled in Dafny

This project models the device layer of the soundio library: the part of the
C++ code that sits between calls into miniaudio.

- **Format value type.** `AudioFormat` (module `AudioFormats`) covers equality and the
  frame-size arithmetic, including its 32-bit wrap-around.
- **Node graph.** The subscription list of an `AudioNode` (module `AudioNodes`) has guarded
  subscribe/unsubscribe and keeps a no-duplicates invariant.
- **Endpoint pipeline.** An `AudioEndpoint` (module `Endpoints`) has two bounded PCM FIFOs, the
  input ring and the output ring. The acquire/commit loops of `writeRing`/`readRing` move frames
  in and out of them. `receivePCM`, `submitPCM` and `mixPCM` are the fixed pipeline steps.
  `buildConverters`, `initializeRings` and `renegotiate` decide which converters exist, each ring's
  size and format, and whether negotiation is done.
- **Memory streams.** `AudioStream`, `AudioStreamInput` and `AudioStreamOutput` (module `Streams`) are the
  endpoints that a program feeds or drains with PCM frames.
- **Device lifecycle.** An `AudioDevice` (module `Devices`) has an awake/asleep state machine
  over `isAwake`, `engine` and `internalDevice`. It also has `updateDevice`, which renegotiates only
  when the format changes.
- **Registry.** The static `SoundIO` state (module `Registry`) covers:
  - the map from normalised id to device;
  - `handleDeviceLoop` and `refreshDevices`;
  - the default speaker and microphone ids;
  - the getters and `initialize`.
- **Device identity.** `normalizeDeviceId` and the in-place string sanitisers (module
  `DeviceIds`) build keys of the form `<backend>:<sanitised id>_<device type>`.
- **Device enumeration.** `loopDevices` (module `DeviceLoops`) has skip rules and the
  best-native-format selection loop.

`MaTypes` holds the miniaudio enumerations, result codes and device-info records.

The model keeps the source's form:

- Objects whose fields the source updates are classes with framed methods.
- `writeRing`, `readRing`, the selection loop, the enumeration loop and the string helpers are
  methods with `while` loops. Each is proved against a specification function.
- The pure parts are functions with lemmas.

Foreign results are parameters. This covers miniaudio's converter and ring-buffer initialisation
(the `Env` record), the engine's init result and device handle, the detailed-info query, the
enumerated device lists and the converter's output frames.

## Model

| member | source | states |
|---|---|---|
| `MaTypes.DeviceType.Code` | src/utils/deviceid.h:117-122 | The numeric miniaudio device type written after `_` in a key is one of 1..4, so it is a single decimal digit. |
| `AudioFormats.BytesPerSample` | src/core/AudioFormat.h:20-22 | miniaudio's bytes-per-sample table gives at most 4 bytes, and 0 exactly for the unknown format. |
| `AudioFormats.Make` | src/core/AudioFormat.h:11-15 | The three-argument constructor stores its arguments and leaves the encoding unknown. |
| `AudioFormats.Default` | src/core/AudioFormat.h:17 | The default constructor gives (unknown, 0 channels, 0 Hz), so one frame is 0 bytes. |
| `AudioFormats.Stereo48kF32` | src/core/AudioFormat.h:24 | The preset is (f32, 2, 48000), so a frame is 8 bytes. |
| `AudioFormats.FrameSizeExact` | src/core/AudioFormat.h:20-22 | When the product fits in 32 bits, `frameSizeInBytes(n)` is exactly n · channels · bytes-per-sample. |
| `AudioFormats.OneFrameSize` | src/core/AudioFormat.h:20-22 | The default argument 1 gives the size of one frame, reduced modulo 2^32 like the unsigned product. |
| `AudioFormats.FrameSizeOfZero` | src/core/AudioFormat.h:20-22 | Zero frames take zero bytes. |
| `AudioFormats.FrameSizeAdditive` | src/core/AudioFormat.h:20-22 | Without overflow, the size of a+b frames is the size of a frames plus the size of b frames. |
| `AudioFormats.EqualIffFieldsMatch` | src/core/AudioFormat.h:26-28 | `==` holds iff format, channels and sample rate all match. Two formats that differ only in encoding are still `==`. |
| `AudioFormats.EqualityLaws` | src/core/AudioFormat.h:26-29 | `!=` is the negation of `==`, and `==` is reflexive, symmetric and transitive. |
| `AudioNodes.IndexOf` | src/core/AudioNode.h:44 | The position `std::find` reports is the first occurrence of the node. |
| `AudioNodes.RemoveAll` | src/core/AudioNode.h:44-49 | The reference for erasing: it keeps every other node and never the removed one. |
| `AudioNodes.NoDuplicatesTail` | src/core/AudioNode.h:34 | The tail of a duplicate-free list is duplicate-free and lacks the head. |
| `AudioNodes.NoDuplicatesCons` | src/core/AudioNode.h:34 | Prepending an absent node keeps a list duplicate-free. |
| `AudioNodes.RemoveAllAbsent` | src/core/AudioNode.h:44-49 | Removing an absent node changes nothing. |
| `AudioNodes.EraseStep` | src/core/AudioNode.h:44-49 | Past a head that differs from the node, the erase position moves by one. |
| `AudioNodes.EraseMatches` | src/core/AudioNode.h:44-49 | In a duplicate-free list, `erase(find(x))` equals removing every occurrence of x. |
| `AudioNodes.RemoveAllNoDuplicates` | src/core/AudioNode.h:44-49 | Removing a node keeps the list duplicate-free. |
| `AudioNodes.EraseIsRemoveAll` | src/core/AudioNode.h:44-49 | A successful unsubscribe removes exactly that node, keeps the others in order and keeps the list duplicate-free. |
| `AudioNodes.AudioNode.constructor` | src/core/AudioNode.h:9-16 | A new node has no connections and the given virtual hooks. |
| `AudioNodes.AudioNode.Subscribe` | src/core/AudioNode.h:18-37 | On either failing `canSubscribe`, an already present node or a failing `handleSubscribe`, it returns that result and the list is unchanged. On success the node is appended once at the end. No duplicates is kept, and the other node's list is untouched. |
| `AudioNodes.AudioNode.Unsubscribe` | src/core/AudioNode.h:39-50 | An absent node gives "not initialized". Otherwise `handleUnsubscribe` decides the result. Success removes exactly that node (length drops by one); failure leaves the list unchanged. |
| `AudioNodes.AudioNode.UnsubscribeAll` | src/core/AudioNode.h:52-57 | `handleUnsubscribe` is called once per connected node, in list order. The results are ignored and the list ends empty. |
| `AudioNodes.BareNodesNeverSubscribe` | src/core/AudioNode.h:9-11 | Two nodes with the base hooks cannot subscribe: the result is "not implemented" and neither list holds the other. |
| `Endpoints.UninitializedRing` | src/core/AudioEndpoint.h:21-38 | A ring that was never initialised has capacity 0 and holds nothing. |
| `Endpoints.AcquireWrite` | src/core/AudioEndpoint.h:137-139 | `ma_pcm_rb_acquire_write` grants a chunk no larger than the request or the free space. The chunk is empty only when one of those is zero. |
| `Endpoints.CommitWrite` | src/core/AudioEndpoint.h:141-143 | Committing a chunk that fits keeps the capacity and uses up exactly that much free space. |
| `Endpoints.AcquireRead` | src/core/AudioEndpoint.h:153-157 | `ma_pcm_rb_acquire_read` grants no more than requested or available. The chunk is empty only when one of those is zero. |
| `Endpoints.CommitRead` | src/core/AudioEndpoint.h:159-162 | Committing a read removes exactly the oldest k frames. |
| `Endpoints.WriteRing` | src/core/AudioEndpoint.h:133-146 | The loop appends exactly min(frames, free) leading frames of the data, in order. The excess is dropped and the ring stays within capacity. |
| `Endpoints.ReadRing` | src/core/AudioEndpoint.h:149-166 | The loop returns min(frames, available) and copies out the oldest frames in FIFO order. It removes exactly those frames. |
| `Endpoints.WrittenBounded` | src/core/AudioEndpoint.h:133-146 | Writing never exceeds capacity and keeps the old frames at the front. Data that fits is appended whole. |
| `Endpoints.FifoRoundTrip` | src/core/AudioEndpoint.h:133-166 | Frames that fit come back from the ring unchanged, after the frames already queued. |
| `Endpoints.AudioEndpoint.constructor` | src/core/AudioEndpoint.h:21-38 | A new endpoint has the given format and capability flags, no neighbours, no converters, uninitialised rings and negotiation not done. |
| `Endpoints.AudioEndpoint.BuildConverters` | src/core/AudioEndpoint.h:47-96 | The input converter exists iff an upstream format differs from the own format and its init succeeds. A failure there is returned and no converter is kept. The output converter is attempted whenever a downstream format exists, even an equal one. `areConvertersReady` is success and (input or output converter). |
| `Endpoints.AudioEndpoint.InitializeRings` | src/core/AudioEndpoint.h:98-130 | Each ring's size is (neighbour rate, else own rate) / divisor. Each ring's format is the neighbour's format, else the own format. A ring is set only when its capability flag is on. A failing input ring init is returned before the output ring is touched. |
| `Endpoints.AudioEndpoint.Renegotiate` | src/core/AudioEndpoint.h:226-245 | With divisor 8, the converters and `areConvertersReady` are as `buildConverters` leaves them. `isNegociationDone` ends true iff the converters build and every ring in use initialises. After the converters build, ring sizes are rate/8 and ring formats are chosen as in `initializeRings`. Failed converters leave every ring field as it was, as does an unused ring or an output ring behind a failed input ring. Format, neighbours and flags are unchanged. |
| `Endpoints.AudioEndpoint.RenegotiateAsWritten` | src/core/AudioEndpoint.h:226-245 | The code as written passes rate/8 as the divisor, so each ring holds rate/(rate/8) frames. Everything else is as for the corrected member: the converters, the done flag, the ring contents and formats, and the fields left unchanged on each failure. |
| `Endpoints.AudioEndpoint.ReceivePCM` | src/core/AudioEndpoint.h:169-182 | Without `canFillInputRing` nothing changes. Otherwise the raw frames (no input converter) or the converted frames are written to the input ring, cut to its free space. |
| `Endpoints.AudioEndpoint.SubmitPCM` | src/core/AudioEndpoint.h:185-190 | Without `canDrainOutputRing` it returns 0 and reads nothing. Otherwise it returns min(frameCount, available) oldest output frames and removes them. It never returns more than frameCount. |
| `Endpoints.AudioEndpoint.MixPCM` | src/core/AudioEndpoint.h:193-215 | Without both flags it returns "invalid operation"; with an empty input ring it returns "no data". Either way both rings are unchanged. Otherwise the input ring is emptied. Its frames, or the converter's output when the converter succeeds, are written to the output ring and cut to capacity. |
| `Endpoints.AsWrittenRingFramesBounds` | src/core/AudioEndpoint.h:102-103 | With the as-written divisor, every rate of at least 8 Hz yields a ring of only 8 to 15 frames. |
| `Endpoints.AsWrittenRingAt48k` | src/core/AudioEndpoint.h:240-243 | At 48000 Hz the as-written ring holds 8 frames, where the intended ring holds 6000. |
| `Endpoints.AsWrittenDivisorZero` | src/core/AudioEndpoint.h:240-243 | A rate below 8 Hz makes the as-written divisor 0. |
| `Streams.AudioStream.constructor` | src/core/AudioStream.h:7-11 | The stream's endpoint has the given format, `canFillInputRing == isSink` and `canDrainOutputRing == isSource`. |
| `Streams.AudioStream.PushToOutputRing` | src/core/AudioStream.h:13-15 | min(frameCount, free) frames are appended to the output ring, without a flag check. The input ring is untouched. |
| `Streams.AudioStream.PullFromInputRing` | src/core/AudioStream.h:17-19 | It returns the min(frameCount, available) oldest input frames and removes them, without a flag check. The output ring is untouched. |
| `Streams.AudioStreamInput.constructor` | src/input/AudioStreamInput.h:8 | A stream input is source-only (drains, does not fill) and has the given format. |
| `Streams.AudioStreamInput.SubmitPCM` | src/input/AudioStreamInput.h:9 | The submitted frames are queued on the output ring. Frames beyond the free space are dropped. |
| `Streams.AudioStreamOutput.constructor` | src/output/AudioStreamOutput.h:8 | A stream output is sink-only (fills, does not drain) and has the given format. |
| `Streams.AudioStreamOutput.ReceivePCM` | src/output/AudioStreamOutput.h:9 | It returns the min(n, available) oldest input-ring frames and removes them. The output ring is untouched. |
| `Streams.StreamInputRoundTrip` | src/input/AudioStreamInput.h:8-9 | After the as-written negotiation, frames that fit its ring of rate/(rate/8) frames, once submitted to a stream input, come back unchanged from the endpoint's `submitPCM`. The endpoint's `receivePCM` has no effect, and `mixPCM` is an invalid operation. |
| `Streams.StreamOutputRoundTrip` | src/output/AudioStreamOutput.h:8-9 | After the as-written negotiation, frames that fit its ring of rate/(rate/8) frames, once received by the endpoint, come back unchanged from the stream's `receivePCM`. `submitPCM` returns 0, and `mixPCM` is an invalid operation. |
| `Devices.AudioDevice.constructor` | src/device/AudioDevice.h:25-84 | A new device stores its id and kind. It starts asleep, with no engine or handle, an empty name, not default, the default format, and a default endpoint without neighbours, flags or negotiation. Nothing is promised about `deviceInfo`, which C++ leaves uninitialised. |
| `Devices.AudioDevice.WakeUp` | src/device/AudioDevice.h:34-59 | It returns the engine init result. On success the device is awake, holds the engine and the handle, and the endpoint takes the device format and is renegotiated; the ring fields that renegotiation does not reach (all of them when the converters fail, an unused ring, the output ring behind a failed input ring) keep their values. On failure the engine is released, the handle is cleared (the corrected line 54, second row under Findings) and `isAwake` is unchanged. |
| `Devices.AudioDevice.WakeUpAsWritten` | src/device/AudioDevice.h:34-59 | The code as written. On success the device is awake with the engine and handle, and the endpoint takes the device format and is renegotiated as written, with rings of rate/(rate/8) frames; the ring fields that renegotiation does not reach keep their values. A failed init releases the engine but keeps the old device handle (line 54). |
| `Devices.AudioDevice.Sleep` | src/device/AudioDevice.h:60-67 | Afterwards the device is asleep with no engine and no handle, whatever the state was before, so sleeping twice changes nothing. |
| `Devices.AudioDevice.EnsureAwake` | src/device/AudioDevice.h:69 | When already awake it succeeds and changes nothing. Otherwise it acts as `wakeUp`. |
| `Devices.AudioDevice.UpdateDevice` | src/device/AudioDevice.h:71-82 | It copies the name, the info and the default flag from the info. A new format becomes both the device format and the endpoint format, and renegotiation follows; the ring fields it does not reach keep their values. An equal format changes neither and leaves the endpoint untouched. |
| `Devices.AudioDevice.Destroy` | src/device/AudioDevice.h:85 | The destructor sleeps, so a destroyed device is asleep with no engine or handle. |
| `Devices.OnDeviceData` | src/device/AudioDevice.h:18-22 | The data callback is dispatched iff the user-data pointer is set. |
| `Devices.FailedRewakeReleasesHandle` | src/device/AudioDevice.h:34-59 | With the corrected `wakeUp`, a 48 kHz speaker whose re-wake fails stays awake but holds neither engine nor handle. |
| `Devices.EnumeratedSpeaker` | src/device/AudioDevice.h:71-84 | A new speaker updated to (f32, 2, 48000) is asleep with no engine or handle, has that device format and has no neighbours. |
| `Devices.FailedRewakeDanglingAsWritten` | src/device/AudioDevice.h:53-56 | As written, a 48 kHz speaker whose first wake-up built rings of 8 frames, re-woken with a failing init, stays awake and keeps its old handle with no engine behind it. |
| `Devices.WakeThenDestroy` | src/device/AudioDevice.h:34-85 | A 48 kHz speaker, whatever its wake-up outcome, is asleep with no engine or handle once destroyed. |
| `DeviceIds.LowercaseSpec` | src/utils/deviceid.h:8-11 | Lowercasing preserves length, maps A–Z to a–z and leaves every other character alone. No upper-case letter remains. |
| `DeviceIds.ToLowerInPlace` | src/utils/deviceid.h:8-11 | The in-place loop computes the lowercase of its input. |
| `DeviceIds.LeadFrom` | src/utils/deviceid.h:15 | The scan stops at the first non-space character at or after i. |
| `DeviceIds.TrailFrom` | src/utils/deviceid.h:16 | The backward scan stops just after the last non-space character before j. |
| `DeviceIds.LeadCount` | src/utils/deviceid.h:15 | The leading-whitespace length: all spaces before it, a non-space character at it. |
| `DeviceIds.TrailEnd` | src/utils/deviceid.h:16 | The trailing-whitespace cut: all spaces after it, a non-space character before it. |
| `DeviceIds.TrimInPlace` | src/utils/deviceid.h:13-17 | The erase-based trim computes the trimmed string. |
| `DeviceIds.TrimTailIsSpace` | src/utils/deviceid.h:13-17 | Everything trim drops at the end is whitespace. |
| `DeviceIds.TrimEnds` | src/utils/deviceid.h:13-17 | A trimmed string neither starts nor ends with whitespace. |
| `DeviceIds.TrimIsSlice` | src/utils/deviceid.h:13-17 | A trimmed string is one contiguous substring of its input. |
| `DeviceIds.TrimIdempotent` | src/utils/deviceid.h:13-17 | Trimming twice is the same as trimming once. |
| `DeviceIds.CollapseWsInPlace` | src/utils/deviceid.h:19-29 | The loop with its `in_ws` flag computes the collapsed string. |
| `DeviceIds.NonSpaceAppend` | src/utils/deviceid.h:19-29 | The non-space characters of a concatenation are those of each part, in order. |
| `DeviceIds.ExtendNonSpace` | src/utils/deviceid.h:22-26 | Emitting a pending space and a character adds only that character to the non-space content. |
| `DeviceIds.ExtendSingleSpaced` | src/utils/deviceid.h:22-26 | That emission keeps the output free of outer spaces and of double spaces. |
| `DeviceIds.CollapseFromSpacing` | src/utils/deviceid.h:19-29 | From a well-spaced output, the loop ends with no outer whitespace and single spaces only. |
| `DeviceIds.NonSpaceStep` | src/utils/deviceid.h:22-26 | One non-space step of the loop preserves the non-space content of output plus remaining input. |
| `DeviceIds.CollapseFromNonSpace` | src/utils/deviceid.h:19-29 | The loop keeps every non-space character, in order. |
| `DeviceIds.CollapseWsShape` | src/utils/deviceid.h:19-29 | Collapsing keeps the non-space characters in order, leaves no leading or trailing whitespace, and leaves every interior gap as exactly one space. |
| `DeviceIds.WordEnd` | src/utils/deviceid.h:19-29 | A word runs up to the next whitespace character or the end. |
| `DeviceIds.WordEndShift` | src/utils/deviceid.h:19-29 | A word that starts at position 0 ends one character later than the same word started at position 1. |
| `DeviceIds.JoinCons` | src/utils/deviceid.h:19-29 | Joining puts exactly one space between consecutive words. |
| `DeviceIds.JoinWordsSingle` | src/utils/deviceid.h:19-29 | A one-letter first word joins as that letter followed by the rest. |
| `DeviceIds.JoinPrepend` | src/utils/deviceid.h:19-29 | Growing the first word by a letter grows the joined string by that letter. |
| `DeviceIds.WordsCons` | src/utils/deviceid.h:19-29 | Splitting at a non-space start yields the first word followed by the words of the rest. |
| `DeviceIds.WordsShift` | src/utils/deviceid.h:19-29 | The first word of a string is its first letter followed by the first word of its tail. |
| `DeviceIds.JoinWordsLonger` | src/utils/deviceid.h:19-29 | Within a word, joining peels off one letter at a time. |
| `DeviceIds.CollapseFromWords` | src/utils/deviceid.h:19-29 | From any loop state, collapsing the rest appends the rest's words joined by single spaces. A separating space comes first only where the state calls for one. |
| `DeviceIds.CollapseWsIsJoinedWords` | src/utils/deviceid.h:19-29 | Collapsing whitespace is the same as splitting into words and joining them with single spaces. |
| `DeviceIds.StripNonprintableInPlace` | src/utils/deviceid.h:31-34 | The erase/remove_if loop computes the printable subsequence. |
| `DeviceIds.StripCons` | src/utils/deviceid.h:31-34 | Stripping keeps a leading printable character and drops a leading non-printable one. |
| `DeviceIds.StripAppend` | src/utils/deviceid.h:31-34 | Stripping a concatenation strips each part. |
| `DeviceIds.StripOnlyPrintable` | src/utils/deviceid.h:31-34 | Only printable characters survive stripping. |
| `DeviceIds.StripKeepsPrintable` | src/utils/deviceid.h:31-34 | Every printable character of the input survives stripping. |
| `DeviceIds.StripPrintableIdentity` | src/utils/deviceid.h:31-34 | A fully printable string is unchanged by stripping. |
| `DeviceIds.StripSpec` | src/utils/deviceid.h:31-34 | Stripping yields exactly the printable characters: none other survives, each one is kept, and a printable string is unchanged. |
| `DeviceIds.Digits` | src/utils/deviceid.h:67-70 | `std::to_string` of a natural number is a non-empty run of decimal digits. |
| `DeviceIds.DigitsRoundTrip` | src/utils/deviceid.h:67-70 | Reading the decimal string back gives the number. |
| `DeviceIds.HexBytes` | src/utils/deviceid.h:51-57 | Each byte contributes two characters. |
| `DeviceIds.HexDigitRoundTrip` | src/utils/deviceid.h:51-57 | Every hex digit written is a lowercase hex digit and reads back as its value. |
| `DeviceIds.HexByteRoundTrip` | src/utils/deviceid.h:51-57 | `%02x` writes two lowercase hex digits (zero-padded) that read back as the byte. |
| `DeviceIds.HexBytesSpec` | src/utils/deviceid.h:51-57 | In the DirectSound id text, positions 2i and 2i+1 are the lowercase hex digits of byte i. |
| `DeviceIds.KeyShape` | src/utils/deviceid.h:117-122 | A key is tag + ":" + sanitised id + "_" + device-type digit. It starts with the tag, has ':' after it and ends with the digit. |
| `DeviceIds.NormalizeFailures` | src/utils/deviceid.h:41-88 | `normalizeDeviceId` fails iff the out-pointer is null, the backend is unsupported or the raw id is empty. A DirectSound raw id is 32 characters. |
| `DeviceIds.LowercaseKeepsSpacing` | src/utils/deviceid.h:90-93 | Lowercasing a printable, well-spaced string keeps it printable and well spaced, and removes every upper-case letter. |
| `DeviceIds.SanitizeShape` | src/utils/deviceid.h:90-93 | The sanitised id is printable and has no upper-case letter, no outer whitespace and no double space. |
| `DeviceIds.NormalizeKeyShape` | src/utils/deviceid.h:88-122 | On success the id is the key built from the backend's tag, the sanitised raw id and the device type. |
| `DeviceIds.CollapsePrintable` | src/utils/deviceid.h:19-29 | Collapsing whitespace introduces no non-printable character. |
| `DeviceIds.KeysOfDifferentTypesDiffer` | src/utils/deviceid.h:117-122 | Ids normalised for different device types never collide. |
| `DeviceIds.WhitespaceOnlyIdSucceeds` | src/utils/deviceid.h:88-93 | The emptiness check runs before sanitising, so an all-space ALSA id still succeeds as `alsa:_1`. |
| `DeviceLoops.SelectBestFormat` | src/utils/deviceloops.h:22-71 | The nested selection loop computes the fold of the selection rule over the native formats. |
| `DeviceLoops.FirstUsable` | src/utils/deviceloops.h:34-35 | Locates the first candidate with a known format and a nonzero rate. |
| `DeviceLoops.FirstUsableOfExtension` | src/utils/deviceloops.h:27-71 | Appending a candidate moves the first usable position only when none was usable before. |
| `DeviceLoops.SelectUnknownIffNoneUsable` | src/utils/deviceloops.h:22-35 | The selection stays at the unknown format iff no candidate is usable. The initial 44100/2 never counts as a choice. |
| `DeviceLoops.ChosenFormatExtends` | src/utils/deviceloops.h:44-49 | The chosen format switches to f32 on the first usable f32 candidate and otherwise stays. |
| `DeviceLoops.ChoiceTaken` | src/utils/deviceloops.h:41-70 | A usable candidate that beats the current best becomes the choice. |
| `DeviceLoops.ChoiceKept` | src/utils/deviceloops.h:41-70 | A candidate that does not beat the current best leaves the choice as it was. |
| `DeviceLoops.ChoiceStep` | src/utils/deviceloops.h:41-70 | Each loop step keeps the selection equal to a valid choice. |
| `DeviceLoops.SelectionIsChoice` | src/utils/deviceloops.h:44-70 | When a usable candidate exists, the selection is exactly one of the candidates. It has the chosen format, and among usable candidates of that format it is the lexicographic maximum of (rate, channels, exclusive). The earliest candidate wins ties. |
| `DeviceLoops.ChosenFormatRule` | src/utils/deviceloops.h:44-49 | The chosen format is f32 iff some usable candidate is f32. Otherwise it is the first usable candidate's format. |
| `DeviceLoops.DeliverOne` | src/utils/deviceloops.h:14-78 | One iteration of the outer loop forwards a device exactly when the reference delivery rule does. |
| `DeviceLoops.DeliveriesStep` | src/utils/deviceloops.h:9-79 | Appending the delivery for one more device extends the deliveries of the prefix. |
| `DeviceLoops.LoopDevicesQuerying` | src/utils/deviceloops.h:9-79 | The outer loop calls back once per delivered device, in enumeration order. |
| `DeviceLoops.LoopDevices` | src/utils/deviceloops.h:9-79 | With the query made for the enumerated device type, the deliveries follow the reference rule. |
| `DeviceLoops.LoopDevicesAsWritten` | src/utils/deviceloops.h:14 | As written, every device is queried as a playback device. |
| `DeviceLoops.DeliveriesAppend` | src/utils/deviceloops.h:9-79 | Deliveries over two device lists are the deliveries of each list, concatenated. |
| `DeviceLoops.DeliveriesBound` | src/utils/deviceloops.h:9-79 | The callback runs at most once per enumerated device. |
| `DeviceLoops.DeliveryRules` | src/utils/deviceloops.h:14-78 | A device is forwarded iff its query succeeds, it has native formats, some format is usable and its id normalises. A delivery carries the queried info, the normalised id and a (format, rate, channels) that is one valid choice. |
| `DeviceLoops.DeliveredIdsCarryType` | src/utils/deviceloops.h:74-78 | Every delivered id ends with the digit of the enumerated device type. |
| `DeviceLoops.DeliveredIdsAre` | src/utils/deviceloops.h:74-78 | Every delivered id is the normalisation of its device's raw id. |
| `DeviceLoops.PlaybackQueryLosesCaptureDevice` | src/utils/deviceloops.h:14 | A microphone that only answers capture queries is dropped by the as-written playback query and delivered by the device-type query. |
| `Registry.DeliveredIdsSnoc` | src/SoundIO.h:60-84 | One more delivery adds its id to the delivered set. It becomes the last default iff it reports default. |
| `Registry.LastWith` | src/SoundIO.h:70-80 | The last delivery with an id carries that id: its values are what the refresh leaves under the key. |
| `Registry.LastWithDelivered` | src/SoundIO.h:70-80 | The last delivery with an id is one of the deliveries. |
| `Registry.LastWithSnoc` | src/SoundIO.h:70-80 | One more delivery becomes the last one for its own id and leaves every other id's last delivery unchanged. |
| `Registry.RegistersAdvance` | src/SoundIO.h:70-83 | Registering one more delivery, with no other key changed, keeps every delivered id showing its last delivery. |
| `Registry.KeptAdvance` | src/SoundIO.h:70-83 | A start key that the next delivery does not touch keeps its device and what it shows. |
| `Registry.SoundIO.constructor` | src/SoundIO.h:41-58 | The static state starts uninitialised, with an empty map and empty default ids. |
| `Registry.SoundIO.AddDevice` | src/SoundIO.h:95-98 | The device is stored under its id, replacing any previous entry. No other entry changes. |
| `Registry.SoundIO.RemoveDevice` | src/SoundIO.h:100-104 | The key is deleted if present; otherwise nothing changes. No other entry changes. |
| `Registry.SoundIO.GetDeviceById` | src/SoundIO.h:109-112 | The result is null iff the id is not a key. Otherwise it is that entry. |
| `Registry.SoundIO.LookupFindsOwnId` | src/SoundIO.h:95-112 | A device found under an id carries that id. |
| `Registry.SoundIO.GetAllDevices` | src/SoundIO.h:114-120 | One pointer per map entry: as many as entries, every result registered, every entry present. |
| `Registry.SoundIO.DevicesOfKind` | src/SoundIO.h:122-138 | The filtered vector holds exactly the registered devices of one kind, each once. |
| `Registry.SoundIO.GetAllMicrophones` | src/SoundIO.h:122-129 | Exactly the registered microphones, each once. |
| `Registry.SoundIO.GetAllSpeakers` | src/SoundIO.h:131-138 | Exactly the registered speakers, each once. |
| `Registry.SoundIO.DefaultLookups` | src/SoundIO.h:140-146 | A default getter returns a device iff the id is non-empty and registered for a device of that kind. That device has the default id. |
| `Registry.SoundIO.FindOrCreate` | src/SoundIO.h:70-78 | A device of the right kind under the id is reused and the map is unchanged. Otherwise a failing creation changes nothing, and a successful one adds a fresh device under the id. |
| `Registry.SoundIO.HandleDeviceLoop` | src/SoundIO.h:60-84 | A device is created only when the lookup fails. A null creation changes nothing. Otherwise the key set grows by at most this id, other entries keep their values, and the device is updated from the info. The default out-parameter is set iff the device reports default. |
| `Registry.SoundIO.HandleDelivery` | src/SoundIO.h:248-260 | Handling one delivered device adds its id to the keys, and the device under that id shows the delivery's kind, name, info, default flag and format. Every other entry keeps its device and what it shows. The device becomes the running default iff it reports default. |
| `Registry.SoundIO.HandleNext` | src/SoundIO.h:248-260 | One more delivery extends the pass: the keys are the start keys plus the delivered ids, every delivered id shows its last delivery, every other start key is kept, and the running default is the last default delivered. |
| `Registry.SoundIO.KeysAdvance` | src/SoundIO.h:248-260 | One more delivery adds its id to the key set and becomes the last default iff it reports default. |
| `Registry.SoundIO.HandleAll` | src/SoundIO.h:248-276 | Over a pass, the keys gain exactly the delivered ids, and each delivered id shows a device of the pass's kind that reflects its last delivery. Other entries keep their device and view. The last default in enumeration order wins. |
| `Registry.SoundIO.RefreshPass` | src/SoundIO.h:248-276 | A pass over one device list adds exactly the ids its loop delivers, each showing its last delivery. It returns the last delivered default, or none. |
| `Registry.SoundIO.AdoptDefaults` | src/SoundIO.h:280-284 | A default id is overwritten only when a default device was observed. Otherwise the previous id is kept. |
| `Registry.SoundIO.RefreshDevices` | src/SoundIO.h:233-287 | The map is cleared first. The keys end as exactly the ids delivered by the speaker and microphone loops, and every device is fresh. A microphone id holds a microphone that reflects its last delivery; any other id holds a speaker that reflects its last delivery. Each default id moves to the last default observed of its kind, or else stays. |
| `Registry.SoundIO.RebuildMap` | src/SoundIO.h:246-276 | The clear and the two passes: the map is exactly the delivered ids with the devices a refresh leaves, and each pass returns its last default device, or none. |
| `Registry.SoundIO.Initialize` | src/SoundIO.h:215-231 | When already initialised it returns "no message" with no effect. A failing context init is returned with no change. The null backend is recorded and reported as "backend not enabled", with the map, the default ids and the initialised flag unchanged. Otherwise it refreshes, records the backend and becomes initialised. |
| `Registry.SoundIO.Shutdown` | src/SoundIO.h:88-92 | Shutdown always reports success. |
| `Registry.SoundIO.OnDeviceChange` | src/SoundIO.h:46-55 | A null device gives "invalid args" with no change. Otherwise the devices are refreshed. |

## Left out

- The miniaudio library itself. These are inputs to the model: engine and device
  initialisation, `ma_context_get_devices`, `ma_context_get_device_info`, the success of
  converter and ring-buffer initialisation, and the converter's output frames. `ma_pcm_rb` is a
  bounded FIFO with a nondeterministic chunk size. Resampling and channel mixing are not modelled.
- Frames are opaque values. The byte sizing of the temporary buffers and the `fmt` argument of
  `writeRing`/`readRing` are not modelled.
- Threading: the real-time `dataCallback` dispatch (the base version does nothing) and the driver thread.
- The wide-string conversion of WASAPI ids (`wcstombs`). The WASAPI id is an opaque string.
- The sorted order of `std::map` iteration in `getAll*`.
- Memory management: the `unique_ptr` ownership, the device destructor on removal (the registry
  drops devices without their destructor's `sleep`), leaks on re-initialisation, and the endpoint
  destructor at src/core/AudioEndpoint.h:248-253, which only releases foreign resources.
- `registerNode`, the node list and the empty `create*` factories (src/SoundIO.h:149-212). Also
  left out: file codecs, the player, bindings, and the speaker/microphone subclass overrides.
- The hook methods of the endpoint (src/core/AudioEndpoint.h:217-224): `handleMixPCM` and the
  `when*` hooks are the base versions. Endpoint subscription is not wired into the node hooks.
- The neighbours of an endpoint are two optional formats, because `inputNode`, `outputNode` and
  their `audioFormat` are not declared on `AudioNode`.
- `addDevice` takes any device; its source signature names the speaker class.
- The static members of `SoundIO` are one object. `onDeviceInit` and `onDeviceUninit` are the
  single method `OnDeviceChange`, because their bodies are identical.
- Tests of character-array fields against null are always true and are not modelled. A
  DirectSound id is assumed to be 16 bytes.
- The enumeration callback is a precomputed list of deliveries, because the query is a pure
  function of the device.
- `Registry.SoundIO.GetAllDevices`: states one pointer per entry but not the key order.
- `Endpoints.AudioEndpoint.RenegotiateAsWritten`: requires rates of at least 8 Hz, even when the
  converters fail and the source returns before dividing. Below 8 Hz the code as written divides by
  zero once the converters build (see Findings).
- WakeUp: renegotiates with the corrected divisor 8 (first row under Findings), so its rings hold
  rate/8 frames. As written they hold rate/(rate/8) frames, which is 8 to 15. A rate in use below
  8 Hz divides by zero in the source; here it negotiates. `WakeUpAsWritten` makes the written call.
  It also clears `internalDevice` on a failed init (second row under Findings); as written the old
  handle stays. `WakeUpAsWritten` keeps it.
- EnsureAwake: wakes through `WakeUp`, so the same ring-size difference applies, and a failed init
  clears `internalDevice` where the code as written keeps the old handle.
- UpdateDevice: renegotiates with the corrected divisor, as `WakeUp` does. A new rate below 8 Hz
  divides by zero in the source; here it negotiates. It also copies the name whole, where
  `std::string(deviceInfo.name)` stops at the first NUL character.
- FailedRewakeReleasesHandle: reaches its device through `UpdateDevice` and `WakeUp`, so its rings
  are the corrected ones. Its contract is about the awake flag, engine and handle only.
- WakeThenDestroy: reaches its device through `UpdateDevice` and `EnsureAwake`, so its rings are the
  corrected ones. Its contract is about the state after the destructor only.
- OnDeviceData: states only that dispatch happens iff the user pointer is set. The virtual
  `dataCallback` it dispatches to runs on the driver thread and is not modelled.
- RefreshPass: delivers through the corrected `LoopDevices`, which queries each device with its own
  type (third row under Findings). As written every device is queried as playback, so a microphone
  that only answers capture queries is delivered here but dropped by the source.
- RebuildMap: its microphone pass uses the capture query through `RefreshPass`, not the source's
  playback query.
- RefreshDevices: its microphone keys and devices come from `RefreshPass` with the capture query,
  not the source's playback query.
- Initialize: states the keys and devices after a successful start, with the capture query for
  microphones as in `RefreshDevices`, but not the default ids.
- OnDeviceChange: states the keys and devices after a refresh, with the capture query for
  microphones as in `RefreshDevices`, but not the default ids.
- `Registry.SoundIO.RefreshDevices` always succeeds. In the source `result` is never reassigned,
  so the checks at src/SoundIO.h:262 and :278 never return early.

## Findings

| source | as written | input that shows it | evidently intended | confidence | as-written member | corrected member |
|---|---|---|---|---|---|---|
| src/core/AudioEndpoint.h:240-243 | `renegotiate` passes `sampleRate / 8` as the divisor of `initializeRings`, which divides the rate by it again (lines 102-103) | a 48000 Hz endpoint: each ring holds 48000 / 6000 = 8 frames; a rate below 8 Hz divides by zero | rings of rate / 8 frames (6000 at 48000 Hz) | not executed | `Endpoints.AudioEndpoint.RenegotiateAsWritten`, `Endpoints.AsWrittenRingAt48k` | `Endpoints.AudioEndpoint.Renegotiate` |
| src/device/AudioDevice.h:54 | `internalDevice == nullptr;` is a comparison with no effect | an awake device re-woken with a failing engine init: the engine is released but the old handle stays | clear the handle with the engine | not executed | `Devices.FailedRewakeDanglingAsWritten` | `Devices.FailedRewakeReleasesHandle` |
| src/utils/deviceloops.h:14 | the detailed-info query always uses `ma_device_type_playback` | a capture-only microphone: the playback query fails, so the device never reaches the callback | query with the enumerated device type | not executed | `DeviceLoops.PlaybackQueryLosesCaptureDevice` | `DeviceLoops.LoopDevices` |
