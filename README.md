# permissify camera-permission handler, modelled in Dafny

permissify wraps the browser's camera permission flow. It asks the
Permissions API for the `camera` state and requests a stream with
`getUserMedia`. It then classifies the outcome by the state seen before the
request, the state seen after it and the time the browser took to answer.
The result is an accepted wrapper, a denied wrapper that says who denied and
whether and how the user may retry, or a `CameraInitError` constant.

The handler keeps the known video devices and the streams it opened. It
notifies listeners through a small typed event registry. It can stop the
streams it opened.

The model covers three revisions of the handler:

- `src/handler.ts`, the current one (module `Handler`).
- `src/index.ts`, an earlier one (module `IndexRevision`).
- `src/CameraPermissionHandler.ts`, the oldest (module `LegacyRevision`).

The two older revisions reuse the shared model and add only the branches
where they differ.

Layout, with one module per file:

| file | contents |
|---|---|
| `wrappers.dfy` | `Option` |
| `seqs.dfy` | `findIndex`, `find` and last-match search |
| `text.dfy` | the JavaScript string operations used: `toLowerCase`, `includes`, `trim`, `split` |
| `media.dfy` | device, track, stream and constraint values |
| `enums.dfy` | the enum classes of `src/enums.ts` with `from`/`toString`, and the request and wrapper records |
| `error_mapper.dfy` | `cameraErrorMessageMapper` for both rule sets |
| `rules.dfy` | the denial threshold, the reload-button rule, `getPreferredCamera`, and the constraint merge |
| `rules.dfy` (cont.) | the permission probe, `requestVideoDevice`, the device upsert, and the cycling index |
| `classifier.dfy` | the four state handlers and the dispatch on the on-load state |
| `events.dfy` | `on`/`emit` over a registry fixed at construction |
| `browser.dfy` | what the browser answers during one call, and track operations |
| `handler.dfy` | the current handler |
| `index_revision.dfy` | the `index.ts` revision |
| `legacy_revision.dfy` | the `CameraPermissionHandler.ts` revision |

How effects are modelled:

- The handler classes are Dafny classes whose fields are the source's fields.
- Calls the handler makes into the browser are appended to trace fields:
  - `trackOps` records `track.stop()` and `stream.removeTrack(track)`;
  - `mediaRequests` records the constraints given to `getUserMedia`;
  - `events.delivered` records every listener call.
- What the browser answers arrives as a `BrowserState` or
  `LegacyBrowserState` parameter: the permission query result, the
  `enumerateDevices` listing, the `getUserMedia` outcome, the measured
  duration and the user agent.
- An asynchronous call ends `Resolved(value)` or `Rejected`.
  `Rejected` covers the two modelled throws:
  - the mapper's `.trim()` on `undefined`, when `String(e)` has no `':'`;
  - `getPreferredCamera` reading `videoDevices[0]` of an empty list.

## Model

| member | source | states |
|---|---|---|
| Enums.CameraInitErrorFrom | src/enums.ts:80-82 | `from(value)` returns the constant with that value, or nothing exactly when no constant has it |
| Enums.CameraInitErrorFromValue | src/enums.ts:67-87 | every constant is recovered from its own value (round trip through `from`) |
| Enums.CameraInitErrorsDistinct | src/enums.ts:70-77 | the eight constants have pairwise distinct values |
| Enums.CameraInitErrorsListed | src/enums.ts:70-77 | the list of constants contains every constructor |
| Enums.CameraInitError.ToString | src/enums.ts:84-86 | `toString` gives the value, and `from` maps it back to the same constant |
| Enums.DeniedReasonFrom | src/enums.ts:96-98 | `from` returns the matching reason, or nothing exactly when no reason has that value |
| Enums.DeniedReasonFromValue | src/enums.ts:89-105 | `from(r.value) == r` for both reasons |
| Enums.DeniedReasonsDistinct | src/enums.ts:89-105 | the reason values are distinct |
| Enums.DeniedReasonsListed | src/enums.ts:89-105 | the list of reasons is complete |
| Enums.DeniedReason.ToString | src/enums.ts:89-105 | `toString` gives the value and round-trips through `from` |
| Enums.PermissionStateFrom | src/enums.ts:116-118 | `from` returns the matching state, or nothing exactly when no state has that value |
| Enums.PermissionStateFromValue | src/enums.ts:107-125 | `from(s.value) == s` for the four states |
| Enums.PermissionStatesDistinct | src/enums.ts:107-125 | the state values are distinct |
| Enums.PermissionStatesListed | src/enums.ts:107-125 | the list of states is complete |
| Enums.PermissionState.ToString | src/enums.ts:107-125 | `toString` gives the value and round-trips through `from` |
| Enums.RetryableFrom | src/enums.ts:136-138 | `from` returns the matching retry kind, or nothing exactly when none has that value |
| Enums.RetryableFromValue | src/enums.ts:127-143 | `from(k.value) == k` for the four retry kinds |
| Enums.RetryablesDistinct | src/enums.ts:127-143 | the retry values are distinct |
| Enums.RetryablesListed | src/enums.ts:127-143 | the list of retry kinds is complete |
| Enums.Retryable.ToString | src/enums.ts:127-143 | `toString` gives the value and round-trips through `from` |
| Enums.FromValue | src/enums.ts:80-82 | the shared lookup behind every `from`: a hit has the asked value; a miss means no listed constant has it |
| Enums.FromValueOfConstant | src/enums.ts:80-82 | with distinct values, looking up a listed constant's value finds that constant |
| Enums.RetryPolicy.Value | src/enums.ts:39-51 | the retry value is `AfterReload` exactly for the reload shape |
| Enums.RetryPolicy.Detail | src/enums.ts:39-51 | only the reload shape carries a detail, and it is one of the two button texts |
| Enums.OnLoadResultOf | src/handler.ts:393-399 | the remembered on-load result holds the request it was built from, its duration and its post-request state |
| Events.Deliveries | src/handler.ts:29-33 | `emit` calls each listener once, in registration order, with the same payload |
| Events.DeliveriesSnoc | src/handler.ts:23-28 | a listener added by `on` is called after all earlier ones |
| Events.EventBus.On | src/handler.ts:23-28 | `on` appends the listener to its event's list and calls nobody |
| Events.EventBus.Emit | src/handler.ts:29-33 | `emit` leaves the registry as it is and appends exactly the calls to that event's listeners |
| ErrorMapper.ErrorDetail | src/handler.ts:141 | `split(':')[1].trim()` exists exactly when `String(e)` has a `':'` |
| ErrorMapper.MapCameraError | src/handler.ts:128-175 | for each outcome, the exact inputs that produce it: throw, unknown guard, overconstrained, denied, dismissed, in use; the original text is kept |
| ErrorMapper.LegacyMapCameraError | src/CameraPermissionHandler.ts:242-283 | the oldest mapper gives `InUse` only for a `NotReadableError` whose detail is "Device in use" |
| ErrorMapper.LegacyDiffersOnlyByStartFailed | src/handler.ts:160-165 | the two rule sets differ exactly on errors that only the start/failed rule calls `InUse`; the oldest says `UnknownError` there |
| ErrorMapper.SplitWithoutSeparator | src/handler.ts:141 | a string without `':'` splits into itself alone |
| ErrorMapper.SplitAtFirstSeparator | src/handler.ts:141 | with a `':'`-free `a`, splitting `a + ":" + b` gives `a` followed by the pieces of `b` |
| ErrorMapper.DetailOfNamedMessage | src/handler.ts:141 | when neither the name nor the message holds a `':'`, the detail of `"Name: message"` is the trimmed message |
| ErrorMapper.NamedMessageReachesNameTests | src/handler.ts:128-141 | an error printed as `"Name: message"` passes the guards and reaches the name tests |
| ErrorMapper.DeniedMessage | src/handler.ts:142-147 | a `NotAllowedError` whose message mentions "denied" maps to `PermissionDenied` |
| ErrorMapper.DismissedMessage | src/handler.ts:148-153 | a `NotAllowedError` whose text mentions "dismissed" and never "denied" maps to `PermissionDismissed` |
| ErrorMapper.DeviceInUseMessage | src/handler.ts:154-159 | a `NotReadableError` whose trimmed detail is "Device in use" maps to `InUse` |
| ErrorMapper.StartFailedMessage | src/handler.ts:160-165 | an error of any other name whose message mentions "start" and "failed" maps to `InUse` now and to `UnknownError` in the oldest mapper |
| ErrorMapper.UnnamedOverconstrained | src/handler.ts:130-140 | the name guard comes first: an unnamed `OverconstrainedError` is `UnknownError`, a named one `Overconstrained` |
| Rules.DeniedReasonFor | src/handler.ts:189-191 | `Browser` exactly when the answer came within the threshold, `User` exactly when later |
| Rules.ThresholdBoundary | src/handler.ts:189-191 | 200 ms is still a browser denial and 201 ms is a user denial |
| Rules.DeniedReasonMonotone | src/handler.ts:189-191 | a slower answer is never judged more browser-like than a faster one |
| Rules.ReloadButtonFromRules | src/handler.ts:176-188 | the browser button exactly when some rule matches the lowered user agent; otherwise "any" |
| Rules.ReloadButtonType | src/handler.ts:176-188 | the browser button exactly for a one-line Firefox user agent without mobile, tablet or android |
| Rules.GetPreferredCamera | src/handler.ts:97-126 | the first environment camera if any, else the first front camera, else the first device; nothing only for an empty list |
| Rules.MergeConstraints | src/handler.ts:257-300 | a truthy id is requested exactly; caller video fields are kept; without an id the caller's constraints, or `{video: true}`, go through as given |
| Rules.MergeIdempotent | src/handler.ts:257-300 | merging the same id again into a merged result changes nothing |
| Rules.ProbePermission | src/handler.ts:34-65 | Granted and Denied exactly for "granted" and "denied", Prompt for any other answer, Error with the message when the query throws |
| Rules.VideoInputs | src/handler.ts:207 | the filtered list holds exactly the `videoinput` devices |
| Rules.VideoInputsSingle | src/handler.ts:207 | one device is kept exactly when its kind is `videoinput` |
| Rules.VideoInputsConcat | src/handler.ts:207 | filtering a concatenation is the concatenation of the filtered parts, so order is kept |
| Rules.RequestVideoDevice | src/handler.ts:192-224 | a success carries the stream and exactly the filtered video inputs of the listing; a failure the mapped error; both carry the duration and post state; only a mapper throw escapes |
| Rules.Upsert | src/handler.ts:337-340 | the keys grow by exactly the listed ids; keys not listed keep their device |
| Rules.UpsertLastWins | src/handler.ts:337-340 | a listed device is stored unless a later device has the same id |
| Rules.UpsertFromListing | src/handler.ts:337-340 | every listed id maps to a listed device with that id |
| Rules.UpsertOverridesBase | src/handler.ts:337-340 | for a listed id, the stored device does not depend on what was there before |
| Rules.UpsertIdempotent | src/handler.ts:337-340 | upserting the same listing twice equals upserting it once |
| Rules.UpsertSnoc | src/handler.ts:337-340 | one more device costs one map update |
| Rules.NextIndex | src/CameraPermissionHandler.ts:177 | the next index wraps to 0 after the last and always stays in range |
| Classifier.DeniedStateHandler | src/handler.ts:451-472 | after a denied start, a success is accepted with the post state; a failure is final and denied by the browser |
| Classifier.GrantedStateHandler | src/handler.ts:417-450 | a success without tracks is `DeviceNotFound`; other successes are accepted; a failure keeps its error only if it is `InUse` and is always `Unknown`-retryable |
| Classifier.PromptStateHandler | src/handler.ts:473-546 | a failure is final exactly when the post state is Denied or the Firefox edge case holds; otherwise a fast answer asks for a reload with the button for this browser and a slow one may be retried |
| Classifier.ErrorStateHandler | src/handler.ts:547-567 | the state is always Error; a failure is `Unknown`-retryable and keeps its error |
| Classifier.Classify | src/handler.ts:401-414 | dispatch on the on-load state: `DeviceNotFound` only from the granted path, acceptance exactly on success |
| Classifier.InitMemoryMakesFastPromptFailureFinal | src/handler.ts:393-399 | after `initHandler` remembers a fast prompt failure, the same failure is final and not retryable |
| Classifier.InitAfterReloadOnlyOffPrompt | src/handler.ts:473-546 | when the memory holds the same failed request, a reload is asked only for a fast failure whose post state is neither Denied nor Prompt |
| Classifier.WithoutMemoryFastPromptFailureAsksForReload | src/handler.ts:503-514 | with nothing remembered, a fast prompt failure that is not denied asks for a reload |
| Classifier.EdgeCaseIgnoresRememberedOutcome | src/handler.ts:486-502 | the edge case reads only the remembered duration and state: even a remembered fast success makes a fast prompt failure final |
| Classifier.PostDeniedIsFinal | src/handler.ts:475-485 | a post state of Denied is final, with who denied decided by the threshold |
| Browser.GetVideoDevices | src/handler.ts:225-244 | a listing gives exactly its filtered video inputs; a failed listing keeps its error text |
| Browser.StopAll | src/handler.ts:77-79 | one `stop()` per track, in order |
| Browser.StreamDeviceId | src/handler.ts:245-249 | the device id of the stream's first track, and none for a stream without tracks |
| Handler.InitConstraints | src/handler.ts:329-332 | `initHandler` requests the caller's constraints, or the ideal camera constraints without audio |
| Handler.AfterDispatch | src/handler.ts:417-450 | the remembered request is the one made, except that a failure in the granted path has its error replaced by `InUse` |
| Handler.CameraPermissionHandler.On | src/handler.ts:23-28 | adds the listener to its event and calls nobody |
| Handler.CameraPermissionHandler.Emit | src/handler.ts:29-33 | calls exactly the listeners of that event |
| Handler.CameraPermissionHandler.UpsertDevices | src/handler.ts:337-340 | the device map becomes the upsert of the listing; nothing else changes |
| Handler.CameraPermissionHandler.StopTracks | src/handler.ts:77-79 | records one `stop()` per track and changes nothing else |
| Handler.CameraPermissionHandler.PermissionGrantedHandler | src/handler.ts:417-450 | returns the granted handler's result; on a success it upserts the devices, registers the stream under its id and emits the map once |
| Handler.CameraPermissionHandler.Dispatch | src/handler.ts:311-327 | returns the classification with the remembered on-load result; only the granted path registers anything |
| Handler.CameraPermissionHandler.StartCamera | src/handler.ts:250-328 | early errors without a request; otherwise one request with the merged constraints, the `"[object Object]"` log, then the classification or a rejection; the exact new device map, active streams and deliveries; the memory is never written |
| Handler.CameraPermissionHandler.RegisterListing | src/handler.ts:333-342 | a listing is upserted and emitted once; a failed listing changes nothing |
| Handler.CameraPermissionHandler.RememberAndDispatch | src/handler.ts:393-414 | remembers the request, as the granted handler leaves it, with its duration and post state, then classifies with that memory |
| Handler.CameraPermissionHandler.AnnounceWatchers | src/handler.ts:343-391 | exactly the two `log` notices, device watcher first: one when no `ondevicechange` handler is set, one when `permissions.query` exists |
| Handler.CameraPermissionHandler.InitHandler | src/handler.ts:329-415 | the early errors; otherwise the listing is registered, the watchers are logged, one request with the init constraints is made, the result is remembered and classified; the exact new device map, active streams and deliveries |
| Handler.CameraPermissionHandler.DeviceChangeWatcher | src/handler.ts:343-354 | on a device change the new listing is upserted and emitted; a failed listing changes nothing |
| Handler.CameraPermissionHandler.PermissionWatcher | src/handler.ts:355-391 | a status change reports the probed state and its detail to the status listeners |
| Handler.CameraPermissionHandler.StopCameraByStream | src/handler.ts:67-81 | `DeviceNotFound` when the first track has no device id; otherwise removes the given track or stops all tracks and forgets the stream |
| Handler.CameraPermissionHandler.StopCameraStreamById | src/handler.ts:82-96 | `DeviceNotFound` for an unknown id; otherwise removes the given track or stops all tracks; the registry is kept |
| IndexRevision.VideoTrackDeviceId | src/index.ts:345-349 | the device id of the first `video` track, and none when the stream has no video track |
| IndexRevision.IndexGrantedStateHandler | src/index.ts:597-623 | every success is accepted, even without tracks; a failure is `Unknown`-retryable |
| IndexRevision.GrantedRevisionsDifferOnTracklessStreams | src/index.ts:597-623 | the granted handlers of the two revisions differ exactly on successes without tracks |
| IndexRevision.IndexRequestConstraints | src/index.ts:350-387 | the caller's constraints or the ideal camera default, never the id |
| IndexRevision.IdIgnoredInThisRevision | src/index.ts:350-387 | the current revision requests the id exactly; this one requests only what the caller's constraints name |
| IndexRevision.CameraPermissionHandler.On | src/index.ts:124-134 | adds the listener to its event and calls nobody |
| IndexRevision.CameraPermissionHandler.Emit | src/index.ts:124-134 | calls exactly the listeners of that event |
| IndexRevision.CameraPermissionHandler.UpsertDevices | src/index.ts:597-602 | the device map becomes the upsert of the listing |
| IndexRevision.CameraPermissionHandler.StopTracks | src/index.ts:171-173 | one `stop()` per track |
| IndexRevision.CameraPermissionHandler.GetPreferredCameraLogged | src/index.ts:195-225 | logs the device list, then the current preferred-camera choice |
| IndexRevision.CameraPermissionHandler.PermissionGrantedHandler | src/index.ts:597-623 | on a success the devices are upserted and emitted; no stream is registered |
| IndexRevision.CameraPermissionHandler.StartCamera | src/index.ts:350-387 | like the current one, but it requests the caller's constraints and uses this revision's granted handler; the exact new device map and deliveries; streams are never registered |
| IndexRevision.CameraPermissionHandler.StopCameraStream | src/index.ts:168-180 | removes the given track, or stops all tracks and forgets the stream under its video device id when that is truthy |
| IndexRevision.CameraPermissionHandler.StopCameraStreamById | src/index.ts:181-194 | "not found" for an unknown id; otherwise removes the track or stops all tracks |
| LegacyRevision.EdgeCaseTestsDifferOnlyAtZero | src/CameraPermissionHandler.ts:434 | the inline edge-case test and the current one disagree exactly when the remembered duration is 0 |
| LegacyRevision.InlinePromptPath | src/CameraPermissionHandler.ts:400-484 | final exactly when the post state is Denied or the edge case holds; fast answers ask for a reload, slow ones may retry; retryable denials report the fresh probe |
| LegacyRevision.InlineStartCamera | src/CameraPermissionHandler.ts:361-485 | a Denied on-load state answers without a request; a mapper throw rejects; a granted failure resolves to `undefined`; a granted success is the accepted wrapper; a `Prompt` or `Error` state follows the prompt path; denials never carry `Unknown` |
| LegacyRevision.LegacyGrantedStateHandler | src/CameraPermissionHandler.ts:526-549 | a failure keeps its error and may be retried, with the post state and who denied |
| LegacyRevision.LegacyClassify | src/CameraPermissionHandler.ts:502-524 | `'unknown-state'` exactly for the Error state; otherwise a decision that accepts exactly on success |
| LegacyRevision.NoUnknownRetryInOldest | src/CameraPermissionHandler.ts:526-634 | no outcome of this revision is `Unknown`-retryable, while the current granted and error paths always are for failures |
| LegacyRevision.CameraPermissionHandler.On | src/CameraPermissionHandler.ts:118-131 | adds the listener to its event, among the two registered ones |
| LegacyRevision.CameraPermissionHandler.ReplaceDevices | src/CameraPermissionHandler.ts:393-394 | the device array becomes the listing, and its listeners are called once |
| LegacyRevision.CameraPermissionHandler.LastSelectedIndex | src/CameraPermissionHandler.ts:168-172 | the index of the last device whose id is the selected one, or none |
| LegacyRevision.CameraPermissionHandler.StartCamera | src/CameraPermissionHandler.ts:361-485 | returns the inline classification; devices are replaced exactly on acceptance; no request for a Denied on-load state |
| LegacyRevision.CameraPermissionHandler.CycleCamera | src/CameraPermissionHandler.ts:153-181 | selects the device after the current one, wrapping round, or the preferred one when nothing matches, then restarts without a device id; an empty list rejects after the JSON log; the exact new devices, selection, requests and deliveries |
| LegacyRevision.Lift | src/CameraPermissionHandler.ts:175-179 | `cycleCamera` returns what the restart returns, rejecting exactly when it rejects |
| LegacyRevision.CameraPermissionHandler.StartPreferred | src/CameraPermissionHandler.ts:173-176 | logs the devices as JSON, rejects an empty list, otherwise restarts with the effects of the inline `startCamera`; the selection is kept |
| LegacyRevision.CameraPermissionHandler.StartNext | src/CameraPermissionHandler.ts:177-179 | selects the next device, wrapping round, and restarts with the effects of the inline `startCamera` |
| LegacyRevision.CameraPermissionHandler.InitHandler | src/CameraPermissionHandler.ts:502-524 | one request with the caller's or default constraints; the result is remembered and classified without an error handler; the device list and its update notice only on a granted success |

## Left out

- The browser itself: `navigator.permissions`, `navigator.mediaDevices`, `performance.now()` and `navigator.userAgent` are not modelled. Their answers are parameters.
- Durations are whole milliseconds (`nat`), not the floating-point values `performance.now()` gives.
- Installing the two watchers is left out. Only what their callbacks do on one event is modelled.
- initHandler: the uncaught `permissions.query` that installs the permission watcher (src/handler.ts:358) is assumed to answer. Its throw, which would reject `initHandler` before the on-load probe (src/handler.ts:393) and before any request, is not modelled.
- Track and stream handles are opaque. `removeTrack` is recorded, but the stream values stored in `activeStreams` are not updated.
- `toLowerCase` folds only ASCII letters.
- The reload-button regular expression is stated as the predicates it stands for: contains, does not contain, no line terminator.
- Payloads are simplified:
  - `JSON.stringify(devices)` is modelled as the device list itself;
  - `String(constraints)` is its constant value `"[object Object]"`;
  - `emit` passes a snapshot of the device map, not a live reference.
- A listener that calls back into the handler while it is being notified is not modelled. Neither is `console.log`.
- The `initalConstraints` block of the two older `startCamera` versions is left out, because the request never uses it.
- The stop operations and `getPreferredCamera` of the oldest revision are left out. They repeat those of `src/index.ts`.
- An `enumerateDevices` failure inside `requestVideoDevice` is a failed request, exactly as the `try` block in the code treats it.
- Commented-out code and the compiled `dist/` files are left out.
- The oldest `getCameraPermissionState` (src/CameraPermissionHandler.ts:133-151) is the same probe as `Rules.ProbePermission`, without the detail.
- Concurrency between overlapping asynchronous calls is not modelled. Each call runs to completion on its own.
