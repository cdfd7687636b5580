/**
 * The browser objects the handler passes around. They are opaque handles in
 * the browser; here they are values holding just the fields the handler reads.
 */
module Media {

  /** `MediaDeviceInfo` as `enumerateDevices()` reports it (`labelText` is its `label`). */
  datatype DeviceInfo = DeviceInfo(deviceId: string, kind: string, labelText: string)

  /** `MediaTrackSettings`; `deviceId` is the empty string when the settings carry none. */
  datatype TrackSettings = TrackSettings(deviceId: string)

  /** `MediaStreamTrack`: its id, its kind (`"video"`, `"audio"`) and what `getSettings()` returns. */
  datatype MediaStreamTrack = MediaStreamTrack(id: string, kind: string, settings: TrackSettings)

  /** `MediaStream`: its id and the tracks `getTracks()` returns, in order. */
  datatype MediaStream = MediaStream(id: string, tracks: seq<MediaStreamTrack>)

  /** One property of a `MediaTrackConstraints` object: `{exact: id}` for `deviceId`, any other value opaque. */
  datatype ConstraintValue = ExactDeviceId(id: string) | Setting(text: string)

  /** The `audio` or `video` member of `MediaStreamConstraints`. */
  datatype TrackConstraints =
    | Undefined
    | Flag(enabled: bool)
    | Fields(fields: map<string, ConstraintValue>)

  /** `MediaStreamConstraints`. */
  datatype Constraints = Constraints(audio: TrackConstraints, video: TrackConstraints)

  /**
   * `GlobalIdealCameraConstraints`: ideal height 1280, width 720, facing
   * mode "environment" and frame rate 60.
   */
  const IdealCameraConstraints: map<string, ConstraintValue> :=
    map["height" := Setting("{ideal: 1280}"), "width" := Setting("{ideal: 720}"),
        "facingMode" := Setting("{ideal: 'environment'}"), "frameRate" := Setting("{ideal: 60}")]

  /** What `requestVideoDevice` is given when its caller passes nothing: `{video: {...GlobalIdealCameraConstraints}}`. */
  const DefaultRequestConstraints := Constraints(Undefined, Fields(IdealCameraConstraints))
}
