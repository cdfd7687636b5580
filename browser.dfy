/**
 * What the handler gets from the browser, as values: the device listing, the
 * permission probes, the capture attempt and the user agent, and the calls it
 * makes on tracks. A promise that rejects is `Rejected`.
 */
module Browser {
  import opened Wrappers
  import opened Media
  import opened Enums
  import opened Rules

  /** How an `async` call settled: with a value, or with an exception. */
  datatype Settled<T> = Resolved(value: T) | Rejected

  /** What `enumerateDevices()` gave: every device, or an exception. */
  datatype Listing = Listed(devices: seq<DeviceInfo>) | ListingFailed(error: string)

  /** `getVideoDevices`: `{successful: true, result: <video inputs>}` or `{successful: false, result: String(e)}`. */
  datatype VideoListing = ListingSucceeded(devices: seq<DeviceInfo>) | ListingUnsuccessful(text: string)

  function GetVideoDevices(l: Listing): (r: VideoListing)
    ensures r.ListingSucceeded? <==> l.Listed?
    ensures r.ListingSucceeded? ==> r.devices == VideoInputs(l.devices)
    ensures r.ListingUnsuccessful? ==> r.text == l.error
  {
    match l
    case Listed(ds) => ListingSucceeded(VideoInputs(ds))
    case ListingFailed(e) => ListingUnsuccessful(e)
  }

  /** The listing succeeded and holds no video input: the `NoDevices` case. */
  predicate NoVideoDevices(l: Listing) {
    GetVideoDevices(l).ListingSucceeded? && GetVideoDevices(l).devices == []
  }

  /** Everything the browser answers during one `startCamera` or `initHandler` call. */
  datatype BrowserState = BrowserState(
    /** `navigator?.mediaDevices?.getUserMedia` is there. */
    mediaApiAvailable: bool,
    /** What `getVideoDevices` lists before the request. */
    listing: Listing,
    /** The probe that chooses the handler. */
    onLoadQuery: PermissionQuery,
    /** The run of `requestVideoDevice`. */
    attempt: Attempt,
    /** `navigator.userAgent`. */
    userAgent: string,
    /** `navigator.mediaDevices.ondevicechange === null`. */
    deviceChangeUnset: bool,
    /** `navigator.permissions.query` is there. */
    permissionQueryAvailable: bool)

  /** The capture goes ahead: the API is there, and the listing did not come back empty. */
  predicate Proceeds(b: BrowserState) {
    b.mediaApiAvailable && !NoVideoDevices(b.listing)
  }

  /** A call on a track: `track.stop()` or `stream.removeTrack(track)`. */
  datatype TrackOp = StopTrack(trackId: string) | RemoveTrack(streamId: string, trackId: string)

  /** `stream.getTracks().forEach(track => track.stop())`. */
  function StopAll(tracks: seq<MediaStreamTrack>): (r: seq<TrackOp>)
    ensures |r| == |tracks|
    ensures forall i :: 0 <= i < |r| ==> r[i] == StopTrack(tracks[i].id)
  {
    seq(|tracks|, i requires 0 <= i < |tracks| => StopTrack(tracks[i].id))
  }

  /** `getMediaDeviceByStream`: the settings of the stream's first track, `null` without one. */
  function FirstTrackSettings(stream: MediaStream): (r: Option<TrackSettings>)
    ensures r.None? <==> stream.tracks == []
    ensures r.Some? ==> r.value == stream.tracks[0].settings
  {
    if stream.tracks == [] then None else Some(stream.tracks[0].settings)
  }

  /** The `deviceId` of those settings, as the optional string `?.deviceId` reads. */
  function StreamDeviceId(stream: MediaStream): (r: Option<string>)
    ensures r.Some? <==> stream.tracks != []
    ensures r.Some? ==> r.value == stream.tracks[0].settings.deviceId
  {
    match FirstTrackSettings(stream)
    case None => None
    case Some(s) => Some(s.deviceId)
  }
}
