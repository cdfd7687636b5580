/**
 * The earlier revision in `src/index.ts`, where it differs from the current
 * one: streams are registered by device id (and never in fact registered),
 * the granted handler only upserts devices, `startCamera` requests the
 * caller's constraints as given, and `getPreferredCamera` logs its input.
 */
module IndexRevision {
  import opened Wrappers
  import opened Seqs
  import opened Media
  import opened Enums
  import opened ErrorMapper
  import opened Rules
  import opened Classifier
  import opened Events
  import opened Browser

  /** `getMediaDeviceByStream(stream).videoDeviceId?.deviceId`: the device id of the first video track, if any. */
  function VideoTrackDeviceId(stream: MediaStream): (r: Option<string>)
    ensures r.None? <==> forall i :: 0 <= i < |stream.tracks| ==> stream.tracks[i].kind != "video"
    ensures r.Some? ==>
      exists i :: 0 <= i < |stream.tracks| && stream.tracks[i].kind == "video"
        && r.value == stream.tracks[i].settings.deviceId
        && forall j :: 0 <= j < i ==> stream.tracks[j].kind != "video"
  {
    match Find(stream.tracks, (t: MediaStreamTrack) => t.kind == "video")
    case None => None
    case Some(t) => Some(t.settings.deviceId)
  }

  /**
   * What `permissionGrantedHandler` returns in this revision: every success
   * is accepted in state `Granted`, tracks or not; a failure is a device in
   * use with an unknown retry.
   */
  function IndexGrantedStateHandler(request: CameraRequest): (r: CameraDecision)
    ensures r.AcceptedWrapper? <==> request.Succeeded?
    ensures r.AcceptedWrapper? ==> r.permissionState == Granted && r.accepted == request.success
    ensures r.DeniedWrapper? ==>
      r.denied == request.failure.(mappedError := InUse) && r.retryable == RetryUnknown
      && r.deniedBy == DeniedReasonFor(request.Duration()) && r.permissionState == request.PostRequest()
  {
    match request
    case Succeeded(s) => AcceptedWrapper(Granted, s)
    case Failed(f) =>
      DeniedWrapper(DeniedReasonFor(f.duration), RetryUnknown, f.permissionState.postRequest, f.(mappedError := InUse))
  }

  /** The two revisions' granted handlers return the same except for a success whose stream has no track. */
  lemma GrantedRevisionsDifferOnTracklessStreams(request: CameraRequest)
    ensures GrantedStateHandler(request) != Wrapped(IndexGrantedStateHandler(request)) <==>
      request.Succeeded? && request.success.stream.tracks == []
  {
  }

  /** What `startCamera` passes to the request: the caller's constraints, or the default of the request wrapper. */
  function IndexRequestConstraints(constraints: Option<Constraints>): (r: Constraints)
    ensures constraints.Some? ==> r == constraints.value
    ensures constraints.None? ==> r == DefaultRequestConstraints
  {
    constraints.GetOr(DefaultRequestConstraints)
  }

  /** The id never reaches the request, while the current revision always pins a given id. */
  lemma IdIgnoredInThisRevision(id: string, constraints: Option<Constraints>)
    requires id != ""
    ensures RequestedDevice(MergeConstraints(Some(id), constraints)) == Some(id)
    ensures RequestedDevice(IndexRequestConstraints(constraints)) ==
      (if constraints.Some? then RequestedDevice(constraints.value) else None)
  {
  }

  class CameraPermissionHandler {
    var onLoadPermissionResult: Option<OnLoadResult>
    var videoDevices: map<string, DeviceInfo>
    /** Streams by device id; nothing in this revision adds an entry. */
    var activeStreams: map<string, MediaStream>
    const events: EventBus
    var trackOps: seq<TrackOp>
    var mediaRequests: seq<Constraints>

    predicate Valid()
      reads this, events
    {
      events.Valid() && events.registry == FullRegistry
    }

    constructor()
      ensures Valid() && fresh(events)
      ensures onLoadPermissionResult == None && videoDevices == map[] && activeStreams == map[]
      ensures events.listeners == (map e | e in FullRegistry :: []) && events.delivered == []
      ensures trackOps == [] && mediaRequests == []
    {
      onLoadPermissionResult := None;
      videoDevices := map[];
      activeStreams := map[];
      events := new EventBus(FullRegistry);
      trackOps := [];
      mediaRequests := [];
    }

    /** `on`. */
    method On(eventName: EventName, listener: Listener)
      requires Valid()
      modifies events
      ensures Valid()
      ensures events.listeners == old(events.listeners)[eventName := old(events.listeners)[eventName] + [listener]]
      ensures events.delivered == old(events.delivered)
    {
      assert eventName in FullRegistry;
      events.On(eventName, listener);
    }

    /** `emit`. */
    method Emit(eventName: EventName, data: EventData)
      requires Valid()
      modifies events
      ensures Valid()
      ensures events.listeners == old(events.listeners)
      ensures events.delivered == old(events.delivered) + Notifications(events.listeners, eventName, data)
    {
      assert eventName in FullRegistry;
      events.Emit(eventName, data);
    }

    /** `devices.forEach(dev => this.videoDevices.set(dev.deviceId, dev))`. */
    method UpsertDevices(devices: seq<DeviceInfo>)
      modifies this
      ensures videoDevices == Upsert(old(videoDevices), devices)
      ensures activeStreams == old(activeStreams) && onLoadPermissionResult == old(onLoadPermissionResult)
      ensures trackOps == old(trackOps) && mediaRequests == old(mediaRequests)
    {
      var i := 0;
      while i < |devices|
        invariant 0 <= i <= |devices|
        invariant videoDevices == Upsert(old(videoDevices), devices[..i])
        invariant activeStreams == old(activeStreams) && onLoadPermissionResult == old(onLoadPermissionResult)
        invariant trackOps == old(trackOps) && mediaRequests == old(mediaRequests)
      {
        UpsertSnoc(old(videoDevices), devices[..i], devices[i]);
        assert devices[..i + 1] == devices[..i] + [devices[i]];
        videoDevices := videoDevices[devices[i].deviceId := devices[i]];
        i := i + 1;
      }
      assert devices[..i] == devices;
    }

    /** `stream.getTracks().forEach(track => track.stop())`. */
    method StopTracks(tracks: seq<MediaStreamTrack>)
      modifies this
      ensures trackOps == old(trackOps) + StopAll(tracks)
      ensures videoDevices == old(videoDevices) && activeStreams == old(activeStreams)
      ensures onLoadPermissionResult == old(onLoadPermissionResult) && mediaRequests == old(mediaRequests)
    {
      var i := 0;
      while i < |tracks|
        invariant 0 <= i <= |tracks|
        invariant trackOps == old(trackOps) + StopAll(tracks[..i])
        invariant videoDevices == old(videoDevices) && activeStreams == old(activeStreams)
        invariant onLoadPermissionResult == old(onLoadPermissionResult) && mediaRequests == old(mediaRequests)
      {
        assert StopAll(tracks[..i + 1]) == StopAll(tracks[..i]) + [StopTrack(tracks[i].id)];
        trackOps := trackOps + [StopTrack(tracks[i].id)];
        i := i + 1;
      }
      assert tracks[..i] == tracks;
    }

    /** `getPreferredCamera` of this revision: log the list as JSON, then choose as the current revision does. */
    method GetPreferredCameraLogged(devices: seq<DeviceInfo>) returns (r: Option<PreferredCamera>)
      requires Valid()
      modifies events
      ensures Valid()
      ensures r == GetPreferredCamera(devices)
      ensures events.listeners == old(events.listeners)
      ensures events.delivered == old(events.delivered) + Notifications(events.listeners, Log, LogJson(devices))
    {
      Emit(Log, LogJson(devices));
      r := GetPreferredCamera(devices);
    }

    /** `permissionGrantedHandler` of this revision: a success upserts the devices and announces the map; no stream is registered. */
    method PermissionGrantedHandler(request: CameraRequest) returns (r: CameraDecision)
      requires Valid()
      modifies this, events
      ensures Valid()
      ensures r == IndexGrantedStateHandler(request)
      ensures request.Succeeded? ==>
        videoDevices == Upsert(old(videoDevices), request.success.devices)
        && events.delivered == old(events.delivered) + Notifications(events.listeners, DeviceListUpdate, DeviceMap(videoDevices))
      ensures request.Failed? ==> videoDevices == old(videoDevices) && events.delivered == old(events.delivered)
      ensures activeStreams == old(activeStreams) && events.listeners == old(events.listeners)
      ensures onLoadPermissionResult == old(onLoadPermissionResult)
      ensures trackOps == old(trackOps) && mediaRequests == old(mediaRequests)
    {
      match request
      case Succeeded(s) =>
        UpsertDevices(s.devices);
        Emit(DeviceListUpdate, DeviceMap(videoDevices));
        return AcceptedWrapper(Granted, s);
      case Failed(f) =>
        return DeniedWrapper(DeniedReasonFor(f.duration), RetryUnknown, f.permissionState.postRequest, f.(mappedError := InUse));
    }

    /**
     * `startCamera` of this revision: the `initalConstraints` it builds are
     * never used, so `id` has no effect; the caller's constraints are
     * requested and the outcome dispatched.
     */
    method StartCamera(id: Option<string>, constraints: Option<Constraints>, b: BrowserState)
      returns (r: Settled<HandlerResult>)
      requires Valid()
      modifies this, events
      ensures Valid()
      ensures onLoadPermissionResult == old(onLoadPermissionResult) && activeStreams == old(activeStreams)
      ensures events.listeners == old(events.listeners) && trackOps == old(trackOps)
      ensures !b.mediaApiAvailable ==> r == Resolved(Failure(BrowserApiInaccessible))
      ensures b.mediaApiAvailable && NoVideoDevices(b.listing) ==> r == Resolved(Failure(NoDevices))
      ensures !Proceeds(b) ==> mediaRequests == old(mediaRequests) && videoDevices == old(videoDevices)
      ensures Proceeds(b) ==> mediaRequests == old(mediaRequests) + [IndexRequestConstraints(constraints)]
      ensures Proceeds(b) ==>
        var onLoadState := ProbePermission(b.onLoadQuery).state;
        match RequestVideoDevice(b.attempt, MapCameraError)
        case None => r == Rejected
        case Some(request) =>
          r == Resolved(if onLoadState == Granted then Wrapped(IndexGrantedStateHandler(request))
                        else Classify(onLoadState, request, old(onLoadPermissionResult), b.userAgent))
    ensures Proceeds(b) ==>
      var q := RequestVideoDevice(b.attempt, MapCameraError);
      if ProbePermission(b.onLoadQuery).state == Granted && q.Some? && q.value.Succeeded? then
        videoDevices == Upsert(old(videoDevices), q.value.success.devices)
        && events.delivered == old(events.delivered) + Notifications(events.listeners, DeviceListUpdate, DeviceMap(videoDevices))
      else
        videoDevices == old(videoDevices) && events.delivered == old(events.delivered)
    ensures !Proceeds(b) ==> events.delivered == old(events.delivered)
    {
      if !b.mediaApiAvailable {
        return Resolved(Failure(BrowserApiInaccessible));
      }
      var devices := GetVideoDevices(b.listing);
      if devices.ListingSucceeded? && |devices.devices| == 0 {
        return Resolved(Failure(NoDevices));
      }
      var onLoadState := ProbePermission(b.onLoadQuery).state;
      mediaRequests := mediaRequests + [IndexRequestConstraints(constraints)];
      var result := RequestVideoDevice(b.attempt, MapCameraError);
      if result.None? {
        return Rejected;
      }
      var request := result.value;
      match onLoadState
      case Denied => r := Resolved(Wrapped(DeniedStateHandler(request)));
      case Granted =>
        var decided := PermissionGrantedHandler(request);
        r := Resolved(Wrapped(decided));
      case Prompt => r := Resolved(Wrapped(PromptStateHandler(request, onLoadPermissionResult, b.userAgent)));
      case Error => r := Resolved(Wrapped(ErrorStateHandler(request)));
    }

    /**
     * `stopCameraStream`: with a track, remove it and change nothing else;
     * without one, stop every track and forget the entry under the first
     * video track's device id, if that id is set.
     */
    method StopCameraStream(stream: MediaStream, track: Option<MediaStreamTrack>)
      modifies this
      ensures track.Some? ==>
        trackOps == old(trackOps) + [RemoveTrack(stream.id, track.value.id)] && activeStreams == old(activeStreams)
      ensures track.None? ==> trackOps == old(trackOps) + StopAll(stream.tracks)
      ensures track.None? && Truthy(VideoTrackDeviceId(stream)) ==>
        activeStreams == old(activeStreams) - {VideoTrackDeviceId(stream).value}
      ensures track.None? && !Truthy(VideoTrackDeviceId(stream)) ==> activeStreams == old(activeStreams)
      ensures videoDevices == old(videoDevices) && onLoadPermissionResult == old(onLoadPermissionResult)
      ensures mediaRequests == old(mediaRequests)
    {
      var streamCameraId := VideoTrackDeviceId(stream);
      if track.None? {
        StopTracks(stream.tracks);
        if Truthy(streamCameraId) {
          activeStreams := activeStreams - {streamCameraId.value};
        }
        return;
      }
      trackOps := trackOps + [RemoveTrack(stream.id, track.value.id)];
    }

    /** `stopCameraStreamById`: `'not found'` without an entry; otherwise remove the track or stop them all, keeping the entry. */
    method StopCameraStreamById(cameraId: string, track: Option<MediaStreamTrack>) returns (r: Option<string>)
      modifies this
      ensures cameraId !in old(activeStreams) ==> r == Some("not found") && trackOps == old(trackOps)
      ensures cameraId in old(activeStreams) && track.Some? ==>
        r == None && trackOps == old(trackOps) + [RemoveTrack(old(activeStreams)[cameraId].id, track.value.id)]
      ensures cameraId in old(activeStreams) && track.None? ==>
        r == None && trackOps == old(trackOps) + StopAll(old(activeStreams)[cameraId].tracks)
      ensures activeStreams == old(activeStreams) && videoDevices == old(videoDevices)
      ensures onLoadPermissionResult == old(onLoadPermissionResult) && mediaRequests == old(mediaRequests)
    {
      if cameraId !in activeStreams {
        return Some("not found");
      }
      var res := activeStreams[cameraId];
      if track.Some? {
        trackOps := trackOps + [RemoveTrack(res.id, track.value.id)];
      } else {
        StopTracks(res.tracks);
      }
      return None;
    }
  }
}
