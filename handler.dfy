/**
 * `CameraPermissionHandler` of the current revision: the registry of devices
 * and streams, the listener bus, the one-slot memory of the first request,
 * and the operations that update them.
 */
module Handler {
  import opened Wrappers
  import opened Media
  import opened Enums
  import opened ErrorMapper
  import opened Rules
  import opened Classifier
  import opened Events
  import opened Browser

  /** An `activeStreams` entry: the stream and the settings of its first track. */
  datatype ActiveStream = ActiveStream(stream: MediaStream, device: TrackSettings)

  /** `String(initalConstraints)` of any constraints object. */
  const ConstraintsLogLine := "[object Object]"

  const DeviceWatcherLogLine := "Installed camera-device-change watcher"
  const PermissionWatcherLogLine := "Installed camera-browser-permission watcher"

  /** The constraints `initHandler` requests when given none: `{video: GlobalIdealCameraConstraints}`. */
  function InitConstraints(constraints: Option<Constraints>): (r: Constraints)
    ensures constraints.Some? ==> r == constraints.value
    ensures constraints.None? ==> r.video == Fields(IdealCameraConstraints) && r.audio == Undefined
  {
    constraints.GetOr(DefaultRequestConstraints)
  }

  /** The request as the caller holds it after dispatch: the granted handler overwrites a failure's error with `InUse`. */
  function AfterDispatch(onLoadState: PermissionState, request: CameraRequest): (r: CameraRequest)
    ensures r.Succeeded? <==> request.Succeeded?
    ensures r.Duration() == request.Duration() && r.PostRequest() == request.PostRequest()
    ensures r != request <==> onLoadState == Granted && request.Failed? && request.failure.mappedError != InUse
    ensures onLoadState == Granted && request.Failed? ==> r == Failed(request.failure.(mappedError := InUse))
    ensures !(onLoadState == Granted && request.Failed?) ==> r == request
  {
    if onLoadState == Granted && request.Failed? then Failed(request.failure.(mappedError := InUse)) else request
  }

  /** The granted handler registers a request: it was dispatched as `Granted`, succeeded, and its stream has a track. */
  predicate Registers(onLoadState: PermissionState, request: CameraRequest) {
    onLoadState == Granted && request.Succeeded? && request.success.stream.tracks != []
  }

  /** `videoDevices` after the dispatch: a registered request upserts its listed devices. */
  function DevicesAfterDispatch(onLoadState: PermissionState, request: CameraRequest, m: map<string, DeviceInfo>)
    : map<string, DeviceInfo>
  {
    if Registers(onLoadState, request) then Upsert(m, request.success.devices) else m
  }

  /** `activeStreams` after the dispatch: a registered stream is stored under its id with its first track's settings. */
  function StreamsAfterDispatch(onLoadState: PermissionState, request: CameraRequest, a: map<string, ActiveStream>)
    : map<string, ActiveStream>
  {
    if Registers(onLoadState, request) then
      var s := request.success;
      a[s.stream.id := ActiveStream(s.stream, s.stream.tracks[0].settings)]
    else a
  }

  /** The listener calls of the dispatch: one announcement of the new device map, for a registered request only. */
  function DispatchNotifications(listeners: map<EventName, seq<Listener>>, onLoadState: PermissionState,
                                 request: CameraRequest, m: map<string, DeviceInfo>): seq<Delivery>
  {
    if Registers(onLoadState, request) then
      Notifications(listeners, DeviceListUpdate, DeviceMap(DevicesAfterDispatch(onLoadState, request, m)))
    else []
  }

  /** The listing step of `initHandler` acts only on a successful listing with some video input. */
  predicate ListingRegisters(l: Listing) {
    GetVideoDevices(l).ListingSucceeded? && GetVideoDevices(l).devices != []
  }

  /** `videoDevices` after the listing step of `initHandler`. */
  function DevicesAfterListing(l: Listing, m: map<string, DeviceInfo>): map<string, DeviceInfo> {
    if ListingRegisters(l) then Upsert(m, VideoInputs(l.devices)) else m
  }

  /** The listener calls of the listing step: one announcement of the new device map. */
  function ListingNotifications(listeners: map<EventName, seq<Listener>>, l: Listing, m: map<string, DeviceInfo>)
    : seq<Delivery>
  {
    if ListingRegisters(l) then Notifications(listeners, DeviceListUpdate, DeviceMap(DevicesAfterListing(l, m))) else []
  }

  /** The two log lines `initHandler` emits once it has installed the watchers it could install. */
  function WatcherLogs(listeners: map<EventName, seq<Listener>>, b: BrowserState): seq<Delivery> {
    (if b.deviceChangeUnset then Notifications(listeners, Log, LogLine(DeviceWatcherLogLine)) else [])
    + (if b.permissionQueryAvailable then Notifications(listeners, Log, LogLine(PermissionWatcherLogLine)) else [])
  }

  /** The dispatch and the listing step only ever add keys to `videoDevices`; the listing step adds every listed id. */
  lemma DevicesAfterKeepKeys(l: Listing, onLoadState: PermissionState, request: CameraRequest, m: map<string, DeviceInfo>)
    ensures m.Keys <= DevicesAfterListing(l, m).Keys
    ensures m.Keys <= DevicesAfterDispatch(onLoadState, request, m).Keys
    ensures l.Listed? && !NoVideoDevices(l) ==> DeviceIds(VideoInputs(l.devices)) <= DevicesAfterListing(l, m).Keys
  {
  }

  class CameraPermissionHandler {
    var onLoadPermissionResult: Option<OnLoadResult>
    var selectedDeviceId: Option<string>
    var videoDevices: map<string, DeviceInfo>
    var activeStreams: map<string, ActiveStream>
    const events: EventBus
    /** The `stop` and `removeTrack` calls made, in order. */
    var trackOps: seq<TrackOp>
    /** The constraints passed to `getUserMedia`, in order. */
    var mediaRequests: seq<Constraints>

    predicate Valid()
      reads this, events
    {
      events.Valid() && events.registry == FullRegistry
    }

    constructor()
      ensures Valid() && fresh(events)
      ensures onLoadPermissionResult == None && selectedDeviceId == None
      ensures videoDevices == map[] && activeStreams == map[]
      ensures events.listeners == (map e | e in FullRegistry :: []) && events.delivered == []
      ensures trackOps == [] && mediaRequests == []
    {
      onLoadPermissionResult := None;
      selectedDeviceId := None;
      videoDevices := map[];
      activeStreams := map[];
      events := new EventBus(FullRegistry);
      trackOps := [];
      mediaRequests := [];
    }

    /** `on`: append a listener to one event's list. */
    method On(eventName: EventName, listener: Listener)
      requires Valid()
      modifies events
      ensures Valid()
      ensures events.listeners == old(events.listeners)[eventName := old(events.listeners)[eventName] + [listener]]
      ensures events.delivered == old(events.delivered)
    {
      assert eventName in FullRegistry;
      events.On(eventName, listener);
    }

    /** `emit`: call one event's listeners in order. */
    method Emit(eventName: EventName, data: EventData)
      requires Valid()
      modifies events
      ensures Valid()
      ensures events.listeners == old(events.listeners)
      ensures events.delivered == old(events.delivered) + Notifications(events.listeners, eventName, data)
    {
      assert eventName in FullRegistry;
      events.Emit(eventName, data);
    }

    /** `devices.forEach(dev => this.videoDevices.set(dev.deviceId, dev))`. */
    method UpsertDevices(devices: seq<DeviceInfo>)
      modifies this
      ensures videoDevices == Upsert(old(videoDevices), devices)
      ensures activeStreams == old(activeStreams) && onLoadPermissionResult == old(onLoadPermissionResult)
      ensures selectedDeviceId == old(selectedDeviceId)
      ensures trackOps == old(trackOps) && mediaRequests == old(mediaRequests)
    {
      var i := 0;
      while i < |devices|
        invariant 0 <= i <= |devices|
        invariant videoDevices == Upsert(old(videoDevices), devices[..i])
        invariant activeStreams == old(activeStreams) && onLoadPermissionResult == old(onLoadPermissionResult)
        invariant selectedDeviceId == old(selectedDeviceId)
        invariant trackOps == old(trackOps) && mediaRequests == old(mediaRequests)
      {
        UpsertSnoc(old(videoDevices), devices[..i], devices[i]);
        assert devices[..i + 1] == devices[..i] + [devices[i]];
        videoDevices := videoDevices[devices[i].deviceId := devices[i]];
        i := i + 1;
      }
      assert devices[..i] == devices;
    }

    /** `stream.getTracks().forEach(track => track.stop())`. */
    method StopTracks(tracks: seq<MediaStreamTrack>)
      modifies this
      ensures trackOps == old(trackOps) + StopAll(tracks)
      ensures videoDevices == old(videoDevices) && activeStreams == old(activeStreams)
      ensures onLoadPermissionResult == old(onLoadPermissionResult) && selectedDeviceId == old(selectedDeviceId)
      ensures mediaRequests == old(mediaRequests)
    {
      var i := 0;
      while i < |tracks|
        invariant 0 <= i <= |tracks|
        invariant trackOps == old(trackOps) + StopAll(tracks[..i])
        invariant videoDevices == old(videoDevices) && activeStreams == old(activeStreams)
        invariant onLoadPermissionResult == old(onLoadPermissionResult) && selectedDeviceId == old(selectedDeviceId)
        invariant mediaRequests == old(mediaRequests)
      {
        assert StopAll(tracks[..i + 1]) == StopAll(tracks[..i]) + [StopTrack(tracks[i].id)];
        trackOps := trackOps + [StopTrack(tracks[i].id)];
        i := i + 1;
      }
      assert tracks[..i] == tracks;
    }

    /** `permissionGrantedHandler`. */
    method PermissionGrantedHandler(request: CameraRequest) returns (r: HandlerResult)
      requires Valid()
      modifies this, events
      ensures Valid()
      ensures r == GrantedStateHandler(request)
      ensures videoDevices == DevicesAfterDispatch(Granted, request, old(videoDevices))
      ensures activeStreams == StreamsAfterDispatch(Granted, request, old(activeStreams))
      ensures events.delivered == old(events.delivered) + DispatchNotifications(events.listeners, Granted, request, old(videoDevices))
      ensures events.listeners == old(events.listeners)
      ensures onLoadPermissionResult == old(onLoadPermissionResult) && selectedDeviceId == old(selectedDeviceId)
      ensures trackOps == old(trackOps) && mediaRequests == old(mediaRequests)
    {
      match request
      case Succeeded(s) =>
        var deviceByStream := FirstTrackSettings(s.stream);
        if deviceByStream.None? {
          return Failure(DeviceNotFound);
        }
        UpsertDevices(s.devices);
        activeStreams := activeStreams[s.stream.id := ActiveStream(s.stream, deviceByStream.value)];
        Emit(DeviceListUpdate, DeviceMap(videoDevices));
        return Wrapped(AcceptedWrapper(Granted, s));
      case Failed(f) =>
        var reported := f.(mappedError := InUse);
        return Wrapped(DeniedWrapper(DeniedReasonFor(f.duration), RetryUnknown, f.permissionState.postRequest, reported));
    }

    /** The dispatch on the state probed before the request; only the granted handler touches the registry. */
    method Dispatch(onLoadState: PermissionState, request: CameraRequest, userAgent: string) returns (r: HandlerResult)
      requires Valid()
      modifies this, events
      ensures Valid()
      ensures r == Classify(onLoadState, request, old(onLoadPermissionResult), userAgent)
      ensures videoDevices == DevicesAfterDispatch(onLoadState, request, old(videoDevices))
      ensures activeStreams == StreamsAfterDispatch(onLoadState, request, old(activeStreams))
      ensures events.delivered == old(events.delivered) + DispatchNotifications(events.listeners, onLoadState, request, old(videoDevices))
      ensures old(videoDevices).Keys <= videoDevices.Keys
      ensures events.listeners == old(events.listeners)
      ensures onLoadPermissionResult == old(onLoadPermissionResult) && selectedDeviceId == old(selectedDeviceId)
      ensures trackOps == old(trackOps) && mediaRequests == old(mediaRequests)
    {
      match onLoadState
      case Denied => r := Wrapped(DeniedStateHandler(request));
      case Granted => r := PermissionGrantedHandler(request);
      case Prompt => r := Wrapped(PromptStateHandler(request, onLoadPermissionResult, userAgent));
      case Error => r := Wrapped(ErrorStateHandler(request));
    }

    /**
     * `startCamera`: merge the arguments into constraints, give up without the
     * API or without video inputs, log, probe, request and dispatch. The
     * memory is read by the prompt handler but never written.
     */
    method StartCamera(id: Option<string>, constraints: Option<Constraints>, b: BrowserState)
      returns (r: Settled<HandlerResult>)
      requires Valid()
      modifies this, events
      ensures Valid()
      ensures onLoadPermissionResult == old(onLoadPermissionResult) && selectedDeviceId == old(selectedDeviceId)
      ensures events.listeners == old(events.listeners) && trackOps == old(trackOps)
      ensures !b.mediaApiAvailable ==> r == Resolved(Failure(BrowserApiInaccessible))
      ensures b.mediaApiAvailable && NoVideoDevices(b.listing) ==> r == Resolved(Failure(NoDevices))
      ensures !Proceeds(b) ==>
        mediaRequests == old(mediaRequests) && videoDevices == old(videoDevices)
        && activeStreams == old(activeStreams) && events.delivered == old(events.delivered)
      ensures Proceeds(b) ==> mediaRequests == old(mediaRequests) + [MergeConstraints(id, constraints)]
      ensures Proceeds(b) ==>
        var onLoadState := ProbePermission(b.onLoadQuery).state;
        var logged := old(events.delivered) + Notifications(events.listeners, Log, LogLine(ConstraintsLogLine));
        match RequestVideoDevice(b.attempt, MapCameraError)
        case None =>
          r == Rejected && events.delivered == logged
          && videoDevices == old(videoDevices) && activeStreams == old(activeStreams)
        case Some(request) =>
          r == Resolved(Classify(onLoadState, request, old(onLoadPermissionResult), b.userAgent))
          && videoDevices == DevicesAfterDispatch(onLoadState, request, old(videoDevices))
          && activeStreams == StreamsAfterDispatch(onLoadState, request, old(activeStreams))
          && events.delivered == logged + DispatchNotifications(events.listeners, onLoadState, request, old(videoDevices))
      ensures ProbePermission(b.onLoadQuery).state != Granted ==>
        videoDevices == old(videoDevices) && activeStreams == old(activeStreams)
    {
      var initalConstraints := MergeConstraints(id, constraints);
      if !b.mediaApiAvailable {
        return Resolved(Failure(BrowserApiInaccessible));
      }
      var devices := GetVideoDevices(b.listing);
      if devices.ListingSucceeded? && |devices.devices| == 0 {
        return Resolved(Failure(NoDevices));
      }
      Emit(Log, LogLine(ConstraintsLogLine));
      var onLoadPermissionState := ProbePermission(b.onLoadQuery).state;
      mediaRequests := mediaRequests + [initalConstraints];
      var onLoadPermissionResult := RequestVideoDevice(b.attempt, MapCameraError);
      if onLoadPermissionResult.None? {
        return Rejected;
      }
      var decided := Dispatch(onLoadPermissionState, onLoadPermissionResult.value, b.userAgent);
      return Resolved(decided);
    }

    /** The device listing step of `initHandler`. */
    method RegisterListing(l: Listing)
      requires Valid()
      modifies this, events
      ensures Valid()
      ensures videoDevices == DevicesAfterListing(l, old(videoDevices))
      ensures events.delivered == old(events.delivered) + ListingNotifications(events.listeners, l, old(videoDevices))
      ensures events.listeners == old(events.listeners) && activeStreams == old(activeStreams)
      ensures onLoadPermissionResult == old(onLoadPermissionResult) && selectedDeviceId == old(selectedDeviceId)
      ensures trackOps == old(trackOps) && mediaRequests == old(mediaRequests)
    {
      var devices := GetVideoDevices(l);
      if devices.ListingSucceeded? && |devices.devices| > 0 {
        UpsertDevices(devices.devices);
        Emit(DeviceListUpdate, DeviceMap(videoDevices));
      }
    }

    /**
     * The end of `initHandler`: remember the request, then dispatch on it. The
     * memory holds the very request object the handler receives, so the
     * granted handler's `InUse` overwrite shows in the memory too.
     */
    method RememberAndDispatch(onLoadState: PermissionState, request: CameraRequest, userAgent: string)
      returns (r: HandlerResult)
      requires Valid()
      modifies this, events
      ensures Valid()
      ensures r == Classify(onLoadState, request, Some(OnLoadResultOf(request)), userAgent)
      ensures onLoadPermissionResult == Some(OnLoadResultOf(AfterDispatch(onLoadState, request)))
      ensures videoDevices == DevicesAfterDispatch(onLoadState, request, old(videoDevices))
      ensures activeStreams == StreamsAfterDispatch(onLoadState, request, old(activeStreams))
      ensures events.delivered == old(events.delivered) + DispatchNotifications(events.listeners, onLoadState, request, old(videoDevices))
      ensures old(videoDevices).Keys <= videoDevices.Keys
      ensures events.listeners == old(events.listeners) && selectedDeviceId == old(selectedDeviceId)
      ensures trackOps == old(trackOps) && mediaRequests == old(mediaRequests)
    {
      onLoadPermissionResult := Some(OnLoadResultOf(request));
      r := Dispatch(onLoadState, request, userAgent);
      onLoadPermissionResult := Some(OnLoadResultOf(AfterDispatch(onLoadState, request)));
    }

    /**
     * `initHandler`: list and register the devices, announce the watchers,
     * probe, request, remember the request, then dispatch.
     */
    method InitHandler(constraints: Option<Constraints>, b: BrowserState) returns (r: Settled<HandlerResult>)
      requires Valid()
      modifies this, events
      ensures Valid()
      ensures selectedDeviceId == old(selectedDeviceId) && trackOps == old(trackOps)
      ensures events.listeners == old(events.listeners)
      ensures !b.mediaApiAvailable ==> r == Resolved(Failure(BrowserApiInaccessible))
      ensures b.mediaApiAvailable && NoVideoDevices(b.listing) ==> r == Resolved(Failure(NoDevices))
      ensures !Proceeds(b) ==>
        videoDevices == old(videoDevices) && events.delivered == old(events.delivered)
        && mediaRequests == old(mediaRequests) && onLoadPermissionResult == old(onLoadPermissionResult)
      ensures !Proceeds(b) || RequestVideoDevice(b.attempt, MapCameraError).None? ==>
        activeStreams == old(activeStreams) && onLoadPermissionResult == old(onLoadPermissionResult)
      ensures Proceeds(b) ==> mediaRequests == old(mediaRequests) + [InitConstraints(constraints)]
      ensures Proceeds(b) && RequestVideoDevice(b.attempt, MapCameraError).None? ==> r == Rejected
      ensures Proceeds(b) && RequestVideoDevice(b.attempt, MapCameraError).Some? ==>
        var request := RequestVideoDevice(b.attempt, MapCameraError).value;
        var onLoadState := ProbePermission(b.onLoadQuery).state;
        r == Resolved(Classify(onLoadState, request, Some(OnLoadResultOf(request)), b.userAgent))
        && onLoadPermissionResult == Some(OnLoadResultOf(AfterDispatch(onLoadState, request)))
      ensures Proceeds(b) ==>
        var onLoadState := ProbePermission(b.onLoadQuery).state;
        var listed := DevicesAfterListing(b.listing, old(videoDevices));
        var announced := old(events.delivered) + ListingNotifications(events.listeners, b.listing, old(videoDevices))
          + WatcherLogs(events.listeners, b);
        match RequestVideoDevice(b.attempt, MapCameraError)
        case None => videoDevices == listed && activeStreams == old(activeStreams) && events.delivered == announced
        case Some(request) =>
          videoDevices == DevicesAfterDispatch(onLoadState, request, listed)
          && activeStreams == StreamsAfterDispatch(onLoadState, request, old(activeStreams))
          && events.delivered == announced + DispatchNotifications(events.listeners, onLoadState, request, listed)
      ensures ProbePermission(b.onLoadQuery).state != Granted ==> activeStreams == old(activeStreams)
      ensures old(videoDevices).Keys <= videoDevices.Keys
      ensures Proceeds(b) && b.listing.Listed? ==> DeviceIds(VideoInputs(b.listing.devices)) <= videoDevices.Keys
    {
      if !b.mediaApiAvailable {
        return Resolved(Failure(BrowserApiInaccessible));
      }
      var devices := GetVideoDevices(b.listing);
      if devices.ListingSucceeded? && |devices.devices| == 0 {
        return Resolved(Failure(NoDevices));
      }
      RegisterListing(b.listing);
      AnnounceWatchers(b);
      var onLoadPermissionState := ProbePermission(b.onLoadQuery).state;
      var requestConstraints := InitConstraints(constraints);
      mediaRequests := mediaRequests + [requestConstraints];
      var onLoadPermissionResult := RequestVideoDevice(b.attempt, MapCameraError);
      if onLoadPermissionResult.None? {
        return Rejected;
      }
      ghost var listed := videoDevices;
      var decided := RememberAndDispatch(onLoadPermissionState, onLoadPermissionResult.value, b.userAgent);
      DevicesAfterKeepKeys(b.listing, onLoadPermissionState, onLoadPermissionResult.value, listed);
      return Resolved(decided);
    }

    /** The log lines of the watcher installation in `initHandler`. */
    method AnnounceWatchers(b: BrowserState)
      requires Valid()
      modifies events
      ensures Valid()
      ensures events.listeners == old(events.listeners)
      ensures events.delivered == old(events.delivered) + WatcherLogs(events.listeners, b)
    {
      if b.deviceChangeUnset {
        Emit(Log, LogLine(DeviceWatcherLogLine));
      }
      if b.permissionQueryAvailable {
        Emit(Log, LogLine(PermissionWatcherLogLine));
      }
    }

    /** The `ondevicechange` watcher: a successful listing is upserted and announced, even an empty one. */
    method DeviceChangeWatcher(l: Listing)
      requires Valid()
      modifies this, events
      ensures Valid()
      ensures l.ListingFailed? ==> videoDevices == old(videoDevices) && events.delivered == old(events.delivered)
      ensures l.Listed? ==>
        videoDevices == Upsert(old(videoDevices), VideoInputs(l.devices))
        && events.delivered == old(events.delivered) + Notifications(events.listeners, DeviceListUpdate, DeviceMap(videoDevices))
      ensures events.listeners == old(events.listeners) && activeStreams == old(activeStreams)
      ensures onLoadPermissionResult == old(onLoadPermissionResult) && selectedDeviceId == old(selectedDeviceId)
      ensures trackOps == old(trackOps) && mediaRequests == old(mediaRequests)
    {
      var devices := GetVideoDevices(l);
      if devices.ListingSucceeded? {
        UpsertDevices(devices.devices);
        Emit(DeviceListUpdate, DeviceMap(videoDevices));
      }
    }

    /** The permission `onchange` watcher: announce the probed state and its detail. */
    method PermissionWatcher(q: PermissionQuery)
      requires Valid()
      modifies events
      ensures Valid()
      ensures events.listeners == old(events.listeners)
      ensures var p := ProbePermission(q);
        events.delivered == old(events.delivered) + Notifications(events.listeners, PermissionStatusChange, StatusChange(p.state, p.detail))
    {
      var p := ProbePermission(q);
      Emit(PermissionStatusChange, StatusChange(p.state, p.detail));
    }

    /**
     * `stopCameraByStream`: `DeviceNotFound` when the first track's settings
     * carry no device id; otherwise remove the given track, or stop every
     * track and forget the stream.
     */
    method StopCameraByStream(stream: MediaStream, track: Option<MediaStreamTrack>) returns (r: Option<CameraInitError>)
      modifies this
      ensures !Truthy(StreamDeviceId(stream)) ==>
        r == Some(DeviceNotFound) && trackOps == old(trackOps) && activeStreams == old(activeStreams)
      ensures Truthy(StreamDeviceId(stream)) && track.Some? ==>
        r == None && trackOps == old(trackOps) + [RemoveTrack(stream.id, track.value.id)]
        && activeStreams == old(activeStreams)
      ensures Truthy(StreamDeviceId(stream)) && track.None? ==>
        r == None && trackOps == old(trackOps) + StopAll(stream.tracks)
        && activeStreams == old(activeStreams) - {stream.id}
      ensures videoDevices == old(videoDevices) && onLoadPermissionResult == old(onLoadPermissionResult)
      ensures selectedDeviceId == old(selectedDeviceId) && mediaRequests == old(mediaRequests)
    {
      var streamCameraId := StreamDeviceId(stream);
      if !Truthy(streamCameraId) {
        return Some(DeviceNotFound);
      }
      if track.Some? {
        trackOps := trackOps + [RemoveTrack(stream.id, track.value.id)];
        return None;
      }
      StopTracks(stream.tracks);
      activeStreams := activeStreams - {stream.id};
      return None;
    }

    /**
     * `stopCameraStreamById`: `DeviceNotFound` when nothing is registered
     * under the id; otherwise remove the given track or stop every track of
     * the registered stream. The entry is never removed.
     */
    method StopCameraStreamById(cameraId: string, track: Option<MediaStreamTrack>) returns (r: Option<CameraInitError>)
      modifies this
      ensures cameraId !in old(activeStreams) ==> r == Some(DeviceNotFound) && trackOps == old(trackOps)
      ensures cameraId in old(activeStreams) && track.Some? ==>
        r == None && trackOps == old(trackOps) + [RemoveTrack(old(activeStreams)[cameraId].stream.id, track.value.id)]
      ensures cameraId in old(activeStreams) && track.None? ==>
        r == None && trackOps == old(trackOps) + StopAll(old(activeStreams)[cameraId].stream.tracks)
      ensures activeStreams == old(activeStreams) && videoDevices == old(videoDevices)
      ensures onLoadPermissionResult == old(onLoadPermissionResult) && selectedDeviceId == old(selectedDeviceId)
      ensures mediaRequests == old(mediaRequests)
    {
      if cameraId !in activeStreams {
        return Some(DeviceNotFound);
      }
      var res := activeStreams[cameraId];
      if track.Some? {
        trackOps := trackOps + [RemoveTrack(res.stream.id, track.value.id)];
      } else {
        StopTracks(res.stream.tracks);
      }
      return None;
    }
  }
}
