/**
 * The oldest revision in `src/CameraPermissionHandler.ts`, where it differs
 * from the current one: the devices are an array replaced wholesale,
 * `cycleCamera` rotates through them, `startCamera` classifies inline, the
 * granted handler offers a retry, and `initHandler` has no error-state
 * handler.
 */
module LegacyRevision {
  import opened Wrappers
  import opened Seqs
  import opened Media
  import opened Enums
  import opened ErrorMapper
  import opened Rules
  import opened Classifier
  import opened Events
  import opened Browser

  /**
   * What the oldest `startCamera` and `initHandler` return: a wrapper; the
   * denied record with `request: null` of a `Denied` pre-state; `undefined`;
   * or the string `'unknown-state'`.
   */
  datatype LegacyResult = Decided(decision: CameraDecision) | DeniedWithoutRequest | NoValue | UnknownState

  /** What the browser answers during one oldest-revision `startCamera`. */
  datatype LegacyBrowserState = LegacyBrowserState(
    /** The probe that chooses the path. */
    onLoadQuery: PermissionQuery,
    /** The run of `getVideoDevicePermissionWrapper`. */
    attempt: Attempt,
    /** `navigator.userAgent`. */
    userAgent: string,
    /** The fresh probe the retryable denials report as their state. */
    reprobe: PermissionQuery)

  /**
   * The edge case of the inline prompt path: the remembered duration is
   * tested by truthiness, so a remembered duration of 0 never triggers it.
   */
  predicate LegacyFirefoxEdgeCase(memory: Option<OnLoadResult>, durationMs: nat) {
    memory.Some? && memory.value.duration != 0 && DeniedReasonFor(memory.value.duration) == Browser
    && memory.value.postRequestState == Prompt && DeniedReasonFor(durationMs) == Browser
  }

  /** The two edge-case tests disagree exactly when the remembered duration is 0. */
  lemma EdgeCaseTestsDifferOnlyAtZero(memory: Option<OnLoadResult>, durationMs: nat)
    ensures LegacyFirefoxEdgeCase(memory, durationMs) != FirefoxEdgeCase(memory, durationMs) <==>
      FirefoxEdgeCase(memory, durationMs) && memory.value.duration == 0
  {
  }

  /** The prompt path of the inline `startCamera`, taken for the `Prompt` and `Error` pre-states. */
  function InlinePromptPath(request: CameraRequest, memory: Option<OnLoadResult>, userAgent: string,
                            reprobed: PermissionState): (r: CameraDecision)
    ensures r.AcceptedWrapper? <==> request.Succeeded?
    ensures r.AcceptedWrapper? ==> r.permissionState == Granted && r.accepted == request.success
    ensures r.DeniedWrapper? ==> r.denied == request.failure && r.deniedBy == DeniedReasonFor(request.Duration())
    ensures r.DeniedWrapper? ==>
      (r.retryable == RetryNo <==> request.PostRequest() == Denied || LegacyFirefoxEdgeCase(memory, request.Duration()))
    ensures r.DeniedWrapper? && r.retryable == RetryNo ==> r.permissionState == Denied
    ensures r.DeniedWrapper? && r.retryable != RetryNo ==> r.permissionState == reprobed
    ensures r.DeniedWrapper? ==>
      (r.retryable == RetryYes <==> request.PostRequest() != Denied && request.Duration() > BrowserDeniedThresholdMs)
    ensures r.DeniedWrapper? && r.retryable.RetryAfterReload? ==> r.retryable.button == ReloadButtonType(userAgent).result
    ensures r.DeniedWrapper? ==> r.retryable != RetryUnknown
  {
    match request
    case Succeeded(s) => AcceptedWrapper(Granted, s)
    case Failed(f) =>
      var rejectedReason := DeniedReasonFor(f.duration);
      if f.permissionState.postRequest == Denied then DeniedWrapper(rejectedReason, RetryNo, Denied, f)
      else if LegacyFirefoxEdgeCase(memory, f.duration) then DeniedWrapper(Browser, RetryNo, Denied, f)
      else if rejectedReason == Browser then DeniedWrapper(Browser, RetryAfterReload(ReloadButtonType(userAgent).result), reprobed, f)
      else DeniedWrapper(User, RetryYes, reprobed, f)
  }

  /**
   * The inline `startCamera`: a `Denied` pre-state answers without a request;
   * otherwise the caller's constraints are requested, a `Granted` pre-state
   * gives an acceptance or `undefined`, and the other states take the
   * prompt path. The mapper throwing rejects the call.
   */
  function InlineStartCamera(b: LegacyBrowserState, memory: Option<OnLoadResult>): (r: Settled<LegacyResult>)
    ensures ProbePermission(b.onLoadQuery).state == Denied ==> r == Resolved(DeniedWithoutRequest)
    ensures r == Rejected <==>
      ProbePermission(b.onLoadQuery).state != Denied && RequestVideoDevice(b.attempt, LegacyMapCameraError).None?
    ensures r == Resolved(NoValue) <==>
      ProbePermission(b.onLoadQuery).state == Granted && b.attempt.outcome.Threw?
      && RequestVideoDevice(b.attempt, LegacyMapCameraError).Some?
    ensures r.Resolved? && r.value.Decided? && r.value.decision.AcceptedWrapper? ==>
      r.value.decision.permissionState == Granted
    ensures r.Resolved? && r.value.Decided? && r.value.decision.DeniedWrapper? ==>
      ProbePermission(b.onLoadQuery).state in {Prompt, Error} && r.value.decision.retryable != RetryUnknown
    ensures ProbePermission(b.onLoadQuery).state == Granted ==>
      match RequestVideoDevice(b.attempt, LegacyMapCameraError)
      case Some(Succeeded(s)) => r == Resolved(Decided(AcceptedWrapper(Granted, s)))
      case _ => true
    ensures ProbePermission(b.onLoadQuery).state in {Prompt, Error} ==>
      match RequestVideoDevice(b.attempt, LegacyMapCameraError)
      case Some(request) =>
        r == Resolved(Decided(InlinePromptPath(request, memory, b.userAgent, ProbePermission(b.reprobe).state)))
      case None => true
  {
    var onLoadPermissionState := ProbePermission(b.onLoadQuery).state;
    if onLoadPermissionState == Denied then Resolved(DeniedWithoutRequest)
    else match RequestVideoDevice(b.attempt, LegacyMapCameraError)
      case None => Rejected
      case Some(request) =>
        if onLoadPermissionState == Granted then
          match request
          case Failed(_) => Resolved(NoValue)
          case Succeeded(s) => Resolved(Decided(AcceptedWrapper(Granted, s)))
        else Resolved(Decided(InlinePromptPath(request, memory, b.userAgent, ProbePermission(b.reprobe).state)))
  }

  /** `permissionGrantedHandler` of this revision: a failure may be retried, and its error is kept. */
  function LegacyGrantedStateHandler(request: CameraRequest): (r: CameraDecision)
    ensures r.AcceptedWrapper? <==> request.Succeeded?
    ensures r.AcceptedWrapper? ==> r.permissionState == Granted && r.accepted == request.success
    ensures r.DeniedWrapper? ==>
      r.denied == request.failure && r.retryable == RetryYes
      && r.deniedBy == DeniedReasonFor(request.Duration()) && r.permissionState == request.PostRequest()
  {
    match request
    case Succeeded(s) => AcceptedWrapper(Granted, s)
    case Failed(f) => DeniedWrapper(DeniedReasonFor(f.duration), RetryYes, f.permissionState.postRequest, f)
  }

  /** The dispatch of the oldest `initHandler`: an `Error` pre-state has no handler and gives `'unknown-state'`. */
  function LegacyClassify(onLoadState: PermissionState, request: CameraRequest, memory: Option<OnLoadResult>, userAgent: string)
    : (r: LegacyResult)
    ensures r == UnknownState <==> onLoadState == Error
    ensures r != UnknownState ==> r.Decided?
    ensures r.Decided? ==> (r.decision.AcceptedWrapper? <==> request.Succeeded?)
    ensures r.Decided? && r.decision.DeniedWrapper? ==> r.decision.retryable != RetryUnknown
  {
    match onLoadState
    case Denied => Decided(DeniedStateHandler(request))
    case Granted => Decided(LegacyGrantedStateHandler(request))
    case Prompt => Decided(PromptStateHandler(request, memory, userAgent))
    case Error => UnknownState
  }

  /** In the oldest revision no outcome is ever `Unknown`-retryable, unlike the current granted and error handlers. */
  lemma NoUnknownRetryInOldest(b: LegacyBrowserState, memory: Option<OnLoadResult>,
                               onLoadState: PermissionState, request: CameraRequest, userAgent: string)
    ensures var r := InlineStartCamera(b, memory);
      r.Resolved? && r.value.Decided? && r.value.decision.DeniedWrapper? ==> r.value.decision.retryable != RetryUnknown
    ensures var r := LegacyClassify(onLoadState, request, memory, userAgent);
      r.Decided? && r.decision.DeniedWrapper? ==> r.decision.retryable != RetryUnknown
    ensures request.Failed? && (onLoadState == Granted || onLoadState == Error) ==>
      Classify(onLoadState, request, memory, userAgent).decision.retryable == RetryUnknown
  {
  }

  /** `device.deviceId === this.selectedDeviceId`, which never holds while nothing is selected. */
  function IdMatches(selected: Option<string>): DeviceInfo -> bool {
    (d: DeviceInfo) => selected == Some(d.deviceId)
  }

  /** The inline `startCamera` ended in an acceptance: the one outcome that replaces and announces the devices. */
  predicate Accepted(r: Settled<LegacyResult>) {
    r.Resolved? && r.value.Decided? && r.value.decision.AcceptedWrapper?
  }

  /** `videoDevices` after the inline `startCamera`. */
  function DevicesAfterStart(r: Settled<LegacyResult>, devices: seq<DeviceInfo>): seq<DeviceInfo> {
    if Accepted(r) then r.value.decision.accepted.devices else devices
  }

  /** The listener calls of the inline `startCamera`: the new device array, announced on acceptance only. */
  function StartNotifications(listeners: map<EventName, seq<Listener>>, r: Settled<LegacyResult>): seq<Delivery> {
    if Accepted(r) then Notifications(listeners, DeviceListUpdate, DeviceList(r.value.decision.accepted.devices)) else []
  }

  /** The constraints the inline `startCamera` requests: the caller's or the default ones, unless the state is `Denied`. */
  function StartRequests(b: LegacyBrowserState, constraints: Option<Constraints>): seq<Constraints> {
    if ProbePermission(b.onLoadQuery).state == Denied then [] else [constraints.GetOr(DefaultRequestConstraints)]
  }

  /** The outcome of the restart as `cycleCamera` returns it: the inline `startCamera` result, as a value. */
  function Lift(r: Settled<LegacyResult>): (l: Settled<Option<LegacyResult>>)
    ensures l.Rejected? <==> r.Rejected?
    ensures r.Resolved? ==> l == Resolved(Some(r.value))
  {
    match r
    case Rejected => Rejected
    case Resolved(v) => Resolved(Some(v))
  }

  class CameraPermissionHandler {
    var onLoadPermissionResult: Option<OnLoadResult>
    var selectedDeviceId: Option<string>
    var videoDevices: seq<DeviceInfo>
    const events: EventBus
    /** The constraints passed to `getUserMedia`, in order. */
    var mediaRequests: seq<Constraints>

    predicate Valid()
      reads this, events
    {
      events.Valid() && events.registry == OldestRegistry
    }

    constructor()
      ensures Valid() && fresh(events)
      ensures onLoadPermissionResult == None && selectedDeviceId == None && videoDevices == []
      ensures events.listeners == (map e | e in OldestRegistry :: []) && events.delivered == []
      ensures mediaRequests == []
    {
      onLoadPermissionResult := None;
      selectedDeviceId := None;
      videoDevices := [];
      events := new EventBus(OldestRegistry);
      mediaRequests := [];
    }

    /** `on`, for the two events of this revision's registry. */
    method On(eventName: EventName, listener: Listener)
      requires Valid() && eventName in OldestRegistry
      modifies events
      ensures Valid()
      ensures events.listeners == old(events.listeners)[eventName := old(events.listeners)[eventName] + [listener]]
      ensures events.delivered == old(events.delivered)
    {
      events.On(eventName, listener);
    }

    /** `this.videoDevices = devices` followed by the announcement of the new array. */
    method ReplaceDevices(devices: seq<DeviceInfo>)
      requires Valid()
      modifies this, events
      ensures Valid()
      ensures videoDevices == devices
      ensures events.listeners == old(events.listeners)
      ensures events.delivered == old(events.delivered) + Notifications(events.listeners, DeviceListUpdate, DeviceList(devices))
      ensures onLoadPermissionResult == old(onLoadPermissionResult) && selectedDeviceId == old(selectedDeviceId)
      ensures mediaRequests == old(mediaRequests)
    {
      videoDevices := devices;
      events.Emit(DeviceListUpdate, DeviceList(devices));
    }

    /** The `forEach` of `cycleCamera`: the index of the last device with the selected id. */
    method LastSelectedIndex() returns (currentIndex: Option<nat>)
      ensures currentIndex == LastIndexOf(videoDevices, IdMatches(selectedDeviceId))
      ensures currentIndex.Some? ==>
        currentIndex.value < |videoDevices| && selectedDeviceId == Some(videoDevices[currentIndex.value].deviceId)
    {
      var p := IdMatches(selectedDeviceId);
      currentIndex := None;
      var i := 0;
      while i < |videoDevices|
        invariant 0 <= i <= |videoDevices|
        invariant currentIndex == LastIndexOf(videoDevices[..i], p)
      {
        assert videoDevices[..i + 1][..i] == videoDevices[..i];
        if selectedDeviceId == Some(videoDevices[i].deviceId) {
          currentIndex := Some(i);
        }
        i := i + 1;
      }
      assert videoDevices[..i] == videoDevices;
    }

    /** The inline `startCamera`; the `id` it takes is never used. */
    method StartCamera(id: Option<string>, constraints: Option<Constraints>, b: LegacyBrowserState)
      returns (r: Settled<LegacyResult>)
      requires Valid()
      modifies this, events
      ensures Valid()
      ensures r == InlineStartCamera(b, old(onLoadPermissionResult))
      ensures videoDevices == DevicesAfterStart(r, old(videoDevices))
      ensures events.delivered == old(events.delivered) + StartNotifications(events.listeners, r)
      ensures mediaRequests == old(mediaRequests) + StartRequests(b, constraints)
      ensures r.Resolved? && r.value.Decided? && r.value.decision.AcceptedWrapper? ==>
        videoDevices == r.value.decision.accepted.devices
        && events.delivered == old(events.delivered) + Notifications(events.listeners, DeviceListUpdate, DeviceList(videoDevices))
      ensures !(r.Resolved? && r.value.Decided? && r.value.decision.AcceptedWrapper?) ==>
        videoDevices == old(videoDevices) && events.delivered == old(events.delivered)
      ensures ProbePermission(b.onLoadQuery).state == Denied ==> mediaRequests == old(mediaRequests)
      ensures ProbePermission(b.onLoadQuery).state != Denied ==>
        mediaRequests == old(mediaRequests) + [constraints.GetOr(DefaultRequestConstraints)]
      ensures events.listeners == old(events.listeners)
      ensures onLoadPermissionResult == old(onLoadPermissionResult) && selectedDeviceId == old(selectedDeviceId)
    {
      var onLoadPermissionState := ProbePermission(b.onLoadQuery).state;
      if onLoadPermissionState == Denied {
        return Resolved(DeniedWithoutRequest);
      }
      mediaRequests := mediaRequests + [constraints.GetOr(DefaultRequestConstraints)];
      var response := RequestVideoDevice(b.attempt, LegacyMapCameraError);
      if response.None? {
        return Rejected;
      }
      var request := response.value;
      if onLoadPermissionState == Granted && request.Failed? {
        return Resolved(NoValue);
      }
      var decision := if onLoadPermissionState == Granted then AcceptedWrapper(Granted, request.success)
        else InlinePromptPath(request, onLoadPermissionResult, b.userAgent, ProbePermission(b.reprobe).state);
      if decision.AcceptedWrapper? {
        ReplaceDevices(decision.accepted.devices);
      }
      return Resolved(Decided(decision));
    }

    /**
     * `cycleCamera`: nothing for a `Denied` or `Prompt` state or a failed
     * listing; otherwise select the device after the selected one (wrapping
     * around) and start the camera, or, when none is selected, start the
     * preferred camera without selecting it. The listing is only checked,
     * never stored, and an empty device array makes `getPreferredCamera` throw.
     * The restart requests no device: the inline `startCamera` ignores its id.
     */
    method CycleCamera(cycleQuery: PermissionQuery, listing: Listing, b: LegacyBrowserState)
      returns (r: Settled<Option<LegacyResult>>)
      requires Valid()
      modifies this, events
      ensures Valid()
      ensures onLoadPermissionResult == old(onLoadPermissionResult) && events.listeners == old(events.listeners)
      ensures var state := ProbePermission(cycleQuery).state;
        (state == Denied || state == Prompt || listing.ListingFailed?) ==>
          r == Resolved(None) && videoDevices == old(videoDevices) && selectedDeviceId == old(selectedDeviceId)
          && events.delivered == old(events.delivered) && mediaRequests == old(mediaRequests)
      ensures var state := ProbePermission(cycleQuery).state;
        var i := LastIndexOf(old(videoDevices), IdMatches(old(selectedDeviceId)));
        var started := InlineStartCamera(b, old(onLoadPermissionResult));
        state != Denied && state != Prompt && listing.Listed? && i.Some? ==>
          selectedDeviceId == Some(old(videoDevices)[NextIndex(i.value, |old(videoDevices)|)].deviceId)
          && r == Lift(started)
          && videoDevices == DevicesAfterStart(started, old(videoDevices))
          && mediaRequests == old(mediaRequests) + StartRequests(b, None)
          && events.delivered == old(events.delivered) + StartNotifications(events.listeners, started)
      ensures var state := ProbePermission(cycleQuery).state;
        var i := LastIndexOf(old(videoDevices), IdMatches(old(selectedDeviceId)));
        state != Denied && state != Prompt && listing.Listed? && i.None? ==>
          selectedDeviceId == old(selectedDeviceId) && PreferredStarted(r, b, old(videoDevices), old(onLoadPermissionResult),
                                                                       old(mediaRequests), old(events.delivered))
    {
      var state := ProbePermission(cycleQuery).state;
      if state == Denied || state == Prompt {
        return Resolved(None);
      }
      var devices := GetVideoDevices(listing);
      if !devices.ListingSucceeded? {
        return Resolved(None);
      }
      var currentIndex := LastSelectedIndex();
      if currentIndex.None? {
        r := StartPreferred(b);
      } else {
        r := StartNext(currentIndex.value, b);
      }
    }

    /**
     * What starting the preferred camera leaves, from the devices, memory,
     * requests and deliveries before it: the JSON log of the devices, then a
     * rejection for an empty array, or the inline `startCamera` with its effects.
     */
    predicate PreferredStarted(r: Settled<Option<LegacyResult>>, b: LegacyBrowserState, devices0: seq<DeviceInfo>,
                               memory0: Option<OnLoadResult>, requests0: seq<Constraints>, delivered0: seq<Delivery>)
      reads this, events
    {
      var logged := delivered0 + Notifications(events.listeners, Log, LogJson(devices0));
      var started := InlineStartCamera(b, memory0);
      if devices0 == [] then
        r == Rejected && videoDevices == devices0 && mediaRequests == requests0 && events.delivered == logged
      else
        r == Lift(started) && videoDevices == DevicesAfterStart(started, devices0)
        && mediaRequests == requests0 + StartRequests(b, None)
        && events.delivered == logged + StartNotifications(events.listeners, started)
    }

    /** The branch of `cycleCamera` with nothing selected: log the devices and start the preferred one. */
    method StartPreferred(b: LegacyBrowserState) returns (r: Settled<Option<LegacyResult>>)
      requires Valid()
      modifies this, events
      ensures Valid()
      ensures onLoadPermissionResult == old(onLoadPermissionResult) && events.listeners == old(events.listeners)
      ensures selectedDeviceId == old(selectedDeviceId)
      ensures PreferredStarted(r, b, old(videoDevices), old(onLoadPermissionResult), old(mediaRequests), old(events.delivered))
    {
      events.Emit(Log, LogJson(videoDevices));
      var preferred := GetPreferredCamera(videoDevices);
      if preferred.None? {
        return Rejected;
      }
      var started := StartCamera(Some(preferred.value.id), None, b);
      r := Lift(started);
    }

    /** The branch of `cycleCamera` with a selection: select the next device, wrapping around, and start the camera. */
    method StartNext(currentIndex: nat, b: LegacyBrowserState) returns (r: Settled<Option<LegacyResult>>)
      requires Valid() && currentIndex < |videoDevices|
      modifies this, events
      ensures Valid()
      ensures onLoadPermissionResult == old(onLoadPermissionResult) && events.listeners == old(events.listeners)
      ensures selectedDeviceId == Some(old(videoDevices)[NextIndex(currentIndex, |old(videoDevices)|)].deviceId)
      ensures var started := InlineStartCamera(b, old(onLoadPermissionResult));
        r == Lift(started)
        && videoDevices == DevicesAfterStart(started, old(videoDevices))
        && mediaRequests == old(mediaRequests) + StartRequests(b, None)
        && events.delivered == old(events.delivered) + StartNotifications(events.listeners, started)
    {
      var indexToSelect := NextIndex(currentIndex, |videoDevices|);
      selectedDeviceId := Some(videoDevices[indexToSelect].deviceId);
      var started := StartCamera(Some(videoDevices[indexToSelect].deviceId), None, b);
      r := Lift(started);
    }
    /**
     * `initHandler` of this revision: no API or listing checks; probe,
     * request, remember the request, then dispatch, with `'unknown-state'`
     * for an `Error` pre-state.
     */
    method InitHandler(constraints: Option<Constraints>, b: LegacyBrowserState) returns (r: Settled<LegacyResult>)
      requires Valid()
      modifies this, events
      ensures Valid()
      ensures mediaRequests == old(mediaRequests) + [constraints.GetOr(DefaultRequestConstraints)]
      ensures RequestVideoDevice(b.attempt, LegacyMapCameraError).None? ==>
        r == Rejected && onLoadPermissionResult == old(onLoadPermissionResult)
      ensures RequestVideoDevice(b.attempt, LegacyMapCameraError).Some? ==>
        var request := RequestVideoDevice(b.attempt, LegacyMapCameraError).value;
        var onLoadState := ProbePermission(b.onLoadQuery).state;
        r == Resolved(LegacyClassify(onLoadState, request, Some(OnLoadResultOf(request)), b.userAgent))
        && onLoadPermissionResult == Some(OnLoadResultOf(request))
        && (onLoadState == Granted && request.Succeeded? ==> videoDevices == request.success.devices)
        && (onLoadState != Granted || request.Failed? ==> videoDevices == old(videoDevices))
        && (onLoadState == Granted && request.Succeeded? ==>
              events.delivered == old(events.delivered) + Notifications(events.listeners, DeviceListUpdate, DeviceList(videoDevices)))
        && (onLoadState != Granted || request.Failed? ==> events.delivered == old(events.delivered))
      ensures RequestVideoDevice(b.attempt, LegacyMapCameraError).None? ==>
        videoDevices == old(videoDevices) && events.delivered == old(events.delivered)
      ensures events.listeners == old(events.listeners) && selectedDeviceId == old(selectedDeviceId)
    {
      var onLoadPermissionState := ProbePermission(b.onLoadQuery).state;
      mediaRequests := mediaRequests + [constraints.GetOr(DefaultRequestConstraints)];
      var response := RequestVideoDevice(b.attempt, LegacyMapCameraError);
      if response.None? {
        return Rejected;
      }
      var request := response.value;
      onLoadPermissionResult := Some(OnLoadResultOf(request));
      if onLoadPermissionState == Granted && request.Succeeded? {
        ReplaceDevices(request.success.devices);
      }
      return Resolved(LegacyClassify(onLoadPermissionState, request, onLoadPermissionResult, b.userAgent));
    }
  }
}
