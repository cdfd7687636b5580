/**
 * The small pure rules of the handler: the latency threshold, the reload
 * button, the preferred camera, the constraint merge of `startCamera`, the
 * permission probe, the shape of a camera request and the device upsert.
 */
module Rules {
  import opened Wrappers
  import opened Seqs
  import opened Text
  import opened Media
  import opened Enums
  import opened ErrorMapper

  /** JavaScript truthiness of an optional string: present and not empty. */
  predicate Truthy(s: Option<string>) {
    s.Some? && s.value != ""
  }

  // ---- cameraPermissionDeniedReason ----------------------------------------

  /** The default threshold of `cameraPermissionDeniedReason`, in milliseconds. */
  const BrowserDeniedThresholdMs: nat := 200

  /** `cameraPermissionDeniedReason`: a denial at or under the threshold came from the browser, not the user. */
  function DeniedReasonFor(deniedAfterMs: nat, threshold: nat := BrowserDeniedThresholdMs): (r: DeniedReason)
    ensures r == Browser <==> deniedAfterMs <= threshold
    ensures r == User <==> deniedAfterMs > threshold
  {
    if deniedAfterMs <= threshold then Browser else User
  }

  /** The boundary of the default threshold: 200 ms is still the browser, 201 ms is the user. */
  lemma ThresholdBoundary()
    ensures DeniedReasonFor(200) == Browser && DeniedReasonFor(201) == User
  {
  }

  /** A slower denial is never attributed to the browser when a faster one was not. */
  lemma DeniedReasonMonotone(d1: nat, d2: nat, threshold: nat)
    requires d1 <= d2
    ensures DeniedReasonFor(d1, threshold) == User ==> DeniedReasonFor(d2, threshold) == User
  {
  }

  // ---- getReloadButtonType ----------------------------------------------------

  /** `{result, browser}` of `getReloadButtonType`. */
  datatype ReloadButtonChoice = ReloadButtonChoice(result: ReloadButton, browser: string)

  /**
   * An entry of the browser table: the regular expression
   * `^(?=.*<required>)(?!.*(<forbidden>|...)).*$` as the predicates it stands for.
   */
  datatype BrowserRule = BrowserRule(key: string, required: string, forbidden: seq<string>)

  /**
   * The expression matches the lower-cased user agent: `.` stops at a line
   * terminator and the pattern is anchored at both ends, so the string has
   * none; then it holds `required` and none of `forbidden`.
   */
  predicate RuleMatches(rule: BrowserRule, lowered: string) {
    !HasLineTerminator(lowered) && Contains(lowered, rule.required)
    && forall i :: 0 <= i < |rule.forbidden| ==> !Contains(lowered, rule.forbidden[i])
  }

  /** The browsers whose prompt can only be re-triggered from the browser's own button. */
  const BrowserButtonRules: seq<BrowserRule> :=
    [BrowserRule("firefox_desktop", "firefox", ["mobile", "tablet", "android"])]

  /** The table is walked in order and the first matching entry decides. */
  function ReloadButtonFromRules(rules: seq<BrowserRule>, userAgent: string): (r: ReloadButtonChoice)
    ensures r.result == BrowserButton <==> exists i :: 0 <= i < |rules| && RuleMatches(rules[i], ToLower(userAgent))
    ensures r.result == AnyButton ==> r.browser == "any"
  {
    var lowered := ToLower(userAgent);
    match Find(rules, (rule: BrowserRule) => RuleMatches(rule, lowered))
    case Some(rule) => ReloadButtonChoice(BrowserButton, rule.key)
    case None => ReloadButtonChoice(AnyButton, "any")
  }

  /** `getReloadButtonType`: the browser button exactly for desktop Firefox. */
  function ReloadButtonType(userAgent: string): (r: ReloadButtonChoice)
    ensures var lowered := ToLower(userAgent);
      r.result == BrowserButton <==>
        !HasLineTerminator(lowered) && Contains(lowered, "firefox")
        && !Contains(lowered, "mobile") && !Contains(lowered, "tablet") && !Contains(lowered, "android")
    ensures r.result == BrowserButton ==> r.browser == "firefox_desktop"
    ensures r.result == AnyButton ==> r.browser == "any"
  {
    var r := ReloadButtonFromRules(BrowserButtonRules, userAgent);
    var rule := BrowserButtonRules[0];
    assert rule.required == "firefox";
    assert rule.forbidden[0] == "mobile" && rule.forbidden[1] == "tablet" && rule.forbidden[2] == "android";
    assert |rule.forbidden| == 3;
    r
  }

  // ---- getPreferredCamera -------------------------------------------------------

  datatype Facing = Environment | Front | UnknownFacing {
    function Text(): string {
      match this
      case Environment => "environment"
      case Front => "front"
      case UnknownFacing => "unknown"
    }
  }

  /** `{facing, id}` of `getPreferredCamera`. */
  datatype PreferredCamera = PreferredCamera(facing: Facing, id: string)

  predicate LabelMentions(d: DeviceInfo, a: string, b: string) {
    Contains(ToLower(d.labelText), a) || Contains(ToLower(d.labelText), b)
  }

  predicate IsEnvironmentCamera(d: DeviceInfo) {
    LabelMentions(d, "back", "environment")
  }

  predicate IsUserCamera(d: DeviceInfo) {
    LabelMentions(d, "front", "user")
  }

  /**
   * `getPreferredCamera`: the first back camera, else the first front camera,
   * else the first device; nothing when the list is empty, where the source
   * dereferences `videoDevices[0]` and throws.
   */
  function GetPreferredCamera(devices: seq<DeviceInfo>): (r: Option<PreferredCamera>)
    ensures r.None? <==> devices == []
    ensures r.Some? && r.value.facing == Environment <==> exists i :: 0 <= i < |devices| && IsEnvironmentCamera(devices[i])
    ensures r.Some? && r.value.facing == Environment ==>
      exists i :: 0 <= i < |devices| && IsEnvironmentCamera(devices[i]) && r.value.id == devices[i].deviceId
        && forall j :: 0 <= j < i ==> !IsEnvironmentCamera(devices[j])
    ensures r.Some? && r.value.facing == Front <==>
      (forall i :: 0 <= i < |devices| ==> !IsEnvironmentCamera(devices[i]))
      && exists i :: 0 <= i < |devices| && IsUserCamera(devices[i])
    ensures r.Some? && r.value.facing == Front ==>
      exists i :: 0 <= i < |devices| && IsUserCamera(devices[i]) && r.value.id == devices[i].deviceId
        && forall j :: 0 <= j < i ==> !IsUserCamera(devices[j])
    ensures r.Some? && r.value.facing == UnknownFacing ==> r.value.id == devices[0].deviceId
  {
    match IndexOf(devices, IsEnvironmentCamera)
    case Some(i) => Some(PreferredCamera(Environment, devices[i].deviceId))
    case None =>
      match IndexOf(devices, IsUserCamera)
      case Some(i) => Some(PreferredCamera(Front, devices[i].deviceId))
      case None =>
        if devices == [] then None else Some(PreferredCamera(UnknownFacing, devices[0].deviceId))
  }

  // ---- The constraint merge of startCamera ---------------------------------

  /** `{deviceId: {exact: id}}`: the track constraints that pin one device. */
  function ExactDevice(id: string): map<string, ConstraintValue> {
    map["deviceId" := ExactDeviceId(id)]
  }

  /** The device a set of constraints pins with `video.deviceId.exact`, if any. */
  function RequestedDevice(c: Constraints): Option<string> {
    if c.video.Fields? && "deviceId" in c.video.fields && c.video.fields["deviceId"].ExactDeviceId?
    then Some(c.video.fields["deviceId"].id) else None
  }

  /**
   * The table at the top of `startCamera`, from the optional `id` and
   * `constraints` arguments. Its final `else`, which returns `UnknownError`,
   * cannot be reached: the four tests before it cover every pair of
   * truthiness values, so the merge is total here.
   */
  function MergeConstraints(id: Option<string>, constraints: Option<Constraints>): (r: Constraints)
    ensures Truthy(id) ==> r.video.Fields? && RequestedDevice(r) == Some(id.value)
    ensures Truthy(id) ==> r.audio == (if constraints.Some? then constraints.value.audio else Undefined)
    ensures Truthy(id) && constraints.Some? && constraints.value.video.Fields? ==>
      r.video.fields.Keys == constraints.value.video.fields.Keys + {"deviceId"}
      && forall k :: k in constraints.value.video.fields && k != "deviceId" ==>
           r.video.fields[k] == constraints.value.video.fields[k]
    ensures Truthy(id) && (constraints.None? || !constraints.value.video.Fields?) ==>
      r.video == Fields(ExactDevice(id.value))
    ensures !Truthy(id) && constraints.Some? ==> r == constraints.value
    ensures !Truthy(id) && constraints.None? ==> r == Constraints(Undefined, Flag(true))
  {
    match constraints
    case Some(c) =>
      if Truthy(id) then
        match c.video
        case Fields(fields) => Constraints(c.audio, Fields(fields["deviceId" := ExactDeviceId(id.value)]))
        case _ => Constraints(c.audio, Fields(ExactDevice(id.value)))
      else c
    case None =>
      if Truthy(id) then Constraints(Undefined, Fields(ExactDevice(id.value)))
      else Constraints(Undefined, Flag(true))
  }

  /** Merging again with the same id changes nothing. */
  lemma MergeIdempotent(id: Option<string>, constraints: Option<Constraints>)
    ensures MergeConstraints(id, Some(MergeConstraints(id, constraints))) == MergeConstraints(id, constraints)
  {
    var r := MergeConstraints(id, constraints);
    if Truthy(id) {
      assert r.video.fields["deviceId" := ExactDeviceId(id.value)] == r.video.fields;
    }
  }

  // ---- getBrowserPermissionState -----------------------------------------------

  /** What `navigator.permissions.query({name: 'camera'})` gave: a state string, or an exception. */
  datatype PermissionQuery = QueryState(state: string) | QueryThrew(error: string)

  /** `{state, detail}` of `getBrowserPermissionState`. */
  datatype PermissionProbe = PermissionProbe(state: PermissionState, detail: string)

  /** `getBrowserPermissionState`: `granted` and `denied` kept, any other state a prompt, an exception an error. */
  function ProbePermission(q: PermissionQuery): (r: PermissionProbe)
    ensures r.state == Granted <==> q == QueryState("granted")
    ensures r.state == Denied <==> q == QueryState("denied")
    ensures r.state == Prompt <==> q.QueryState? && q.state != "granted" && q.state != "denied"
    ensures r.state == Error <==> q.QueryThrew?
    ensures q.QueryThrew? ==> r.detail == q.error
  {
    match q
    case QueryState(s) =>
      if s == "granted" then PermissionProbe(Granted, "Requests for camera access will be granted immediately")
      else if s == "denied" then PermissionProbe(Denied, "Requests will be denied immediately")
      else PermissionProbe(Prompt, "Requests will trigger a prompt to the user. The users input decides if access is allowed or not")
    case QueryThrew(e) => PermissionProbe(Error, e)
  }

  // ---- requestVideoDevice ---------------------------------------------------------

  /** The video inputs of a device listing, in order (`filter(device => device.kind === 'videoinput')`). */
  function VideoInputs(devices: seq<DeviceInfo>): (r: seq<DeviceInfo>)
    ensures |r| <= |devices|
    ensures forall d :: d in r <==> d in devices && d.kind == "videoinput"
    decreases |devices|
  {
    if devices == [] then []
    else
      var rest := VideoInputs(devices[1..]);
      assert forall d :: d in devices <==> d == devices[0] || d in devices[1..];
      if devices[0].kind == "videoinput" then [devices[0]] + rest else rest
  }

  /** A single device passes the filter exactly when it is a video input. */
  lemma VideoInputsSingle(d: DeviceInfo)
    ensures VideoInputs([d]) == if d.kind == "videoinput" then [d] else []
  {
    assert [d][1..] == [];
  }

  /**
   * The filter works piece by piece and keeps the order: filtering a
   * concatenation concatenates the filtered parts. With `VideoInputsSingle`
   * this fixes the result, duplicates and order included.
   */
  lemma {:induction false} VideoInputsConcat(a: seq<DeviceInfo>, b: seq<DeviceInfo>)
    ensures VideoInputs(a + b) == VideoInputs(a) + VideoInputs(b)
    decreases |a|
  {
    if a == [] {
      assert a + b == b;
    } else {
      var ab := a + b;
      assert ab[0] == a[0] && ab[1..] == a[1..] + b;
      VideoInputsConcat(a[1..], b);
      var head := if a[0].kind == "videoinput" then [a[0]] else [];
      assert VideoInputs(a) == head + VideoInputs(a[1..]);
      assert VideoInputs(ab) == head + VideoInputs(a[1..] + b);
    }
  }

  /**
   * What the `try` block of `requestVideoDevice` ran into: `getUserMedia` and
   * `enumerateDevices` both resolved, or one of them rejected with an error.
   */
  datatype CaptureOutcome = Opened(stream: MediaStream, enumerated: seq<DeviceInfo>) | Threw(error: PlatformError)

  /** One run of `requestVideoDevice`: the two probes around the call, what it gave and its duration. */
  datatype Attempt = Attempt(preRequest: PermissionState, outcome: CaptureOutcome, postRequest: PermissionState, durationMs: nat)

  /**
   * `requestVideoDevice` with the given error mapper: the request record;
   * nothing when the mapper throws inside the `catch`, so the call rejects.
   */
  function RequestVideoDevice(a: Attempt, mapper: PlatformError -> MapperOutcome): (r: Option<CameraRequest>)
    ensures r.None? <==> a.outcome.Threw? && mapper(a.outcome.error).Threw?
    ensures r.Some? ==> r.value.Succeeded? == a.outcome.Opened?
    ensures r.Some? ==> r.value.Duration() == a.durationMs && r.value.PostRequest() == a.postRequest
    ensures r.Some? && r.value.Succeeded? ==>
      r.value.success.permissionState == StatePair(a.preRequest, a.postRequest)
      && r.value.success.stream == a.outcome.stream
      && r.value.success.devices == VideoInputs(a.outcome.enumerated)
    ensures r.Some? && r.value.Failed? ==>
      r.value.failure.permissionState == StatePair(a.preRequest, a.postRequest)
      && mapper(a.outcome.error) == Mapped(r.value.failure.originalError, r.value.failure.mappedError)
  {
    var states := StatePair(a.preRequest, a.postRequest);
    match a.outcome
    case Opened(stream, enumerated) =>
      Some(Succeeded(SuccessfulCameraRequest(states, stream, VideoInputs(enumerated), a.durationMs)))
    case Threw(e) =>
      match mapper(e)
      case Mapped(original, mapped) => Some(Failed(FailedCameraRequest(states, original, mapped, a.durationMs)))
      case Threw => None
  }

  // ---- The videoDevices upsert -----------------------------------------------------

  /** The ids of a device listing. */
  function DeviceIds(devices: seq<DeviceInfo>): set<string> {
    set d | d in devices :: d.deviceId
  }

  /** `devices.forEach(d => videoDevices.set(d.deviceId, d))`: each device replaces the entry under its id. */
  function Upsert(m: map<string, DeviceInfo>, devices: seq<DeviceInfo>): (r: map<string, DeviceInfo>)
    ensures r.Keys == m.Keys + DeviceIds(devices)
    ensures forall k :: k in m && k !in DeviceIds(devices) ==> r[k] == m[k]
    decreases |devices|
  {
    if devices == [] then m
    else
      var init := devices[..|devices| - 1];
      var last := devices[|devices| - 1];
      assert devices == init + [last];
      assert DeviceIds(devices) == DeviceIds(init) + {last.deviceId};
      Upsert(m, init)[last.deviceId := last]
  }

  /** Under an id of the listing, the entry is the last device with that id. */
  lemma {:induction false} UpsertLastWins(m: map<string, DeviceInfo>, devices: seq<DeviceInfo>, i: nat)
    requires i < |devices|
    requires forall j :: i < j < |devices| ==> devices[j].deviceId != devices[i].deviceId
    ensures Upsert(m, devices)[devices[i].deviceId] == devices[i]
    decreases |devices|
  {
    if i < |devices| - 1 {
      UpsertLastWins(m, devices[..|devices| - 1], i);
    }
  }

  /** Every entry under an id of the listing is a device of the listing with that id. */
  lemma {:induction false} UpsertFromListing(m: map<string, DeviceInfo>, devices: seq<DeviceInfo>, k: string)
    requires k in DeviceIds(devices)
    ensures Upsert(m, devices)[k] in devices && Upsert(m, devices)[k].deviceId == k
    decreases |devices|
  {
    var init := devices[..|devices| - 1];
    var last := devices[|devices| - 1];
    assert devices == init + [last];
    if k != last.deviceId {
      assert k in DeviceIds(init);
      UpsertFromListing(m, init, k);
    }
  }

  /** The entries under the listing's ids do not depend on what the map held before. */
  lemma {:induction false} UpsertOverridesBase(m1: map<string, DeviceInfo>, m2: map<string, DeviceInfo>,
                                              devices: seq<DeviceInfo>, k: string)
    requires k in DeviceIds(devices)
    ensures Upsert(m1, devices)[k] == Upsert(m2, devices)[k]
    decreases |devices|
  {
    var init := devices[..|devices| - 1];
    var last := devices[|devices| - 1];
    assert devices == init + [last];
    if k != last.deviceId {
      assert k in DeviceIds(init);
      UpsertOverridesBase(m1, m2, init, k);
    }
  }

  /** Upserting the same listing twice is the same as once. */
  lemma UpsertIdempotent(m: map<string, DeviceInfo>, devices: seq<DeviceInfo>)
    ensures Upsert(Upsert(m, devices), devices) == Upsert(m, devices)
  {
    var once := Upsert(m, devices);
    var twice := Upsert(once, devices);
    forall k | k in twice
      ensures twice[k] == once[k]
    {
      if k in DeviceIds(devices) {
        UpsertOverridesBase(once, m, devices, k);
      }
    }
  }

  /** One more device is one more entry write. */
  lemma UpsertSnoc(m: map<string, DeviceInfo>, devices: seq<DeviceInfo>, d: DeviceInfo)
    ensures Upsert(m, devices + [d]) == Upsert(m, devices)[d.deviceId := d]
  {
    assert (devices + [d])[..|devices|] == devices;
  }

  // ---- cycleCamera ------------------------------------------------------------

  /** The index after `i` in a list of `len` devices, wrapping to the start. */
  function NextIndex(i: nat, len: nat): (r: nat)
    requires i < len
    ensures r < len
    ensures r == (i + 1) % len
  {
    if i + 1 == len then 0 else i + 1
  }
}
