/**
 * The four classification handlers of the current revision, one per
 * permission state probed before the request, and the dispatch over them.
 * `permissionGrantedHandler` also updates the registry; that part lives in
 * the handler class, and `GrantedStateHandler` is the value it returns.
 */
module Classifier {
  import opened Wrappers
  import opened Media
  import opened Enums
  import opened Rules

  /**
   * The Firefox edge case of `permissionPromptHandler`: the remembered attempt
   * was fast and left the prompt in place, and the current one was fast too.
   * The `typeof duration === 'number'` test always holds.
   */
  predicate FirefoxEdgeCase(memory: Option<OnLoadResult>, durationMs: nat) {
    memory.Some? && DeniedReasonFor(memory.value.duration) == Browser
    && memory.value.postRequestState == Prompt && DeniedReasonFor(durationMs) == Browser
  }

  /** `permissionDeniedHandler`: a failure is final and blamed on the browser; a success is accepted. */
  function DeniedStateHandler(request: CameraRequest): (r: CameraDecision)
    ensures r.AcceptedWrapper? <==> request.Succeeded?
    ensures r.AcceptedWrapper? ==> r.accepted == request.success && r.permissionState == request.PostRequest()
    ensures r.DeniedWrapper? ==>
      r.denied == request.failure && r.permissionState == Denied && r.retryable == RetryNo && r.deniedBy == Browser
  {
    match request
    case Failed(f) => DeniedWrapper(Browser, RetryNo, Denied, f)
    case Succeeded(s) => AcceptedWrapper(s.permissionState.postRequest, s)
  }

  /**
   * What `permissionGrantedHandler` returns: `DeviceNotFound` when the stream
   * has no track to read settings from, an acceptance in state `Granted`
   * otherwise; a failure is reported as a device in use, with an unknown retry.
   */
  function GrantedStateHandler(request: CameraRequest): (r: HandlerResult)
    ensures r.Failure? <==> request.Succeeded? && request.success.stream.tracks == []
    ensures r.Failure? ==> r.error == DeviceNotFound
    ensures r.Wrapped? ==> (r.decision.AcceptedWrapper? <==> request.Succeeded?)
    ensures r.Wrapped? && r.decision.AcceptedWrapper? ==>
      r.decision.permissionState == Granted && r.decision.accepted == request.success
    ensures r.Wrapped? && r.decision.DeniedWrapper? ==>
      r.decision.denied == request.failure.(mappedError := InUse)
      && r.decision.retryable == RetryUnknown
      && r.decision.deniedBy == DeniedReasonFor(request.Duration())
      && r.decision.permissionState == request.PostRequest()
  {
    match request
    case Succeeded(s) =>
      if s.stream.tracks == [] then Failure(DeviceNotFound)
      else Wrapped(AcceptedWrapper(Granted, s))
    case Failed(f) =>
      Wrapped(DeniedWrapper(DeniedReasonFor(f.duration), RetryUnknown, f.permissionState.postRequest, f.(mappedError := InUse)))
  }

  /**
   * `permissionPromptHandler`, reading the `onLoadPermissionResult` memory and
   * the user agent. The blame is always the threshold of the duration; the
   * retry value is decided by the first matching rule.
   */
  function PromptStateHandler(request: CameraRequest, memory: Option<OnLoadResult>, userAgent: string): (r: CameraDecision)
    ensures r.AcceptedWrapper? <==> request.Succeeded?
    ensures r.AcceptedWrapper? ==> r.accepted == request.success && r.permissionState == request.PostRequest()
    ensures r.DeniedWrapper? ==> r.denied == request.failure && r.deniedBy == DeniedReasonFor(request.Duration())
    ensures r.DeniedWrapper? ==>
      (r.retryable == RetryNo <==> request.PostRequest() == Denied || FirefoxEdgeCase(memory, request.Duration()))
    ensures r.DeniedWrapper? ==>
      (r.retryable.RetryAfterReload? <==>
        request.PostRequest() != Denied && !FirefoxEdgeCase(memory, request.Duration())
        && request.Duration() <= BrowserDeniedThresholdMs)
    ensures r.DeniedWrapper? ==>
      (r.retryable == RetryYes <==> request.PostRequest() != Denied && request.Duration() > BrowserDeniedThresholdMs)
    ensures r.DeniedWrapper? ==> r.retryable != RetryUnknown
    ensures r.DeniedWrapper? && r.retryable.RetryAfterReload? ==> r.retryable.button == ReloadButtonType(userAgent).result
    ensures r.DeniedWrapper? ==> r.permissionState == if r.retryable == RetryNo then Denied else request.PostRequest()
  {
    match request
    case Succeeded(s) => AcceptedWrapper(s.permissionState.postRequest, s)
    case Failed(f) =>
      var rejectedReason := DeniedReasonFor(f.duration);
      if f.permissionState.postRequest == Denied then DeniedWrapper(rejectedReason, RetryNo, Denied, f)
      else if FirefoxEdgeCase(memory, f.duration) then DeniedWrapper(Browser, RetryNo, Denied, f)
      else if rejectedReason == Browser then
        DeniedWrapper(Browser, RetryAfterReload(ReloadButtonType(userAgent).result), f.permissionState.postRequest, f)
      else DeniedWrapper(User, RetryYes, f.permissionState.postRequest, f)
  }

  /** `permissionErrorhandler`: the outcome is kept, the state reported is `Error`, and a retry is unknown. */
  function ErrorStateHandler(request: CameraRequest): (r: CameraDecision)
    ensures r.AcceptedWrapper? <==> request.Succeeded?
    ensures r.permissionState == Error
    ensures r.AcceptedWrapper? ==> r.accepted == request.success
    ensures r.DeniedWrapper? ==>
      r.denied == request.failure && r.retryable == RetryUnknown && r.deniedBy == DeniedReasonFor(request.Duration())
  {
    match request
    case Succeeded(s) => AcceptedWrapper(Error, s)
    case Failed(f) => DeniedWrapper(DeniedReasonFor(f.duration), RetryUnknown, Error, f)
  }

  /**
   * The dispatch at the end of `startCamera` and `initHandler` on the state
   * probed before the request. Its trailing `UnknownError` cannot be reached:
   * the state has four values and each has its handler, and no handler falls
   * through either.
   */
  function Classify(onLoadState: PermissionState, request: CameraRequest, memory: Option<OnLoadResult>, userAgent: string)
    : (r: HandlerResult)
    ensures r.Failure? <==> onLoadState == Granted && request.Succeeded? && request.success.stream.tracks == []
    ensures r.Failure? ==> r.error == DeviceNotFound
    ensures r.Wrapped? ==> (r.decision.AcceptedWrapper? <==> request.Succeeded?)
    ensures r.Wrapped? && r.decision.DeniedWrapper? ==>
      (r.decision.retryable == RetryUnknown <==> onLoadState == Granted || onLoadState == Error)
    ensures r.Wrapped? && r.decision.DeniedWrapper? && onLoadState != Denied ==>
      r.decision.deniedBy == DeniedReasonFor(request.Duration())
    ensures r.Wrapped? && r.decision.DeniedWrapper? && r.decision.retryable.RetryAfterReload? ==>
      onLoadState == Prompt && request.Duration() <= BrowserDeniedThresholdMs
  {
    match onLoadState
    case Denied => Wrapped(DeniedStateHandler(request))
    case Granted => GrantedStateHandler(request)
    case Prompt => Wrapped(PromptStateHandler(request, memory, userAgent))
    case Error => Wrapped(ErrorStateHandler(request))
  }

  /**
   * In `initHandler` the memory holds the current attempt. A fast failure
   * whose post-request state is still `Prompt` then always meets the Firefox
   * edge case: it is final, blamed on the browser and reported as `Denied`.
   */
  lemma InitMemoryMakesFastPromptFailureFinal(f: FailedCameraRequest, userAgent: string)
    requires f.permissionState.postRequest == Prompt && f.duration <= BrowserDeniedThresholdMs
    ensures PromptStateHandler(Failed(f), Some(OnLoadResultOf(Failed(f))), userAgent) == DeniedWrapper(Browser, RetryNo, Denied, f)
  {
  }

  /**
   * So, after `initHandler`, a prompt-state failure is retryable after a
   * reload only when the post-request state is neither `Denied` nor `Prompt`.
   */
  lemma InitAfterReloadOnlyOffPrompt(request: CameraRequest, userAgent: string)
    requires request.Failed?
    ensures var r := PromptStateHandler(request, Some(OnLoadResultOf(request)), userAgent);
      r.retryable.RetryAfterReload? ==>
        request.PostRequest() != Denied && request.PostRequest() != Prompt && request.Duration() <= BrowserDeniedThresholdMs
  {
  }

  /** With no memory, as in a `startCamera` before any `initHandler`, a fast prompt failure can be retried after a reload. */
  lemma WithoutMemoryFastPromptFailureAsksForReload(f: FailedCameraRequest, userAgent: string)
    requires f.permissionState.postRequest == Prompt && f.duration <= BrowserDeniedThresholdMs
    ensures PromptStateHandler(Failed(f), None, userAgent).retryable == RetryAfterReload(ReloadButtonType(userAgent).result)
  {
  }

  /**
   * The edge case reads only the remembered duration and state, not whether
   * the remembered request succeeded: a fast remembered success counts too.
   */
  lemma EdgeCaseIgnoresRememberedOutcome(memory: OnLoadResult, f: FailedCameraRequest, userAgent: string)
    requires memory.response.Succeeded? && memory.duration == 50 && memory.postRequestState == Prompt
    requires f.duration == 60 && f.permissionState.postRequest == Prompt
    ensures PromptStateHandler(Failed(f), Some(memory), userAgent) == DeniedWrapper(Browser, RetryNo, Denied, f)
  {
  }

  /** A failure whose post-request state is `Denied` is final whatever the duration and the memory. */
  lemma PostDeniedIsFinal(f: FailedCameraRequest, memory: Option<OnLoadResult>, userAgent: string)
    requires f.permissionState.postRequest == Denied
    ensures PromptStateHandler(Failed(f), memory, userAgent) == DeniedWrapper(DeniedReasonFor(f.duration), RetryNo, Denied, f)
  {
  }
}
