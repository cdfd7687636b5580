/**
 * The enum-like value classes and the record shapes shared by the handler:
 * each class has a fixed list of static constants, a `value` string,
 * `from(value)` (the first constant with that value) and `toString()`.
 */
module Enums {
  import opened Wrappers
  import opened Media
  import Seqs

  /** `from(value)` of every class: `Object.values(Class).find(e => e.value === value)`. */
  function FromValue<T>(constants: seq<T>, valueOf: T -> string, value: string): (r: Option<T>)
    ensures r.Some? ==> r.value in constants && valueOf(r.value) == value
    ensures r.None? <==> forall j :: 0 <= j < |constants| ==> valueOf(constants[j]) != value
  {
    Seqs.Find(constants, (x: T) => valueOf(x) == value)
  }

  predicate DistinctValues<T>(constants: seq<T>, valueOf: T -> string) {
    forall i, j :: 0 <= i < j < |constants| ==> valueOf(constants[i]) != valueOf(constants[j])
  }

  /** With pairwise distinct values, `from` finds every constant by its own value. */
  lemma {:induction false} FromValueOfConstant<T>(constants: seq<T>, valueOf: T -> string, c: T)
    requires c in constants
    requires DistinctValues(constants, valueOf)
    ensures FromValue(constants, valueOf, valueOf(c)) == Some(c)
  {
    var k :| 0 <= k < |constants| && constants[k] == c;
    var r := FromValue(constants, valueOf, valueOf(c));
    assert r.Some?;
    forall i | 0 <= i < |constants| && i != k
      ensures valueOf(constants[i]) != valueOf(c)
    {
      if i < k { assert valueOf(constants[i]) != valueOf(constants[k]); }
    }
    var m :| 0 <= m < |constants| && constants[m] == r.value;
    assert m == k;
  }

  // ---- CameraInitErrorClass -------------------------------------------------

  datatype CameraInitError =
    | PermissionDismissed | PermissionDenied | InUse | Overconstrained
    | UnknownError | BrowserApiInaccessible | NoDevices | DeviceNotFound
  {
    function Value(): string {
      match this
      case PermissionDismissed => "PermissionDismissed"
      case PermissionDenied => "PermissionDenied"
      case InUse => "InUse"
      case Overconstrained => "Overconstrained"
      case UnknownError => "UnknownError"
      case BrowserApiInaccessible => "BrowserApiInaccessible"
      case NoDevices => "NoDevices"
      case DeviceNotFound => "DeviceNotFound"
    }

    /** `toString()`: the value, which `from` maps back to this constant. */
    function ToString(): (s: string)
      ensures s == Value()
      ensures CameraInitErrorFrom(s) == Some(this)
    {
      CameraInitErrorFromValue(this);
      Value()
    }
  }

  /** The static constants in declaration order, as `Object.values` lists them. */
  const CameraInitErrors: seq<CameraInitError> :=
    [PermissionDismissed, PermissionDenied, InUse, Overconstrained,
     UnknownError, BrowserApiInaccessible, NoDevices, DeviceNotFound]

  const CameraInitErrorValue: CameraInitError -> string := (c: CameraInitError) => c.Value()

  lemma CameraInitErrorsListed(c: CameraInitError)
    ensures c in CameraInitErrors
  {
    match c
    case PermissionDismissed => assert CameraInitErrors[0] == c;
    case PermissionDenied => assert CameraInitErrors[1] == c;
    case InUse => assert CameraInitErrors[2] == c;
    case Overconstrained => assert CameraInitErrors[3] == c;
    case UnknownError => assert CameraInitErrors[4] == c;
    case BrowserApiInaccessible => assert CameraInitErrors[5] == c;
    case NoDevices => assert CameraInitErrors[6] == c;
    case DeviceNotFound => assert CameraInitErrors[7] == c;
  }

  /** The eight values are pairwise distinct, so `from` is well defined. */
  lemma CameraInitErrorsDistinct()
    ensures DistinctValues(CameraInitErrors, CameraInitErrorValue)
  {
  }

  /** `CameraInitErrorClass.from`. */
  function CameraInitErrorFrom(value: string): (r: Option<CameraInitError>)
    ensures r.Some? ==> r.value.Value() == value
    ensures r.None? <==> forall c: CameraInitError :: c.Value() != value
  {
    var r := FromValue(CameraInitErrors, CameraInitErrorValue, value);
    assert r.None? ==> forall c: CameraInitError :: c.Value() != value by {
      forall c: CameraInitError | r.None? ensures c.Value() != value {
        CameraInitErrorsListed(c);
      }
    }
    r
  }

  /** `from(C.value)` returns `C` for every constant `C`. */
  lemma CameraInitErrorFromValue(c: CameraInitError)
    ensures CameraInitErrorFrom(c.Value()) == Some(c)
  {
    CameraInitErrorsListed(c);
    CameraInitErrorsDistinct();
    FromValueOfConstant(CameraInitErrors, CameraInitErrorValue, c);
  }

  // ---- BrowserDeniedReasonClass ----------------------------------------------

  datatype DeniedReason = Browser | User
  {
    function Value(): string {
      match this
      case Browser => "Browser"
      case User => "User"
    }

    /** `toString()`: the value, which `from` maps back to this constant. */
    function ToString(): (s: string)
      ensures s == Value()
      ensures DeniedReasonFrom(s) == Some(this)
    {
      DeniedReasonFromValue(this);
      Value()
    }
  }

  const DeniedReasons: seq<DeniedReason> := [Browser, User]

  const DeniedReasonValue: DeniedReason -> string := (c: DeniedReason) => c.Value()

  lemma DeniedReasonsListed(c: DeniedReason)
    ensures c in DeniedReasons
  {
    match c
    case Browser => assert DeniedReasons[0] == c;
    case User => assert DeniedReasons[1] == c;
  }

  /** The 2 values are pairwise distinct. */
  lemma DeniedReasonsDistinct()
    ensures DistinctValues(DeniedReasons, DeniedReasonValue)
  {
  }

  /** `BrowserDeniedReasonClass.from`. */
  function DeniedReasonFrom(value: string): (r: Option<DeniedReason>)
    ensures r.Some? ==> r.value.Value() == value
    ensures r.None? <==> forall c: DeniedReason :: c.Value() != value
  {
    var r := FromValue(DeniedReasons, DeniedReasonValue, value);
    assert r.None? ==> forall c: DeniedReason :: c.Value() != value by {
      forall c: DeniedReason | r.None? ensures c.Value() != value {
        DeniedReasonsListed(c);
      }
    }
    r
  }

  /** `from(C.value)` returns `C` for every constant `C`. */
  lemma DeniedReasonFromValue(c: DeniedReason)
    ensures DeniedReasonFrom(c.Value()) == Some(c)
  {
    DeniedReasonsListed(c);
    DeniedReasonsDistinct();
    FromValueOfConstant(DeniedReasons, DeniedReasonValue, c);
  }

  // ---- BrowserPermissionStateClass -------------------------------------------

  datatype PermissionState = Granted | Denied | Prompt | Error
  {
    function Value(): string {
      match this
      case Granted => "Granted"
      case Denied => "Denied"
      case Prompt => "Prompt"
      case Error => "Error"
    }

    /** `toString()`: the value, which `from` maps back to this constant. */
    function ToString(): (s: string)
      ensures s == Value()
      ensures PermissionStateFrom(s) == Some(this)
    {
      PermissionStateFromValue(this);
      Value()
    }
  }

  const PermissionStates: seq<PermissionState> := [Granted, Denied, Prompt, Error]

  const PermissionStateValue: PermissionState -> string := (c: PermissionState) => c.Value()

  lemma PermissionStatesListed(c: PermissionState)
    ensures c in PermissionStates
  {
    match c
    case Granted => assert PermissionStates[0] == c;
    case Denied => assert PermissionStates[1] == c;
    case Prompt => assert PermissionStates[2] == c;
    case Error => assert PermissionStates[3] == c;
  }

  /** The 4 values are pairwise distinct. */
  lemma PermissionStatesDistinct()
    ensures DistinctValues(PermissionStates, PermissionStateValue)
  {
  }

  /** `BrowserPermissionStateClass.from`. */
  function PermissionStateFrom(value: string): (r: Option<PermissionState>)
    ensures r.Some? ==> r.value.Value() == value
    ensures r.None? <==> forall c: PermissionState :: c.Value() != value
  {
    var r := FromValue(PermissionStates, PermissionStateValue, value);
    assert r.None? ==> forall c: PermissionState :: c.Value() != value by {
      forall c: PermissionState | r.None? ensures c.Value() != value {
        PermissionStatesListed(c);
      }
    }
    r
  }

  /** `from(C.value)` returns `C` for every constant `C`. */
  lemma PermissionStateFromValue(c: PermissionState)
    ensures PermissionStateFrom(c.Value()) == Some(c)
  {
    PermissionStatesListed(c);
    PermissionStatesDistinct();
    FromValueOfConstant(PermissionStates, PermissionStateValue, c);
  }

  // ---- PermissionsRetryableClass ---------------------------------------------

  datatype Retryable = Yes | No | AfterReload | Unknown
  {
    function Value(): string {
      match this
      case Yes => "Yes"
      case No => "No"
      case AfterReload => "AfterReload"
      case Unknown => "Unknown"
    }

    /** `toString()`: the value, which `from` maps back to this constant. */
    function ToString(): (s: string)
      ensures s == Value()
      ensures RetryableFrom(s) == Some(this)
    {
      RetryableFromValue(this);
      Value()
    }
  }

  const Retryables: seq<Retryable> := [Yes, No, AfterReload, Unknown]

  const RetryableValue: Retryable -> string := (c: Retryable) => c.Value()

  lemma RetryablesListed(c: Retryable)
    ensures c in Retryables
  {
    match c
    case Yes => assert Retryables[0] == c;
    case No => assert Retryables[1] == c;
    case AfterReload => assert Retryables[2] == c;
    case Unknown => assert Retryables[3] == c;
  }

  /** The 4 values are pairwise distinct. */
  lemma RetryablesDistinct()
    ensures DistinctValues(Retryables, RetryableValue)
  {
  }

  /** `PermissionsRetryableClass.from`. */
  function RetryableFrom(value: string): (r: Option<Retryable>)
    ensures r.Some? ==> r.value.Value() == value
    ensures r.None? <==> forall c: Retryable :: c.Value() != value
  {
    var r := FromValue(Retryables, RetryableValue, value);
    assert r.None? ==> forall c: Retryable :: c.Value() != value by {
      forall c: Retryable | r.None? ensures c.Value() != value {
        RetryablesListed(c);
      }
    }
    r
  }

  /** `from(C.value)` returns `C` for every constant `C`. */
  lemma RetryableFromValue(c: Retryable)
    ensures RetryableFrom(c.Value()) == Some(c)
  {
    RetryablesListed(c);
    RetryablesDistinct();
    FromValueOfConstant(Retryables, RetryableValue, c);
  }

  // ---- Record shapes ----------------------------------------------------------

  /** The `detail` of an after-reload retry: which button re-triggers the prompt. */
  datatype ReloadButton = BrowserButton | AnyButton {
    function Text(): string {
      match this
      case BrowserButton => "browser-button"
      case AnyButton => "any-button"
    }
  }

  /**
   * `RequestRetryableBasic | RequestRetryableAfterReload | RequestRetryableUnknown`:
   * a retry value together with the detail that value admits.
   */
  datatype RetryPolicy = RetryYes | RetryNo | RetryAfterReload(button: ReloadButton) | RetryUnknown {

    /** `retryable.value`. */
    function Value(): (v: Retryable)
      ensures v == AfterReload <==> RetryAfterReload?
    {
      match this
      case RetryYes => Yes
      case RetryNo => No
      case RetryAfterReload(_) => AfterReload
      case RetryUnknown => Unknown
    }

    /** `retryable.detail`: a button kind for `AfterReload`, `null` for the other three values. */
    function Detail(): (d: Option<string>)
      ensures d.None? <==> Value() in {Yes, No, Unknown}
      ensures d.Some? ==> d.value == "browser-button" || d.value == "any-button"
    {
      match this
      case RetryAfterReload(b) => Some(b.Text())
      case _ => None
    }
  }

  /** The `permissionState` pair of a camera request: probed before and after `getUserMedia`. */
  datatype StatePair = StatePair(preRequest: PermissionState, postRequest: PermissionState)

  /** `SuccessfulCameraRequest` (`permissionGranted: true`). */
  datatype SuccessfulCameraRequest =
    SuccessfulCameraRequest(permissionState: StatePair, stream: MediaStream, devices: seq<DeviceInfo>, duration: nat)

  /** `FailedCameraRequest` (`permissionGranted: false`). */
  datatype FailedCameraRequest =
    FailedCameraRequest(permissionState: StatePair, originalError: string, mappedError: CameraInitError, duration: nat)

  /** `SuccessfulCameraRequest | FailedCameraRequest`, told apart by `permissionGranted`. */
  datatype CameraRequest = Succeeded(success: SuccessfulCameraRequest) | Failed(failure: FailedCameraRequest) {

    predicate PermissionGranted() { Succeeded? }

    function Duration(): nat {
      match this
      case Succeeded(r) => r.duration
      case Failed(r) => r.duration
    }

    function PostRequest(): PermissionState {
      match this
      case Succeeded(r) => r.permissionState.postRequest
      case Failed(r) => r.permissionState.postRequest
    }
  }

  /**
   * `CameraRequestAcceptedWrapper | CameraRequestDeniedWrapper` (`request` is
   * `accepted` or `denied`): an accepted
   * wrapper carries a successful request, a denied one a failed request, a
   * denial reason and a retry policy.
   */
  datatype CameraDecision =
    | AcceptedWrapper(permissionState: PermissionState, accepted: SuccessfulCameraRequest)
    | DeniedWrapper(deniedBy: DeniedReason, retryable: RetryPolicy, permissionState: PermissionState, denied: FailedCameraRequest)
  {
    predicate PermissionGranted() { AcceptedWrapper? }
  }

  /** What a handler returns: a wrapper, or a `CameraInitErrorClass` constant. */
  datatype HandlerResult = Wrapped(decision: CameraDecision) | Failure(error: CameraInitError)

  /** The `onLoadPermissionResult` memory: the duration, the request and its post-request state. */
  datatype OnLoadResult = OnLoadResult(duration: nat, response: CameraRequest, postRequestState: PermissionState)

  /** The memory `initHandler` writes from the request it just made. */
  function OnLoadResultOf(request: CameraRequest): (m: OnLoadResult)
    ensures m.response == request
    ensures m.duration == request.Duration() && m.postRequestState == request.PostRequest()
  {
    OnLoadResult(request.Duration(), request, request.PostRequest())
  }
}
