/**
 * `cameraErrorMessageMapper`: the first-match cascade that turns a rejection
 * of `getUserMedia` into a `CameraInitErrorClass` constant, in the current
 * form and in the oldest revision's form, which lacks the start/failed rule.
 */
module ErrorMapper {
  import opened Wrappers
  import opened Text
  import opened Enums

  /** What the mapper reads of a rejection `e`: `e.name` (empty when absent) and `String(e)`. */
  datatype PlatformError = PlatformError(name: string, text: string)

  /** The mapper either returns `{originalError, mappedError}` or throws a `TypeError`. */
  datatype MapperOutcome = Mapped(originalError: string, mappedError: CameraInitError) | Threw

  /** `String(e).split(':')[1].trim()`; nothing when `[1]` is `undefined`, where `.trim()` throws. */
  function ErrorDetail(text: string): (r: Option<string>)
    ensures r.None? <==> ':' !in text
  {
    var parts := Split(text, ':');
    if |parts| > 1 then Some(Trim(parts[1])) else None
  }

  /** The rejection gets past the two guards before line 141 of the current revision. */
  predicate PassesGuards(e: PlatformError) {
    e.text != "" && e.name != "" && e.text != "OverconstrainedError"
  }

  /** The rejection reaches the name tests: past the guards, and `String(e)` has a `':'`. */
  predicate ReachesNameTests(e: PlatformError) {
    PassesGuards(e) && ':' in e.text
  }

  predicate NotAllowedDenied(e: PlatformError) {
    e.name == "NotAllowedError" && Contains(e.text, "denied")
  }

  predicate NotAllowedDismissed(e: PlatformError) {
    e.name == "NotAllowedError" && Contains(e.text, "dismissed")
  }

  predicate NotReadableInUse(e: PlatformError) {
    e.name == "NotReadableError" && ErrorDetail(e.text) == Some("Device in use")
  }

  /** The lower-cased `String(e)` mentions both "start" and "failed". */
  predicate StartFailed(text: string) {
    Contains(ToLower(text), "start") && Contains(ToLower(text), "failed")
  }

  /** The cascade of both revisions; `startFailedRule` says whether the start/failed rule is present. */
  function MapperCascade(e: PlatformError, startFailedRule: bool): MapperOutcome {
    var stringed := e.text;
    if stringed == "" || e.name == "" then Mapped(stringed, UnknownError)
    else if stringed == "OverconstrainedError" then Mapped(stringed, Overconstrained)
    else match ErrorDetail(stringed)
      case None => Threw
      case Some(detail) =>
        if e.name == "NotAllowedError" && Contains(stringed, "denied") then Mapped(stringed, PermissionDenied)
        else if e.name == "NotAllowedError" && Contains(stringed, "dismissed") then Mapped(stringed, PermissionDismissed)
        else if e.name == "NotReadableError" && detail == "Device in use" then Mapped(stringed, InUse)
        else if startFailedRule && StartFailed(stringed) then Mapped(stringed, InUse)
        else Mapped(stringed, UnknownError)
  }

  /** `cameraErrorMessageMapper` of the current revision: the first rule that matches decides. */
  function MapCameraError(e: PlatformError): (r: MapperOutcome)
    ensures r.Mapped? ==> r.originalError == e.text
    ensures r.Mapped? ==> r.mappedError in {PermissionDenied, PermissionDismissed, InUse, Overconstrained, UnknownError}
    ensures r.Threw? <==> PassesGuards(e) && ':' !in e.text
    ensures e.text == "" || e.name == "" ==> r == Mapped(e.text, UnknownError)
    ensures r == Mapped(e.text, Overconstrained) <==> e.name != "" && e.text == "OverconstrainedError"
    ensures r == Mapped(e.text, PermissionDenied) <==> ReachesNameTests(e) && NotAllowedDenied(e)
    ensures r == Mapped(e.text, PermissionDismissed) <==>
      ReachesNameTests(e) && !NotAllowedDenied(e) && NotAllowedDismissed(e)
    ensures r == Mapped(e.text, InUse) <==>
      ReachesNameTests(e) && !NotAllowedDenied(e) && !NotAllowedDismissed(e)
      && (NotReadableInUse(e) || StartFailed(e.text))
  {
    MapperCascade(e, true)
  }

  /** `cameraErrorMessageMapper` of the oldest revision: the same cascade without the start/failed rule. */
  function LegacyMapCameraError(e: PlatformError): (r: MapperOutcome)
    ensures r == Mapped(e.text, InUse) <==>
      ReachesNameTests(e) && !NotAllowedDenied(e) && !NotAllowedDismissed(e) && NotReadableInUse(e)
  {
    MapperCascade(e, false)
  }

  /** The two revisions agree except on errors that only the start/failed rule calls `InUse`. */
  lemma LegacyDiffersOnlyByStartFailed(e: PlatformError)
    ensures LegacyMapCameraError(e) != MapCameraError(e) <==>
      ReachesNameTests(e) && !NotAllowedDenied(e) && !NotAllowedDismissed(e)
      && !NotReadableInUse(e) && StartFailed(e.text)
    ensures LegacyMapCameraError(e) != MapCameraError(e) ==>
      MapCameraError(e) == Mapped(e.text, InUse) && LegacyMapCameraError(e) == Mapped(e.text, UnknownError)
  {
  }

  // ---- Splitting `String(e)` ------------------------------------------------

  lemma {:induction false} SplitWithoutSeparator(s: string, sep: char)
    requires sep !in s
    ensures Split(s, sep) == [s]
    decreases |s|
  {
    if s != [] {
      SplitWithoutSeparator(s[1..], sep);
      assert [s[0]] + s[1..] == s;
    }
  }

  lemma {:induction false} SplitAtFirstSeparator(a: string, b: string, sep: char)
    requires sep !in a
    ensures Split(a + [sep] + b, sep) == [a] + Split(b, sep)
    decreases |a|
  {
    if a == [] {
      assert a + [sep] + b == [sep] + b;
      assert ([sep] + b)[1..] == b;
    } else {
      SplitAtFirstSeparator(a[1..], b, sep);
      var s := a + [sep] + b;
      assert s[0] == a[0] && s[1..] == a[1..] + [sep] + b;
      assert [a[0]] + a[1..] == a;
    }
  }

  /** The detail of `"<name>: <message>"` is the trimmed message when neither part holds a `':'`. */
  lemma DetailOfNamedMessage(name: string, message: string)
    requires ':' !in name && ':' !in message
    ensures ErrorDetail(name + ":" + message) == Some(Trim(message))
  {
    assert name + ":" + message == name + [':'] + message;
    SplitAtFirstSeparator(name, message, ':');
    SplitWithoutSeparator(message, ':');
  }

  // ---- Worked cases of the mapper cascade --------------------------------------

  /** `String(e)` of a rejection is `"<name>: <message>"`; with a `':'`-free name it reaches the name tests. */
  lemma NamedMessageReachesNameTests(name: string, message: string)
    requires name != "" && ':' !in name
    ensures ReachesNameTests(PlatformError(name, name + ":" + message))
  {
    var t := name + ":" + message;
    assert t[|name|] == ':';
    assert ':' !in "OverconstrainedError";
  }

  /** A `NotAllowedError` whose message says "denied" is a permission denial. */
  lemma DeniedMessage(message: string)
    requires Contains(message, "denied")
    ensures MapCameraError(PlatformError("NotAllowedError", "NotAllowedError" + ":" + message))
         == Mapped("NotAllowedError" + ":" + message, PermissionDenied)
  {
    NamedMessageReachesNameTests("NotAllowedError", message);
    ContainsInSuffix("NotAllowedError" + ":", message, "denied");
  }

  /** A `NotAllowedError` saying "dismissed" and not "denied" is a dismissal. */
  lemma DismissedMessage(message: string)
    requires Contains(message, "dismissed") && !Contains("NotAllowedError" + ":" + message, "denied")
    ensures MapCameraError(PlatformError("NotAllowedError", "NotAllowedError" + ":" + message))
         == Mapped("NotAllowedError" + ":" + message, PermissionDismissed)
  {
    NamedMessageReachesNameTests("NotAllowedError", message);
    ContainsInSuffix("NotAllowedError" + ":", message, "dismissed");
  }

  /** A `NotReadableError` whose trimmed detail is exactly "Device in use" is a device in use. */
  lemma DeviceInUseMessage(message: string)
    requires ':' !in message && Trim(message) == "Device in use"
    ensures MapCameraError(PlatformError("NotReadableError", "NotReadableError" + ":" + message))
         == Mapped("NotReadableError" + ":" + message, InUse)
  {
    var e := PlatformError("NotReadableError", "NotReadableError" + ":" + message);
    NamedMessageReachesNameTests("NotReadableError", message);
    DetailOfNamedMessage("NotReadableError", message);
    assert NotReadableInUse(e);
    assert !NotAllowedDenied(e) && !NotAllowedDismissed(e);
  }

  /**
   * A rejection of any other name whose message mentions "start" and "failed"
   * is `InUse` now, and was `UnknownError` in the oldest revision.
   */
  lemma StartFailedMessage(name: string, message: string)
    requires name != "" && ':' !in name && name != "NotAllowedError" && name != "NotReadableError"
    requires StartFailed(message)
    ensures MapCameraError(PlatformError(name, name + ":" + message)) == Mapped(name + ":" + message, InUse)
    ensures LegacyMapCameraError(PlatformError(name, name + ":" + message))
         == Mapped(name + ":" + message, UnknownError)
  {
    NamedMessageReachesNameTests(name, message);
    var t := name + ":" + message;
    ToLowerConcat(name + ":", message);
    ContainsInSuffix(ToLower(name + ":"), ToLower(message), "start");
    ContainsInSuffix(ToLower(name + ":"), ToLower(message), "failed");
    assert StartFailed(t);
  }

  /** An over-constrained error without a `name` is not recognised: the name guard comes first. */
  lemma UnnamedOverconstrained()
    ensures MapCameraError(PlatformError("", "OverconstrainedError")) == Mapped("OverconstrainedError", UnknownError)
    ensures MapCameraError(PlatformError("OverconstrainedError", "OverconstrainedError"))
         == Mapped("OverconstrainedError", Overconstrained)
  {
  }
}
