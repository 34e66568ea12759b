/**
 * The native-capability hooks (`src/hooks/useNativeCapabilities.ts`): device
 * detection from the user-agent string, the capability probes, and the
 * WebAuthn-backed biometric authentication state.
 *
 * The browser is an input: whether Capacitor is present, the user agent, and
 * how each probe ended (feature missing, threw, or returned a value).
 */
module NativeCapabilities {
  import opened JsStrings

  datatype Capabilities = Capabilities(
    isNative: bool,
    hasBiometric: bool,
    hasCamera: bool,
    hasWifi: bool,
    deviceModel: string,
    isRedmiNote9Pro: bool)

  /** The state before detection finishes: nothing available, model "Unknown". */
  const InitialCapabilities: Capabilities := Capabilities(false, false, false, false, "Unknown", false)

  const RedmiMarketingName: string := "Redmi Note 9 Pro"
  const RedmiModelCode: string := "M2003J6A1G"

  datatype Device = Device(model: string, isRedmiNote9Pro: bool)

  /** `detectDevice`: the user agent names the phone by marketing name or model code. */
  function DetectDevice(userAgent: string): Device {
    var isRedmi := Includes(userAgent, RedmiMarketingName) || Includes(userAgent, RedmiModelCode);
    Device(if isRedmi then RedmiMarketingName else "Unknown Device", isRedmi)
  }

  /**
   * The phone is recognised exactly when one of its two names occurs
   * somewhere in the user agent, and the model string says so exactly then.
   */
  lemma DetectDeviceMeaning(userAgent: string)
    ensures DetectDevice(userAgent).isRedmiNote9Pro <==>
      (exists i :: OccursAt(userAgent, RedmiMarketingName, i)) || (exists i :: OccursAt(userAgent, RedmiModelCode, i))
    ensures DetectDevice(userAgent).model == RedmiMarketingName <==> DetectDevice(userAgent).isRedmiNote9Pro
    ensures !DetectDevice(userAgent).isRedmiNote9Pro ==> DetectDevice(userAgent).model == "Unknown Device"
  {
    IncludesIffOccurs(userAgent, RedmiMarketingName);
    IncludesIffOccurs(userAgent, RedmiModelCode);
  }

  /** How an asynchronous probe ended: the feature was missing, the call threw, or it returned. */
  datatype Probe<T> = Missing | Threw | Returned(value: T)

  /** An entry of `enumerateDevices()`. */
  datatype MediaDevice = MediaDevice(kind: string, deviceId: string)

  /** `devices.some(d => d.kind === 'videoinput')`, scanning from the front. */
  function AnyVideoInput(devices: seq<MediaDevice>): (r: bool)
    ensures r <==> exists i :: 0 <= i < |devices| && devices[i].kind == "videoinput"
  {
    if devices == [] then false
    else if devices[0].kind == "videoinput" then true
    else
      var r := AnyVideoInput(devices[1..]);
      assert forall i :: 1 <= i < |devices| ==> devices[i] == devices[1..][i - 1];
      r
  }

  /** The camera probe's answer: a missing API or an exception counts as no camera. */
  function CameraAvailable(probe: Probe<seq<MediaDevice>>): (r: bool)
    ensures r <==> probe.Returned? && exists i :: 0 <= i < |probe.value| && probe.value[i].kind == "videoinput"
  {
    match probe
    case Returned(devices) => AnyVideoInput(devices)
    case _ => false
  }

  /** The biometric probe's answer: a missing API or an exception counts as no biometric sensor. */
  function BiometricAvailable(probe: Probe<bool>): (r: bool)
    ensures r <==> probe == Returned(true)
  {
    match probe
    case Returned(available) => available
    case _ => false
  }

  /** What the browser offers when detection runs. */
  datatype Browser = Browser(
    hasCapacitor: bool,
    userAgent: string,
    platformAuthenticator: Probe<bool>,
    mediaDevices: Probe<seq<MediaDevice>>,
    hasConnection: bool)

  /** The capabilities `detectCapabilities` stores. */
  function DetectCapabilities(b: Browser): (c: Capabilities)
    ensures c.hasCamera <==>
              (b.mediaDevices.Returned? &&
               exists i :: 0 <= i < |b.mediaDevices.value| && b.mediaDevices.value[i].kind == "videoinput")
    ensures c.hasBiometric <==> b.platformAuthenticator == Returned(true)
    ensures c.isNative == b.hasCapacitor && c.hasWifi == b.hasConnection
    ensures c.isRedmiNote9Pro == DetectDevice(b.userAgent).isRedmiNote9Pro
    ensures c.deviceModel == DetectDevice(b.userAgent).model
  {
    var device := DetectDevice(b.userAgent);
    Capabilities(b.hasCapacitor, BiometricAvailable(b.platformAuthenticator), CameraAvailable(b.mediaDevices),
                 b.hasConnection, device.model, device.isRedmiNote9Pro)
  }

  /** The `useNativeCapabilities` hook's state. */
  class CapabilitiesHook {
    var capabilities: Capabilities

    constructor ()
      ensures capabilities == InitialCapabilities
    {
      capabilities := InitialCapabilities;
    }

    /** The mount effect's detection, once all probes have settled. */
    method Detect(b: Browser)
      modifies this
      ensures capabilities == DetectCapabilities(b)
    {
      capabilities := DetectCapabilities(b);
    }
  }

  // ---------------------------------------------------------------------------
  // Biometric authentication

  const NotSupportedMessage: string := "Biometric not supported"
  const AuthenticationFailedMessage: string := "Authentication failed"
  const UseArchitectPassword: string := "Biometric tidak tersedia. Gunakan password Architect."

  /**
   * How the WebAuthn attempt ended: no `PublicKeyCredential` in the window,
   * `credentials.create` rejected with an error of the given name and
   * message, or it resolved with a credential (`true`) or null (`false`).
   */
  datatype WebAuthnOutcome = NoPublicKeyCredential | Rejected(name: string, message: string) | Resolved(credential: bool)

  /** The error the hook raises or receives, as `(name, message)`, when authentication does not succeed. */
  function RaisedError(outcome: WebAuthnOutcome): (string, string)
    requires outcome != Resolved(true)
  {
    match outcome
    case NoPublicKeyCredential => ("Error", NotSupportedMessage)
    case Rejected(name, message) => (name, message)
    case Resolved(_) => ("Error", AuthenticationFailedMessage)
  }

  /** The `catch` block's error text for a raised error. */
  function FailureText(name: string, message: string): (r: string)
    ensures r != ""
    ensures r == UseArchitectPassword <==> name == "NotSupportedError" || message == NotSupportedMessage || message == UseArchitectPassword
  {
    if name == "NotSupportedError" || message == NotSupportedMessage then UseArchitectPassword
    else if message != "" then message
    else AuthenticationFailedMessage
  }

  /**
   * Which failures send the user to the architect password: a missing
   * WebAuthn API and a `NotSupportedError` do; a null credential and any
   * other rejection show their own message, or "Authentication failed" when
   * it is empty.
   */
  lemma FailureTextCases(outcome: WebAuthnOutcome)
    requires outcome != Resolved(true)
    ensures outcome.NoPublicKeyCredential? ==> FailureText(RaisedError(outcome).0, RaisedError(outcome).1) == UseArchitectPassword
    ensures outcome == Resolved(false) ==> FailureText(RaisedError(outcome).0, RaisedError(outcome).1) == AuthenticationFailedMessage
    ensures outcome.Rejected? && outcome.name == "NotSupportedError" ==>
      FailureText(RaisedError(outcome).0, RaisedError(outcome).1) == UseArchitectPassword
    ensures outcome.Rejected? && outcome.name != "NotSupportedError" && outcome.message != NotSupportedMessage ==>
      FailureText(RaisedError(outcome).0, RaisedError(outcome).1) ==
        (if outcome.message == "" then AuthenticationFailedMessage else outcome.message)
  {
  }

  /** The `useBiometricAuth` hook's state. */
  class BiometricAuthHook {
    var isAuthenticating: bool
    var isAuthenticated: bool
    var error: Option<string>

    constructor ()
      ensures !isAuthenticating && !isAuthenticated && error.None?
    {
      isAuthenticating := false;
      isAuthenticated := false;
      error := None;
    }

    /** `authenticate()` up to its first `await`: busy, and any earlier error cleared. */
    method BeginAuthenticate()
      modifies this
      ensures isAuthenticating && error.None? && isAuthenticated == old(isAuthenticated)
    {
      isAuthenticating := true;
      error := None;
    }

    /**
     * The rest of `authenticate()` once the WebAuthn attempt has ended: true
     * exactly for a resolved credential; on every failure it is false, no
     * longer busy, and an error is set.
     */
    method CompleteAuthenticate(outcome: WebAuthnOutcome) returns (ok: bool)
      requires isAuthenticating && error.None?
      modifies this
      ensures !isAuthenticating
      ensures ok <==> outcome == Resolved(true)
      ensures ok ==> isAuthenticated && error.None?
      ensures !ok ==> error == Some(FailureText(RaisedError(outcome).0, RaisedError(outcome).1)) &&
                      error.value != "" && isAuthenticated == old(isAuthenticated)
    {
      if outcome == Resolved(true) {
        isAuthenticated := true;
        isAuthenticating := false;
        return true;
      }
      var (name, message) := RaisedError(outcome);
      if name == "NotSupportedError" || message == NotSupportedMessage {
        error := Some(UseArchitectPassword);
      } else {
        error := Some(if message != "" then message else AuthenticationFailedMessage);
      }
      isAuthenticating := false;
      ok := false;
    }

    /** The whole `authenticate()` call. */
    method Authenticate(outcome: WebAuthnOutcome) returns (ok: bool)
      modifies this
      ensures !isAuthenticating
      ensures ok <==> outcome == Resolved(true)
      ensures ok ==> isAuthenticated && error.None?
      ensures !ok ==> error == Some(FailureText(RaisedError(outcome).0, RaisedError(outcome).1)) &&
                      isAuthenticated == old(isAuthenticated)
    {
      BeginAuthenticate();
      ok := CompleteAuthenticate(outcome);
    }
  }
}
