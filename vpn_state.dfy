/**
 * The state the application orchestrator (src/apps/vpn/mozillavpn.cpp) owns
 * and reads: the UI-facing AppState, the authentication UserState, the
 * settings it consults, and abstractions of the user, device, key and server
 * models that it loads and checks. The models' own JSON and settings parsers
 * are not part of this model: their outcomes arrive as parameters.
 */
module VpnState {
  import opened Options
  import opened Tasks

  datatype AppState =
    | StateInitialize
    | StateAuthenticating
    | StatePostAuthentication
    | StateTelemetryPolicy
    | StateSubscriptionNeeded
    | StateSubscriptionInProgress
    | StateSubscriptionBlocked
    | StateSubscriptionNotValidated
    | StateBillingNotAvailable
    | StateDeviceLimit
    | StateUpdateRequired
    | StateBackendFailure
    | StateMain

  datatype UserState = UserNotAuthenticated | UserAuthenticated | UserLoggingOut

  /** The tunnel controller's state, as far as the orchestrator looks at it. */
  datatype ControllerState = Off | Initializing | Connecting | On | Confirming

  /** The connection-health monitor's verdict on the tunnel. */
  datatype Stability = Stable | Unstable | NoSignal

  /** Errors the orchestrator reports to the error handler. */
  datatype ErrorType = RemoteServiceError | SubscriptionFailureError

  /** Alerts the error handler can be showing. */
  datatype AlertType =
    | NoAlert
    | NoConnectionAlert
    | ConnectionFailedAlert
    | AuthenticationFailedAlert
    | GeoIpRestrictionAlert
    | LogoutAlert
    | OtherAlert

  /** Calls the orchestrator makes on the purchase and product handlers. */
  datatype BillingCall =
    | StartSubscription(productId: string)
    | StartRestoreSubscription
    | StopSubscription
    | StopProductsRegistration

  /** The build: which platform guards are compiled in. */
  datatype Platform = Android | IOS | Desktop

  datatype DnsProviderFlags = Gateway | NotGateway

  /**
   * Build and environment constants. `compareVersions` stands for the
   * version-string comparison utility (negative, zero or positive), which is
   * not part of this model.
   */
  datatype Config = Config(
    platform: Platform,
    webPurchase: bool,
    inAppAuthentication: bool,
    deviceName: string,
    uniqueDeviceId: string,
    appVersion: string,
    compareVersions: (string, string) -> int)

  /** The device-key epoch from which keys support custom DNS. */
  const KeyRegenerationVersion: string := "2.5.0"

  /** The settings keys the orchestrator reads and writes. */
  datatype Settings = Settings(
    token: Option<string>,
    postAuthenticationShown: bool,
    telemetryPolicyShown: bool,
    deviceKeyVersion: Option<string>,
    dnsProviderFlags: DnsProviderFlags,
    privateKey: string,
    publicKey: string,
    privateKeyJournal: string,
    publicKeyJournal: string)

  /** The settings after a clear: every modelled key back to its default. */
  const ClearedSettings: Settings :=
    Settings(None, false, false, None, Gateway, "", "", "", "")

  datatype User = User(initialized: bool, subscriptionNeeded: bool, maxDevices: nat)

  datatype Device = Device(name: string, uniqueId: string, publicKey: string)

  /** The account's device list; `removing` holds keys whose removal runs in the background. */
  datatype DeviceModel = DeviceModel(initialized: bool, devices: seq<Device>, removing: set<string>)

  datatype Keys = Keys(initialized: bool, publicKey: string, privateKey: string)

  const ForgottenKeys: Keys := Keys(false, "", "")

  /** The orchestrator's whole state: one value per field the handlers read or write. */
  datatype Vpn = Vpn(
    state: AppState,
    userState: UserState,
    settings: Settings,
    user: User,
    deviceModel: DeviceModel,
    keys: Keys,
    serverCountriesInitialized: bool,
    hasServerData: bool,
    locationInitialized: bool,
    productsRegistered: bool,
    controller: ControllerState,
    queue: seq<Task>,
    errors: seq<ErrorType>,
    billing: seq<BillingCall>,
    periodicRunning: bool,
    pendingAuthentication: Option<AuthenticationType>)

  /** The number of devices registered on the account. */
  function ActiveDevices(dm: DeviceModel): nat {
    |dm.devices|
  }

  /** The first device registered under this installation's unique id, if any. */
  function DeviceFromUniqueId(devices: seq<Device>, uniqueId: string): (r: Option<Device>)
    ensures r.Some? ==> r.value in devices && r.value.uniqueId == uniqueId
    ensures r.None? <==> forall d :: d in devices ==> d.uniqueId != uniqueId
    ensures r.Some? ==> exists i :: 0 <= i < |devices| && devices[i] == r.value
                          && forall j :: 0 <= j < i ==> devices[j].uniqueId != uniqueId
  {
    if devices == [] then None
    else if devices[0].uniqueId == uniqueId then Some(devices[0])
    else DeviceFromUniqueId(devices[1..], uniqueId)
  }

  /** Some device in the list carries `publicKey`. */
  predicate ContainsPublicKey(devices: seq<Device>, publicKey: string) {
    devices != [] && (devices[0].publicKey == publicKey || ContainsPublicKey(devices[1..], publicKey))
  }

  /** A device is the current one when it carries the local public key. */
  predicate HasCurrentDevice(dm: DeviceModel, keys: Keys) {
    ContainsPublicKey(dm.devices, keys.publicKey)
  }

  /** The device list without the devices registered under `publicKey`, order kept. */
  function WithoutPublicKey(devices: seq<Device>, publicKey: string): (r: seq<Device>)
    ensures forall d :: d in r <==> d in devices && d.publicKey != publicKey
    ensures |r| <= |devices|
    ensures (exists d :: d in devices && d.publicKey == publicKey) ==> |r| < |devices|
  {
    if devices == [] then []
    else if devices[0].publicKey == publicKey then WithoutPublicKey(devices[1..], publicKey)
    else [devices[0]] + WithoutPublicKey(devices[1..], publicKey)
  }

  /**
   * All models the main screen needs are loaded: user, server countries,
   * device list with this device registered under the local key, and keys.
   */
  predicate ModelsInitialized(v: Vpn) {
    && v.user.initialized
    && v.serverCountriesInitialized
    && v.deviceModel.initialized
    && HasCurrentDevice(v.deviceModel, v.keys)
    && v.keys.initialized
  }

  /**
   * The alert for a "no connection" error: none while the connection health
   * monitor exists and reports the connection as unsettled.
   */
  function NoConnectionErrorAlert(healthAvailable: bool, unsettled: bool): (a: AlertType)
    ensures a == NoAlert <==> healthAvailable && unsettled
    ensures a != NoAlert ==> a == NoConnectionAlert
  {
    if healthAvailable && unsettled then NoAlert else NoConnectionAlert
  }

  /**
   * The alert for an error that depends on the connection: suppressed while
   * the tunnel is up or being confirmed, reported as "no connection" when the
   * tunnel is off, and as a failed connection otherwise.
   */
  function DependentConnectionErrorAlert(controller: ControllerState): (a: AlertType)
    ensures a == NoAlert <==> controller == On || controller == Confirming
    ensures a == NoConnectionAlert <==> controller == Off
    ensures a in {NoAlert, NoConnectionAlert, ConnectionFailedAlert}
  {
    if controller == On || controller == Confirming then NoAlert
    else if controller == Off then NoConnectionAlert
    else ConnectionFailedAlert
  }
}
