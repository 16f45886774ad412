/**
 * One function per handler of the application orchestrator
 * (src/apps/vpn/mozillavpn.cpp): each takes the orchestrator's state before
 * the handler runs and gives the state after it. Handlers run to completion
 * one at a time, so a handler is a function from state to state; the
 * asynchronous work it starts is the tasks it appends to `queue`.
 *
 * Every `setState` also runs the application's own `stateChanged` listener:
 * entering Main starts the periodic operations, entering any other state
 * stops them and queues a tunnel deactivation. Queue properties are therefore
 * stated as prefixes, suffixes and membership rather than exact contents.
 */
module VpnSpec {
  import opened Options
  import opened Tasks
  import opened VpnState

  // ---------------------------------------------------------------------
  // Scheduler, error handler and settings primitives

  function ScheduleTask(v: Vpn, t: Task): Vpn {
    v.(queue := v.queue + [t])
  }

  function DeleteTasks(v: Vpn): Vpn {
    v.(queue := [])
  }

  function ReportError(v: Vpn, e: ErrorType): Vpn {
    v.(errors := v.errors + [e])
  }

  function ClearSettings(v: Vpn): Vpn {
    v.(settings := ClearedSettings)
  }

  /** Stop the purchase handler and, without web purchase, the product registration. */
  function StopPurchases(v: Vpn, cfg: Config): (r: Vpn)
    ensures r == v.(billing := v.billing + StopCalls(cfg))
    ensures r.billing[|v.billing|] == StopSubscription
  {
    v.(billing := v.billing + StopCalls(cfg))
  }

  /** The billing calls that stop the purchase flow: the subscription, and the products without web purchase. */
  function StopCalls(cfg: Config): seq<BillingCall> {
    [StopSubscription] + (if !cfg.webPurchase then [StopProductsRegistration] else [])
  }

  /** The queue is an extension of `q`: nothing that was queued has been dropped. */
  predicate Extends(r: seq<Task>, q: seq<Task>) {
    |q| <= |r| && r[..|q|] == q
  }

  /** `r` differs from `v` in the task queue at most. */
  predicate OnlyQueueChanged(v: Vpn, r: Vpn) {
    r == v.(queue := r.queue)
  }

  /** The user, devices, keys and server list are the same in both states. */
  predicate SameAccount(v: Vpn, r: Vpn) {
    && r.user == v.user && r.deviceModel == v.deviceModel && r.keys == v.keys
    && r.serverCountriesInitialized == v.serverCountriesInitialized
  }

  /**
   * setState together with the stateChanged listener
   * (src/apps/vpn/mozillavpn.cpp:134-148).
   */
  function SetState(v: Vpn, s: AppState): (r: Vpn)
    ensures r.state == s
    ensures r.periodicRunning <==> r.state == StateMain
    ensures s == StateMain ==> r.queue == v.queue
    ensures s != StateMain ==> r.queue == v.queue + [TaskControllerAction(Deactivate)]
    ensures r == v.(state := s, periodicRunning := r.periodicRunning, queue := r.queue)
    ensures Extends(r.queue, v.queue) && SameAccount(v, r) && PeriodicConsistent(r)
  {
    if s == StateMain then v.(state := s, periodicRunning := true)
    else v.(state := s, periodicRunning := false,
            queue := v.queue + [TaskControllerAction(Deactivate)])
  }

  // ---------------------------------------------------------------------
  // Refresh and registration tasks

  /** The location must be fetched first: it is unknown and the tunnel is not up. */
  predicate LocationNeeded(v: Vpn) {
    !v.locationInitialized && (v.controller == Off || v.controller == Initializing)
  }

  function RefreshGroupChildren(cfg: Config, refreshProducts: bool): seq<Task> {
    [TaskAccount(PropagateError), TaskServers(PropagateError),
     TaskCaptivePortalLookup(PropagateError), TaskGetSubscriptionDetails(PropagateError)]
    + (if refreshProducts && !cfg.webPurchase then [TaskProducts] else [])
  }

  function RefreshDataTasks(v: Vpn, cfg: Config, refreshProducts: bool): seq<Task> {
    (if LocationNeeded(v) then [TaskGetLocation(PropagateError)] else [])
    + [TaskGroup(RefreshGroupChildren(cfg, refreshProducts))]
  }

  /**
   * scheduleRefreshDataTasks: one group refreshing account, servers, captive
   * portal list and subscription details, all propagating their errors, plus
   * the products when asked for and purchases go through the store; when the
   * location is needed it is queued on its own, ahead of the group.
   */
  function ScheduleRefreshDataTasks(v: Vpn, cfg: Config, refreshProducts: bool): (r: Vpn)
    ensures OnlyQueueChanged(v, r) && Extends(r.queue, v.queue)
    ensures |r.queue| == |v.queue| + (if LocationNeeded(v) then 2 else 1)
    ensures LocationNeeded(v) ==> r.queue[|v.queue|] == TaskGetLocation(PropagateError)
    ensures var g := r.queue[|r.queue| - 1];
      && g.TaskGroup?
      && TaskAccount(PropagateError) in g.children
      && TaskServers(PropagateError) in g.children
      && TaskCaptivePortalLookup(PropagateError) in g.children
      && TaskGetSubscriptionDetails(PropagateError) in g.children
      && (TaskProducts in g.children <==> refreshProducts && !cfg.webPurchase)
    ensures r.queue == v.queue + RefreshDataTasks(v, cfg, refreshProducts)
  {
    v.(queue := v.queue + RefreshDataTasks(v, cfg, refreshProducts))
  }

  function AddDeviceTask(cfg: Config): Task {
    TaskAddDevice(cfg.deviceName, cfg.uniqueDeviceId)
  }

  function AddCurrentDeviceAndRefreshData(v: Vpn, cfg: Config, refreshProducts: bool): (r: Vpn)
    ensures OnlyQueueChanged(v, r)
    ensures r.queue == v.queue + [AddDeviceTask(cfg)] + RefreshDataTasks(v, cfg, refreshProducts)
    ensures Extends(r.queue, v.queue) && |r.queue| >= |v.queue| + 2 && r.queue[|v.queue|] == AddDeviceTask(cfg)
  {
    ScheduleRefreshDataTasks(ScheduleTask(v, AddDeviceTask(cfg)), cfg, refreshProducts)
  }


  // ---------------------------------------------------------------------
  // Device key regeneration

  /** The stored key epoch is at least 2.5.0. */
  predicate KeyVersionCurrent(s: Settings, cfg: Config) {
    s.deviceKeyVersion.Some?
    && cfg.compareVersions(s.deviceKeyVersion.value, KeyRegenerationVersion) >= 0
  }

  /** Keys older than 2.5.0 are regenerated only for users of custom DNS. */
  predicate KeyRegenerationNeeded(s: Settings, cfg: Config) {
    !KeyVersionCurrent(s, cfg) && s.dnsProviderFlags != Gateway
  }

  /**
   * maybeRegenerateDeviceKey: nothing when the key epoch is current or DNS is
   * the gateway's; otherwise re-register this device (the server overwrites
   * the key in place, so no removal), refresh the data and check the models
   * afterwards.
   */
  function MaybeRegenerateDeviceKey(v: Vpn, cfg: Config): (r: Vpn)
    ensures OnlyQueueChanged(v, r)
    ensures !KeyRegenerationNeeded(v.settings, cfg) ==> r == v
    ensures KeyRegenerationNeeded(v.settings, cfg) ==> r.queue == v.queue + RegenerationTasks(v, cfg)
  {
    if !KeyRegenerationNeeded(v.settings, cfg) then v
    else
      var refresh := RefreshDataTasks(v, cfg, true);
      AppendAssociates(v.queue + [AddDeviceTask(cfg)], refresh, [TaskFunction(FnRegenCheck)]);
      AppendAssociates(v.queue, [AddDeviceTask(cfg)], refresh + [TaskFunction(FnRegenCheck)]);
      ScheduleTask(AddCurrentDeviceAndRefreshData(v, cfg, true), TaskFunction(FnRegenCheck))
  }

  /** The registration, the refresh and the re-check a due regeneration queues, in that order. */
  function RegenerationTasks(v: Vpn, cfg: Config): seq<Task> {
    [AddDeviceTask(cfg)] + (RefreshDataTasks(v, cfg, true) + [TaskFunction(FnRegenCheck)])
  }

  // ---------------------------------------------------------------------
  // maybeStateMain

  /** The subscription check decides: a subscription is needed, or the account is blocked. */
  predicate SubscriptionGate(v: Vpn) {
    v.user.initialized && (v.user.subscriptionNeeded || v.state == StateSubscriptionBlocked)
  }

  /** An onboarding screen has not been shown yet (post-authentication on desktop only). */
  predicate OnboardingPending(v: Vpn, cfg: Config) {
    (cfg.platform == Desktop && !v.settings.postAuthenticationShown)
    || !v.settings.telemetryPolicyShown
  }

  predicate PastOnboarding(v: Vpn, cfg: Config) {
    !SubscriptionGate(v) && !OnboardingPending(v, cfg)
  }

  /** Everything the main screen needs is in place. */
  predicate ReadyForMain(v: Vpn, cfg: Config) {
    PastOnboarding(v, cfg) && ModelsInitialized(v)
  }

  /** maybeStateMain reaches the model check and it fails. */
  predicate TakesModelReset(v: Vpn, cfg: Config) {
    PastOnboarding(v, cfg) && HasCurrentDevice(v.deviceModel, v.keys) && !ModelsInitialized(v)
  }

  /** The periodic operations run exactly on the main screen. */
  predicate PeriodicConsistent(v: Vpn) {
    v.periodicRunning <==> v.state == StateMain
  }

  /**
   * maybeStateMain (src/apps/vpn/mozillavpn.cpp:368-434): the first matching
   * check decides the screen. Its ordering is stated in VpnLemmas.
   */
  function MaybeStateMain(v: Vpn, cfg: Config): (r: Vpn)
    ensures SameAccount(v, r)
    ensures Extends(r.queue, v.queue)
    ensures PeriodicConsistent(v) ==> PeriodicConsistent(r)
  {
    if v.user.initialized && v.state != StateSubscriptionBlocked && v.user.subscriptionNeeded then
      SetState(v, StateSubscriptionNeeded)
    else if v.user.initialized && v.state == StateSubscriptionBlocked then
      v
    else if cfg.platform == Desktop && !v.settings.postAuthenticationShown then
      SetState(v, StatePostAuthentication)
    else if !v.settings.telemetryPolicyShown then
      SetState(v, StateTelemetryPolicy)
    else if !HasCurrentDevice(v.deviceModel, v.keys) then
      SetState(v, StateDeviceLimit)
    else if !ModelsInitialized(v) then
      SignOutForMissingModels(v)
    else
      EnterMain(v, cfg)
  }

  /** The models are missing: clear the settings, report, sign out, start over. */
  function SignOutForMissingModels(v: Vpn): (r: Vpn)
    ensures r.state == StateInitialize && r.userState == UserNotAuthenticated && !r.periodicRunning
    ensures r.settings == ClearedSettings && r.errors == v.errors + [RemoteServiceError]
    ensures r.user == v.user && r.deviceModel == v.deviceModel && r.keys == v.keys
    ensures r.queue == v.queue + [TaskControllerAction(Deactivate)] && Extends(r.queue, v.queue)
  {
    SetState(ReportError(ClearSettings(v), RemoteServiceError).(userState := UserNotAuthenticated),
             StateInitialize)
  }

  /** Everything is ready: regenerate the key if due, then show Main unless an update is required. */
  function EnterMain(v: Vpn, cfg: Config): (r: Vpn)
    ensures r.state == (if v.state == StateUpdateRequired then StateUpdateRequired else StateMain)
    ensures OnlyQueueChanged(v, r.(state := v.state, periodicRunning := v.periodicRunning))
    ensures Extends(r.queue, v.queue)
    ensures r.queue == MaybeRegenerateDeviceKey(v, cfg).queue
    ensures KeyRegenerationNeeded(v.settings, cfg) ==> r.queue == v.queue + RegenerationTasks(v, cfg)
    ensures PeriodicConsistent(v) ==> PeriodicConsistent(r)
  {
    var w := MaybeRegenerateDeviceKey(v, cfg);
    if w.state != StateUpdateRequired then SetState(w, StateMain) else w
  }

  // ---------------------------------------------------------------------
  // Authentication

  /** The queue's last entry is `t`. */
  predicate EndsWith(q: seq<Task>, t: Task) {
    |q| > 0 && q[|q| - 1] == t
  }

  /**
   * authenticateWithType (src/apps/vpn/mozillavpn.cpp:443-478). The source
   * asserts that an authenticated user never starts a new flow. A flow
   * requested while logging out is deferred to the logout observer.
   */
  function AuthenticateWithType(v: Vpn, t: AuthenticationType): (r: Vpn)
    requires v.userState != UserAuthenticated
    ensures r.state == StateAuthenticating && r.userState == v.userState
    ensures Extends(r.queue, v.queue) && PeriodicConsistent(r)
    ensures v.userState == UserNotAuthenticated ==>
              && |r.queue| >= 2
              && r.queue[|r.queue| - 2..] == [TaskHeartbeat, TaskAuthenticate(t)]
              && r.pendingAuthentication == v.pendingAuthentication
    ensures v.userState == UserLoggingOut ==>
              && r.queue == v.queue + [TaskControllerAction(Deactivate)]
              && r.pendingAuthentication == Some(t)
  {
    var w := SetState(v, StateAuthenticating);
    if v.userState != UserNotAuthenticated then
      w.(pendingAuthentication := Some(t))
    else
      ScheduleTask(ScheduleTask(w, TaskHeartbeat), TaskAuthenticate(t))
  }

  /** authenticate: the flow kind follows the in-app authentication feature. */
  function AuthenticationTypeFor(cfg: Config): AuthenticationType {
    if cfg.inAppAuthentication then AuthenticationInApp else AuthenticationInBrowser
  }

  /** The logout observer fires: replay the authentication deferred behind the logout. */
  function ReplayPendingAuthentication(v: Vpn): (r: Vpn)
    requires v.pendingAuthentication.Some? ==> v.userState != UserAuthenticated
    ensures v.pendingAuthentication.None? ==> r == v
    ensures v.pendingAuthentication.Some? && v.userState == UserNotAuthenticated ==>
              && r.state == StateAuthenticating
              && r.pendingAuthentication.None?
              && EndsWith(r.queue, TaskAuthenticate(v.pendingAuthentication.value))
  {
    match v.pendingAuthentication
    case None => v
    case Some(t) => AuthenticateWithType(v.(pendingAuthentication := None), t)
  }

  /** abortAuthentication: the flow was abandoned; the source asserts it was running. */
  function AbortAuthentication(v: Vpn): (r: Vpn)
    requires v.state == StateAuthenticating
    ensures r.state == StateInitialize && r.userState == v.userState && PeriodicConsistent(r)
    ensures r.queue == v.queue + [TaskControllerAction(Deactivate)]
  {
    SetState(v, StateInitialize)
  }

  // ---------------------------------------------------------------------
  // Tunnel commands

  /** deactivate: cancel everything queued, then ask for deactivation. */
  function DeactivateTunnel(v: Vpn): (r: Vpn)
    ensures r.queue == [TaskControllerAction(Deactivate)]
    ensures OnlyQueueChanged(v, r)
  {
    ScheduleTask(DeleteTasks(v), TaskControllerAction(Deactivate))
  }

  /** silentSwitch: cancel everything queued, then switch server without a teardown. */
  function SilentSwitchServer(v: Vpn): (r: Vpn)
    ensures r.queue == [TaskControllerAction(SilentSwitch)]
    ensures OnlyQueueChanged(v, r)
  {
    ScheduleTask(DeleteTasks(v), TaskControllerAction(SilentSwitch))
  }

  /** activate: cancel everything queued, regenerate the key if due, then activate. */
  function ActivateTunnel(v: Vpn, cfg: Config): (r: Vpn)
    ensures OnlyQueueChanged(v, r)
    ensures EndsWith(r.queue, TaskControllerAction(Activate))
    ensures !KeyRegenerationNeeded(v.settings, cfg) ==> r.queue == [TaskControllerAction(Activate)]
    ensures KeyRegenerationNeeded(v.settings, cfg) ==>
              r.queue == RegenerationTasks(v, cfg) + [TaskControllerAction(Activate)]
  {
    ScheduleTask(MaybeRegenerateDeviceKey(DeleteTasks(v), cfg), TaskControllerAction(Activate))
  }

  /** refreshDevices: fetch the account only from the main screen. */
  function RefreshDevices(v: Vpn): (r: Vpn)
    ensures v.state == StateMain ==> r.queue == v.queue + [TaskAccount(DoNotPropagateError)]
    ensures v.state != StateMain ==> r == v
    ensures OnlyQueueChanged(v, r)
  {
    if v.state == StateMain then ScheduleTask(v, TaskAccount(DoNotPropagateError)) else v
  }

  // ---------------------------------------------------------------------
  // Logout and reset

  /**
   * reset (src/apps/vpn/mozillavpn.cpp:856-875): deactivate, forget every
   * secret and setting, stop purchases, sign out.
   */
  function Reset(v: Vpn, cfg: Config, forceInitialState: bool): (r: Vpn)
    ensures r.userState == UserNotAuthenticated
    ensures r.settings == ClearedSettings && r.keys == ForgottenKeys && !r.hasServerData
    ensures forceInitialState ==> r.state == StateInitialize
    ensures !forceInitialState ==> r.state == v.state
    ensures r.billing == v.billing + StopCalls(cfg)
  {
    var d := DeactivateTunnel(v);
    var w := StopPurchases(d.(settings := ClearedSettings, keys := ForgottenKeys, hasServerData := false), cfg)
             .(userState := UserNotAuthenticated);
    if forceInitialState then SetState(w, StateInitialize) else w
  }

  /** cancelAuthentication: only a running authentication can be cancelled. */
  function CancelAuthentication(v: Vpn, cfg: Config): (r: Vpn)
    ensures v.state != StateAuthenticating ==> r == v
    ensures v.state == StateAuthenticating ==>
              && r.state == StateInitialize && r.userState == UserNotAuthenticated && r.keys == ForgottenKeys
              && r == Reset(v, cfg, true)
  {
    if v.state != StateAuthenticating then v else Reset(v, cfg, true)
  }

  /**
   * logout (src/apps/vpn/mozillavpn.cpp:825-854). With a registered device
   * its removal is queued and the secrets are wiped at once; otherwise the
   * wipe itself is queued.
   */
  function Logout(v: Vpn, cfg: Config): (r: Vpn)
    ensures r.state == (if v.state == StateUpdateRequired then StateUpdateRequired else StateInitialize)
    ensures r.userState == (if HasCurrentDevice(v.deviceModel, v.keys) then UserNotAuthenticated
                            else UserLoggingOut)
    ensures r.billing == v.billing + StopCalls(cfg)
                         + (if HasCurrentDevice(v.deviceModel, v.keys) then StopCalls(cfg) else [])
  {
    var a := StopPurchases(v.(userState := UserLoggingOut, queue := []), cfg);
    var b := if a.state != StateUpdateRequired then SetState(a, StateInitialize) else a;
    assert b == a.(state := b.state, periodicRunning := b.periodicRunning, queue := b.queue);
    if HasCurrentDevice(b.deviceModel, b.keys) then
      Reset(ScheduleTask(b, TaskRemoveDevice(b.keys.publicKey)), cfg, false)
    else
      ScheduleTask(b, TaskFunction(FnReset))
  }

  // ---------------------------------------------------------------------
  // Devices

  datatype RemovalOption = DeviceNotFound | DeviceStillValid | DeviceRemoved

  /**
   * The decision of maybeRemoveCurrentDevice: the device registered under
   * this installation's id is still valid when it carries the local public
   * key and a private key is held; otherwise it is stale.
   */
  function RemovalDecision(current: Option<Device>, keys: Keys): (o: RemovalOption)
    ensures o == DeviceNotFound <==> current.None?
    ensures o == DeviceStillValid <==>
              current.Some? && current.value.publicKey == keys.publicKey && keys.privateKey != ""
  {
    if current.None? then DeviceNotFound
    else if current.value.publicKey == keys.publicKey && keys.privateKey != "" then DeviceStillValid
    else DeviceRemoved
  }

  function CurrentDeviceByUniqueId(v: Vpn, cfg: Config): Option<Device> {
    DeviceFromUniqueId(v.deviceModel.devices, cfg.uniqueDeviceId)
  }

  /** The removal maybeRemoveCurrentDevice queues: the stale registration's key, if any. */
  function RemovalTasks(v: Vpn, cfg: Config): seq<Task> {
    var current := CurrentDeviceByUniqueId(v, cfg);
    if RemovalDecision(current, v.keys) == DeviceRemoved then [TaskRemoveDevice(current.value.publicKey)] else []
  }

  /** maybeRemoveCurrentDevice: a stale registration of this device is queued for removal. */
  function MaybeRemoveCurrentDevice(v: Vpn, cfg: Config): (r: (RemovalOption, Vpn))
    ensures r.0 == RemovalDecision(CurrentDeviceByUniqueId(v, cfg), v.keys)
    ensures r.0 != DeviceRemoved ==> r.1 == v
    ensures OnlyQueueChanged(v, r.1) && r.1.queue == v.queue + RemovalTasks(v, cfg)
    ensures r.0 == DeviceRemoved ==>
              && CurrentDeviceByUniqueId(v, cfg).Some?
              && r.1 == v.(queue := v.queue + [TaskRemoveDevice(CurrentDeviceByUniqueId(v, cfg).value.publicKey)])
  {
    var current := CurrentDeviceByUniqueId(v, cfg);
    var option := RemovalDecision(current, v.keys);
    assert option != DeviceRemoved ==> v.queue + RemovalTasks(v, cfg) == v.queue;
    (option, if option == DeviceRemoved then ScheduleTask(v, TaskRemoveDevice(current.value.publicKey)) else v)
  }

  /**
   * completeActivation stops early: no registration of this device, and the
   * plan is full. The count is only decremented on a removal, which never
   * coincides with the not-found outcome, so the undecremented count decides.
   */
  predicate ActivationBlocked(v: Vpn, cfg: Config) {
    CurrentDeviceByUniqueId(v, cfg).None? && ActiveDevices(v.deviceModel) >= v.user.maxDevices
  }

  /**
   * completeActivation (src/apps/vpn/mozillavpn.cpp:552-577): remove a stale
   * registration, then check the device limit, then register (or only
   * refresh a still-valid device), then re-evaluate the screen.
   */
  function CompleteActivation(v: Vpn, cfg: Config): (r: Vpn)
    ensures SameAccount(v, r)
    ensures ActivationBlocked(v, cfg) ==> r == MaybeStateMain(v, cfg)
    ensures !ActivationBlocked(v, cfg) ==>
              && OnlyQueueChanged(v, r)
              && r.queue == v.queue + (RemovalTasks(v, cfg)
                                       + RegistrationTasks(v, cfg, MaybeRemoveCurrentDevice(v, cfg).0 != DeviceStillValid))
  {
    var deviceCount: int := ActiveDevices(v.deviceModel);
    var removal := MaybeRemoveCurrentDevice(v, cfg);
    var option, w := removal.0, removal.1;
    var count := if option == DeviceRemoved then deviceCount - 1 else deviceCount;
    if count >= v.user.maxDevices && option == DeviceNotFound then
      MaybeStateMain(w, cfg)
    else
      ProceedActivation(v, cfg, removal)
  }

  /** completeActivation past the device limit, from the outcome of the removal step. */
  function ProceedActivation(v: Vpn, cfg: Config, removal: (RemovalOption, Vpn)): (r: Vpn)
    requires removal == MaybeRemoveCurrentDevice(v, cfg)
    ensures OnlyQueueChanged(v, r)
    ensures r.queue == v.queue + (RemovalTasks(v, cfg) + RegistrationTasks(v, cfg, removal.0 != DeviceStillValid))
  {
    var register := removal.0 != DeviceStillValid;
    RegistrationIgnoresQueue(v, removal.1, cfg, register);
    AppendAssociates(v.queue, RemovalTasks(v, cfg), RegistrationTasks(v, cfg, register));
    RegisterAndRefresh(removal.1, cfg, register)
  }

  /** The registration tasks depend on everything but the queue. */
  lemma RegistrationIgnoresQueue(v: Vpn, w: Vpn, cfg: Config, register: bool)
    requires OnlyQueueChanged(v, w)
    ensures RegistrationTasks(w, cfg, register) == RegistrationTasks(v, cfg, register)
  {
    assert LocationNeeded(w) == LocationNeeded(v);
  }

  lemma AppendAssociates(a: seq<Task>, b: seq<Task>, c: seq<Task>)
    ensures (a + b) + c == a + (b + c)
  {
  }

  /**
   * The tail of completeActivation: register this device unless its
   * registration is still valid, refresh the data, re-evaluate the screen.
   */
  function RegisterAndRefresh(v: Vpn, cfg: Config, register: bool): (r: Vpn)
    ensures OnlyQueueChanged(v, r)
    ensures r.queue == v.queue + RegistrationTasks(v, cfg, register)
  {
    var refresh := RefreshDataTasks(v, cfg, true);
    var check := [TaskFunction(FnMaybeStateMain)];
    if register then
      AppendAssociates(v.queue + [AddDeviceTask(cfg)], refresh, check);
      AppendAssociates(v.queue, [AddDeviceTask(cfg)], refresh + check);
      ScheduleTask(AddCurrentDeviceAndRefreshData(v, cfg, true), TaskFunction(FnMaybeStateMain))
    else
      AppendAssociates(v.queue, refresh, check);
      assert [] + (refresh + check) == refresh + check;
      ScheduleTask(ScheduleRefreshDataTasks(v, cfg, true), TaskFunction(FnMaybeStateMain))
  }

  /** The registration (unless still valid), the refresh and the screen check, in that order. */
  function RegistrationTasks(v: Vpn, cfg: Config, register: bool): seq<Task> {
    (if register then [AddDeviceTask(cfg)] else []) + (RefreshDataTasks(v, cfg, true) + [TaskFunction(FnMaybeStateMain)])
  }

  /**
   * completeAuthentication (src/apps/vpn/mozillavpn.cpp:488-529). The parsed
   * user and device list stand for the JSON parsers' outcomes (None: the
   * parse failed).
   */
  function CompleteAuthentication(v: Vpn, cfg: Config, parsedUser: Option<User>,
                                  parsedDevices: Option<DeviceModel>, token: string): (r: Vpn)
    ensures parsedUser.None? ==> r == v.(errors := v.errors + [RemoteServiceError])
    ensures parsedUser.Some? && parsedDevices.None? ==>
              r == v.(user := parsedUser.value, errors := v.errors + [RemoteServiceError])
    ensures parsedUser.Some? && parsedDevices.Some? ==>
              r == AcceptAuthentication(v.(user := parsedUser.value, deviceModel := parsedDevices.value), cfg, token)
  {
    if parsedUser.None? then ReportError(v, RemoteServiceError)
    else
      var a := v.(user := parsedUser.value);
      if parsedDevices.None? then ReportError(a, RemoteServiceError)
      else AcceptAuthentication(a.(deviceModel := parsedDevices.value), cfg, token)
  }

  /**
   * The second half of completeAuthentication, once user and devices are
   * parsed: store the token, sign in, then either wait for a subscription or
   * activate this device.
   */
  function AcceptAuthentication(v: Vpn, cfg: Config, token: string): (r: Vpn)
    ensures r.user == v.user && r.deviceModel == v.deviceModel
    ensures v.user.subscriptionNeeded ==>
              && r.userState == UserAuthenticated
              && r.settings.token == Some(token)
              && r.state == v.state
              && EndsWith(r.queue, TaskFunction(FnMaybeStateMain))
              && r.queue == v.queue + (if cfg.webPurchase then [] else [TaskProducts]) + [TaskFunction(FnMaybeStateMain)]
              && r == v.(settings := v.settings.(token := Some(token)), userState := UserAuthenticated,
                         queue := r.queue)
    ensures !v.user.subscriptionNeeded ==>
              r == CompleteActivation(v.(settings := v.settings.(token := Some(token)),
                                         userState := UserAuthenticated,
                                         billing := if cfg.webPurchase then v.billing + [StopSubscription] else v.billing), cfg)
  {
    var b := v.(settings := v.settings.(token := Some(token)), userState := UserAuthenticated);
    if b.user.subscriptionNeeded then
      var c := if !cfg.webPurchase then ScheduleTask(b, TaskProducts) else b;
      ScheduleTask(c, TaskFunction(FnMaybeStateMain))
    else
      var c := if cfg.webPurchase then b.(billing := b.billing + [StopSubscription]) else b;
      CompleteActivation(c, cfg)
  }

  /**
   * removeDevice: a device removal finished on the server
   * (src/apps/vpn/mozillavpn.cpp:614-639). From the device-limit screen the
   * current device is registered in the freed slot and the screen is
   * re-evaluated afterwards.
   */
  function RemoveDevice(v: Vpn, cfg: Config, publicKey: string): (r: Vpn)
    ensures forall d :: d in r.deviceModel.devices <==> d in v.deviceModel.devices && d.publicKey != publicKey
    ensures r.state == v.state && r.userState == v.userState
    ensures v.state != StateDeviceLimit ==> r.queue == v.queue
    ensures v.state == StateDeviceLimit ==>
              r.queue == v.queue + [AddDeviceTask(cfg)] + RefreshDataTasks(v, cfg, false)
                                 + [TaskFunction(FnDeviceLimitRecheck)]
    ensures r == v.(deviceModel := r.deviceModel, queue := r.queue)
    ensures r.deviceModel == v.deviceModel.(devices := r.deviceModel.devices)
  {
    var a := v.(deviceModel := v.deviceModel.(devices := WithoutPublicKey(v.deviceModel.devices, publicKey)));
    if a.state != StateDeviceLimit then a
    else RegisterInFreedSlot(a, cfg)
  }

  /** From the device-limit screen: register this device in the freed slot, refresh, re-check the limit. */
  function RegisterInFreedSlot(a: Vpn, cfg: Config): (r: Vpn)
    ensures OnlyQueueChanged(a, r)
    ensures r.queue == a.queue + [AddDeviceTask(cfg)] + RefreshDataTasks(a, cfg, false)
                               + [TaskFunction(FnDeviceLimitRecheck)]
    ensures && Extends(r.queue, a.queue)
            && |r.queue| > |a.queue|
            && r.queue[|a.queue|] == AddDeviceTask(cfg)
            && EndsWith(r.queue, TaskFunction(FnDeviceLimitRecheck))
  {
    ScheduleTask(AddCurrentDeviceAndRefreshData(a, cfg, false), TaskFunction(FnDeviceLimitRecheck))
  }

  /** removeDeviceFromPublicKey: the user asked to remove a device. */
  function RemoveDeviceFromPublicKey(v: Vpn, publicKey: string): (r: Vpn)
    ensures r.queue == v.queue + [TaskRemoveDevice(publicKey)]
    ensures v.state != StateDeviceLimit ==> r.deviceModel.removing == v.deviceModel.removing + {publicKey}
    ensures v.state == StateDeviceLimit ==> r.deviceModel == v.deviceModel
    ensures r.deviceModel.devices == v.deviceModel.devices && r.state == v.state
  {
    var a := ScheduleTask(v, TaskRemoveDevice(publicKey));
    if a.state != StateDeviceLimit then
      a.(deviceModel := a.deviceModel.(removing := a.deviceModel.removing + {publicKey}))
    else a
  }

  /** deviceAdded: the server registered this device with a fresh key pair. */
  function DeviceAdded(v: Vpn, cfg: Config, publicKey: string, privateKey: string): (r: Vpn)
    ensures r.keys == Keys(true, publicKey, privateKey)
    ensures r.settings.publicKey == publicKey && r.settings.privateKey == privateKey
    ensures r.settings.deviceKeyVersion == Some(cfg.appVersion)
    ensures r.queue == v.queue && r.state == v.state
  {
    v.(settings := v.settings.(privateKey := privateKey, publicKey := publicKey,
                               deviceKeyVersion := Some(cfg.appVersion)),
       keys := Keys(true, publicKey, privateKey))
  }

  /** The settings hold the key pair the application runs with. */
  predicate KeysPersisted(v: Vpn) {
    v.settings.privateKey == v.keys.privateKey && v.settings.publicKey == v.keys.publicKey
  }

  /**
   * checkCurrentDevice (src/apps/vpn/mozillavpn.cpp:791-823), with the
   * recovered journal keys written to the settings (see the finding in
   * VpnLemmas). Returns whether this device is registered.
   */
  function CheckCurrentDevice(v: Vpn): (r: (bool, Vpn))
    ensures r.0 ==> v.state != StateDeviceLimit && HasCurrentDevice(r.1.deviceModel, r.1.keys)
    ensures v.state == StateDeviceLimit ==> r == (false, v)
    ensures HasCurrentDevice(v.deviceModel, v.keys) && v.state != StateDeviceLimit ==> r == (true, v)
    ensures !r.0 && v.state != StateDeviceLimit ==> r.1.settings == ClearedSettings
    ensures v.state != StateDeviceLimit ==>
              (r.0 <==> || HasCurrentDevice(v.deviceModel, v.keys)
                        || (&& v.settings.privateKeyJournal != "" && v.settings.publicKeyJournal != ""
                            && ContainsPublicKey(v.deviceModel.devices, v.settings.publicKeyJournal)))
    ensures v.state != StateDeviceLimit && !HasCurrentDevice(v.deviceModel, v.keys)
            && v.settings.privateKeyJournal != "" && v.settings.publicKeyJournal != "" ==>
              r == RecoverJournalKeys(v)
    ensures r.1.state == v.state && r.1.queue == v.queue && r.1.userState == v.userState
  {
    if v.state == StateDeviceLimit then (false, v)
    else if HasCurrentDevice(v.deviceModel, v.keys) then (true, v)
    else if v.settings.privateKeyJournal == "" || v.settings.publicKeyJournal == "" then (false, ClearSettings(v))
    else RecoverJournalKeys(v)
  }

  /**
   * The journal fallback of checkCurrentDevice: load the journal keys; keep
   * them, persisted, if they identify a registered device, otherwise clear
   * the settings.
   */
  function RecoverJournalKeys(v: Vpn): (r: (bool, Vpn))
    ensures r.0 <==> ContainsPublicKey(v.deviceModel.devices, v.settings.publicKeyJournal)
    ensures r.1.keys == Keys(true, v.settings.publicKeyJournal, v.settings.privateKeyJournal)
    ensures r.0 ==> && HasCurrentDevice(r.1.deviceModel, r.1.keys) && KeysPersisted(r.1)
                    && r.1.settings.privateKeyJournal == "" && r.1.settings.publicKeyJournal == ""
    ensures !r.0 ==> r.1.settings == ClearedSettings
    ensures r.1.state == v.state && r.1.queue == v.queue && r.1.userState == v.userState
  {
    var s := v.settings;
    var a := v.(keys := Keys(true, s.publicKeyJournal, s.privateKeyJournal));
    if !HasCurrentDevice(a.deviceModel, a.keys) then (false, ClearSettings(a))
    else
      (true, a.(settings := s.(privateKey := s.privateKeyJournal, publicKey := s.publicKeyJournal,
                               privateKeyJournal := "", publicKeyJournal := "")))
  }

  // ---------------------------------------------------------------------
  // Subscription outcomes

  /** subscriptionStarted: retry once products are registered when purchases go through the store. */
  function SubscriptionStarted(v: Vpn, cfg: Config, productId: string): (r: Vpn)
    ensures r.state == StateSubscriptionInProgress && PeriodicConsistent(r)
    ensures !cfg.webPurchase && !v.productsRegistered ==>
              && r.billing == v.billing
              && |r.queue| >= 2
              && r.queue[|r.queue| - 2..] == [TaskProducts, TaskFunction(FnSubscriptionStarted(productId))]
              && r == SetState(v, StateSubscriptionInProgress).(queue := r.queue)
              && Extends(r.queue, SetState(v, StateSubscriptionInProgress).queue)
              && |r.queue| == |v.queue| + 3
    ensures cfg.webPurchase || v.productsRegistered ==>
              && r.billing == v.billing + [StartSubscription(productId)]
              && r == SetState(v, StateSubscriptionInProgress).(billing := r.billing)
  {
    var a := SetState(v, StateSubscriptionInProgress);
    if !cfg.webPurchase && !a.productsRegistered then
      ScheduleTask(ScheduleTask(a, TaskProducts), TaskFunction(FnSubscriptionStarted(productId)))
    else
      a.(billing := a.billing + [StartSubscription(productId)])
  }

  function RestoreSubscriptionStarted(v: Vpn): (r: Vpn)
    ensures r.state == StateSubscriptionInProgress && PeriodicConsistent(r)
    ensures r.billing == v.billing + [StartRestoreSubscription]
    ensures r == SetState(v, StateSubscriptionInProgress).(billing := r.billing)
  {
    var a := SetState(v, StateSubscriptionInProgress);
    a.(billing := a.billing + [StartRestoreSubscription])
  }

  /** Whether a platform guard drops an outcome that arrives outside a purchase. */
  predicate IgnoredOutsidePurchase(v: Vpn, cfg: Config, guarded: Platform) {
    cfg.platform == guarded && v.state != StateSubscriptionInProgress
  }

  /** subscriptionCompleted: Android ignores completions arriving outside a purchase. */
  function SubscriptionCompleted(v: Vpn, cfg: Config): (r: Vpn)
    ensures IgnoredOutsidePurchase(v, cfg, Android) ==> r == v
    ensures !IgnoredOutsidePurchase(v, cfg, Android) ==> r == CompleteActivation(v, cfg)
  {
    if cfg.platform == Android && v.state != StateSubscriptionInProgress then v
    else CompleteActivation(v, cfg)
  }

  function BillingNotAvailable(v: Vpn): (r: Vpn)
    ensures v.user.subscriptionNeeded ==> r.state == StateBillingNotAvailable
    ensures v.user.subscriptionNeeded ==> r == SetState(v, StateBillingNotAvailable)
    ensures !v.user.subscriptionNeeded ==> r == v
  {
    if v.user.subscriptionNeeded then SetState(v, StateBillingNotAvailable) else v
  }

  function SubscriptionNotValidated(v: Vpn): (r: Vpn)
    ensures r.state == StateSubscriptionNotValidated && r.userState == v.userState
    ensures r == SetState(v, StateSubscriptionNotValidated)
  {
    SetState(v, StateSubscriptionNotValidated)
  }

  /**
   * subscriptionFailedInternal: back to the subscription screen; only a
   * failure the user did not cause is reported. iOS ignores failures
   * arriving outside a purchase.
   */
  function SubscriptionFailedInternal(v: Vpn, cfg: Config, canceledByUser: bool): (r: Vpn)
    ensures IgnoredOutsidePurchase(v, cfg, IOS) ==> r == v
    ensures !IgnoredOutsidePurchase(v, cfg, IOS) ==>
              && r.state == StateSubscriptionNeeded
              && r.errors == v.errors + (if canceledByUser then [] else [SubscriptionFailureError])
              && EndsWith(r.queue, TaskFunction(FnSubscriptionRecheck))
              && r.queue == SetState(v, StateSubscriptionNeeded).queue + [TaskFunction(FnSubscriptionRecheck)]
              && Extends(r.queue, v.queue)
              && r == SetState(v, StateSubscriptionNeeded).(errors := r.errors, queue := r.queue)
  {
    if cfg.platform == IOS && v.state != StateSubscriptionInProgress then v
    else
      var a := SetState(v, StateSubscriptionNeeded);
      var b := if !canceledByUser then ReportError(a, SubscriptionFailureError) else a;
      ScheduleTask(b, TaskFunction(FnSubscriptionRecheck))
  }

  /** subscriptionFailed: a failure the user did not cause. */
  function SubscriptionFailed(v: Vpn, cfg: Config): (r: Vpn)
    ensures !IgnoredOutsidePurchase(v, cfg, IOS) ==> r.errors == v.errors + [SubscriptionFailureError]
  {
    SubscriptionFailedInternal(v, cfg, false)
  }

  /** subscriptionCanceled: the user cancelled; nothing is reported. */
  function SubscriptionCanceled(v: Vpn, cfg: Config): (r: Vpn)
    ensures r.errors == v.errors
  {
    SubscriptionFailedInternal(v, cfg, true)
  }

  /** alreadySubscribed: the subscription is held elsewhere. iOS ignores it outside a purchase. */
  function AlreadySubscribed(v: Vpn, cfg: Config): (r: Vpn)
    ensures IgnoredOutsidePurchase(v, cfg, IOS) ==> r == v
    ensures !IgnoredOutsidePurchase(v, cfg, IOS) ==> r.state == StateSubscriptionBlocked
    ensures !IgnoredOutsidePurchase(v, cfg, IOS) ==> r == SetState(v, StateSubscriptionBlocked)
  {
    if cfg.platform == IOS && v.state != StateSubscriptionInProgress then v
    else SetState(v, StateSubscriptionBlocked)
  }

  // ---------------------------------------------------------------------
  // Controller signals and backend health

  /** The controller's readyToUpdate listener. */
  function ReadyToUpdate(v: Vpn): (r: Vpn)
    ensures r.state == StateUpdateRequired && !r.periodicRunning
    ensures r == SetState(v, StateUpdateRequired)
  {
    SetState(v, StateUpdateRequired)
  }

  /** The controller's readyToBackendFailure listener (src/apps/vpn/mozillavpn.cpp:153-157). */
  function BackendFailure(v: Vpn): (r: Vpn)
    ensures r.state == StateBackendFailure && !r.periodicRunning
    ensures r.queue == [TaskControllerAction(Deactivate)]
    ensures r.userState == v.userState && r.keys == v.keys && r.settings == v.settings
  {
    SetState(DeleteTasks(v), StateBackendFailure)
  }

  /**
   * heartbeatCompleted (src/apps/vpn/mozillavpn.cpp:1190-1208). A failure
   * drives the controller into backend failure, taken here as immediate.
   */
  function HeartbeatCompleted(v: Vpn, cfg: Config, success: bool): (r: Vpn)
    ensures !success ==> r == BackendFailure(v)
    ensures success && v.state != StateBackendFailure ==> r == v
    ensures success && v.state == StateBackendFailure
            && (!ModelsInitialized(v) || v.userState != UserAuthenticated) ==>
              r.state == StateInitialize && r.userState == v.userState
    ensures success && v.state == StateBackendFailure
            && ModelsInitialized(v) && v.userState == UserAuthenticated ==>
              r == MaybeStateMain(v, cfg)
  {
    if !success then BackendFailure(v)
    else if v.state != StateBackendFailure then v
    else if !ModelsInitialized(v) || v.userState != UserAuthenticated then SetState(v, StateInitialize)
    else MaybeStateMain(v, cfg)
  }

  /**
   * errorHandled (src/apps/vpn/mozillavpn.cpp:1407-1429): any error while
   * authenticating, or a failed authentication anywhere, resets to the start.
   */
  function ErrorHandled(v: Vpn, cfg: Config, alert: AlertType): (r: Vpn)
    ensures v.state == StateAuthenticating || alert == AuthenticationFailedAlert ==>
              r == Reset(v, cfg, true)
    ensures !(v.state == StateAuthenticating || alert == AuthenticationFailedAlert) ==> r == v
  {
    if v.state == StateAuthenticating then Reset(v, cfg, true)
    else if alert == AuthenticationFailedAlert then Reset(v, cfg, true)
    else v
  }

  // ---------------------------------------------------------------------
  // Onboarding screens

  /** postAuthenticationCompleted (src/apps/vpn/mozillavpn.cpp:877-890). */
  function PostAuthenticationCompleted(v: Vpn, cfg: Config): (r: Vpn)
    ensures v.state == StateUpdateRequired ==>
              r == v.(settings := v.settings.(postAuthenticationShown := true))
    ensures v.state != StateUpdateRequired ==>
              r == MaybeStateMain(v.(settings := v.settings.(postAuthenticationShown := true)), cfg)
    ensures r.user == v.user && r.deviceModel == v.deviceModel && r.keys == v.keys
  {
    var a := v.(settings := v.settings.(postAuthenticationShown := true));
    if a.state == StateUpdateRequired then a else MaybeStateMain(a, cfg)
  }

  /** telemetryPolicyCompleted (src/apps/vpn/mozillavpn.cpp:917-935): signed-out users go on to sign in. */
  function TelemetryPolicyCompleted(v: Vpn, cfg: Config): (r: Vpn)
    ensures v.state == StateUpdateRequired ==>
              r == v.(settings := v.settings.(telemetryPolicyShown := true))
    ensures v.state != StateUpdateRequired && v.userState != UserAuthenticated ==>
              && r.state == StateAuthenticating
              && r == AuthenticateWithType(v.(settings := v.settings.(telemetryPolicyShown := true)),
                                           AuthenticationTypeFor(cfg))
    ensures v.state != StateUpdateRequired && v.userState == UserAuthenticated ==>
              r == MaybeStateMain(v.(settings := v.settings.(telemetryPolicyShown := true)), cfg)
  {
    var a := v.(settings := v.settings.(telemetryPolicyShown := true));
    if a.state == StateUpdateRequired then a
    else if a.userState != UserAuthenticated then AuthenticateWithType(a, AuthenticationTypeFor(cfg))
    else MaybeStateMain(a, cfg)
  }

  // ---------------------------------------------------------------------
  // Function tasks

  /** Run the body of a queued function task. */
  function RunClosure(v: Vpn, cfg: Config, fn: Closure): (r: Vpn)
    ensures fn == FnMaybeStateMain ==> r == MaybeStateMain(v, cfg)
    ensures fn == FnReset ==> r.userState == UserNotAuthenticated && r.keys == ForgottenKeys
    ensures fn == FnReset ==> r == Reset(v, cfg, false)
    ensures fn == FnRegenCheck && ModelsInitialized(v) ==> r == v
    ensures fn == FnRegenCheck && !ModelsInitialized(v) ==>
              && r.userState == UserNotAuthenticated && r.errors == v.errors + [RemoteServiceError]
              && r == v.(userState := UserNotAuthenticated, errors := r.errors)
    ensures fn == FnDeviceLimitRecheck && v.state != StateDeviceLimit ==> r == v
    ensures fn == FnDeviceLimitRecheck && v.state == StateDeviceLimit ==> r == MaybeStateMain(v, cfg)
    ensures fn == FnSubscriptionRecheck && (v.user.subscriptionNeeded || v.state != StateSubscriptionNeeded) ==> r == v
    ensures fn == FnSubscriptionRecheck && !v.user.subscriptionNeeded && v.state == StateSubscriptionNeeded ==>
              r == MaybeStateMain(v, cfg)
    ensures fn.FnSubscriptionStarted? ==> r == SubscriptionStarted(v, cfg, fn.productId)
  {
    match fn
    case FnMaybeStateMain => MaybeStateMain(v, cfg)
    case FnReset => Reset(v, cfg, false)
    case FnRegenCheck =>
      if !ModelsInitialized(v) then ReportError(v, RemoteServiceError).(userState := UserNotAuthenticated)
      else v
    case FnDeviceLimitRecheck =>
      if v.state != StateDeviceLimit then v else MaybeStateMain(v, cfg)
    case FnSubscriptionRecheck =>
      if !v.user.subscriptionNeeded && v.state == StateSubscriptionNeeded then MaybeStateMain(v, cfg) else v
    case FnSubscriptionStarted(productId) => SubscriptionStarted(v, cfg, productId)
  }
}
