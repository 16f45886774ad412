/**
 * The application orchestrator as the object it is in
 * src/apps/vpn/mozillavpn.cpp: one instance whose handlers update its fields
 * in place, append to or clear the global task queue and call one another.
 *
 * Every handler is proved against the handler function of the same name in
 * VpnSpec: its new state, read through `Snapshot()`, is what that function
 * gives for the old state. The properties of the handlers are proved about
 * those functions (VpnSpec's postconditions and VpnLemmas).
 */
module Orchestrator {
  import opened Options
  import opened Tasks
  import opened VpnState
  import VpnSpec

  class MozillaVPN {
    /** The build and feature configuration the instance runs with. */
    const cfg: Config

    var state: AppState
    var userState: UserState
    var settings: Settings
    var user: User
    var deviceModel: DeviceModel
    var keys: Keys
    var serverCountriesInitialized: bool
    var hasServerData: bool
    var locationInitialized: bool
    var productsRegistered: bool
    var controller: ControllerState
    /** The task scheduler's queue: handlers append to it and the tunnel commands clear it. */
    var queue: seq<Task>
    /** The errors reported to the error handler, oldest first. */
    var errors: seq<ErrorType>
    /** The calls made on the purchase handler, oldest first. */
    var billing: seq<BillingCall>
    /** Whether the periodic operations timer is running. */
    var periodicRunning: bool
    /** An authentication requested while logging out, replayed when the logout finishes. */
    var pendingAuthentication: Option<AuthenticationType>

    /** The instance's state as a value. */
    function Snapshot(): Vpn
      reads this
    {
      Vpn(state, userState, settings, user, deviceModel, keys, serverCountriesInitialized,
          hasServerData, locationInitialized, productsRegistered, controller, queue, errors,
          billing, periodicRunning, pendingAuthentication)
    }

    /** An instance resuming from the state `v`. */
    constructor (cfg: Config, v: Vpn)
      ensures this.cfg == cfg && Snapshot() == v
    {
      this.cfg := cfg;
      state, userState, settings, user := v.state, v.userState, v.settings, v.user;
      deviceModel, keys := v.deviceModel, v.keys;
      serverCountriesInitialized, hasServerData := v.serverCountriesInitialized, v.hasServerData;
      locationInitialized, productsRegistered := v.locationInitialized, v.productsRegistered;
      controller, queue, errors, billing := v.controller, v.queue, v.errors, v.billing;
      periodicRunning, pendingAuthentication := v.periodicRunning, v.pendingAuthentication;
    }

    // -------------------------------------------------------------------
    // Scheduler and listener

    method ScheduleTask(t: Task)
      modifies this
      ensures Snapshot() == VpnSpec.ScheduleTask(old(Snapshot()), t)
    {
      queue := queue + [t];
    }

    method DeleteTasks()
      modifies this
      ensures Snapshot() == VpnSpec.DeleteTasks(old(Snapshot()))
    {
      queue := [];
    }

    method ReportError(e: ErrorType)
      modifies this
      ensures Snapshot() == VpnSpec.ReportError(old(Snapshot()), e)
    {
      errors := errors + [e];
    }

    /** setState followed by the stateChanged listener. */
    method SetState(s: AppState)
      modifies this
      ensures Snapshot() == VpnSpec.SetState(old(Snapshot()), s)
    {
      state := s;
      if state == StateMain {
        periodicRunning := true;
      } else {
        periodicRunning := false;
        ScheduleTask(TaskControllerAction(ControllerAction.Deactivate));
      }
    }

    method StopPurchases()
      modifies this
      ensures Snapshot() == VpnSpec.StopPurchases(old(Snapshot()), cfg)
    {
      billing := billing + [StopSubscription];
      if !cfg.webPurchase {
        billing := billing + [StopProductsRegistration];
      }
    }

    // -------------------------------------------------------------------
    // Refresh, registration and key regeneration

    /** scheduleRefreshDataTasks: build the group's task list, queue the location first when needed. */
    method ScheduleRefreshDataTasks(refreshProducts: bool)
      modifies this
      ensures Snapshot() == VpnSpec.ScheduleRefreshDataTasks(old(Snapshot()), cfg, refreshProducts)
    {
      ghost var q := queue;
      var refreshTasks := [TaskAccount(PropagateError), TaskServers(PropagateError),
                           TaskCaptivePortalLookup(PropagateError), TaskGetSubscriptionDetails(PropagateError)];
      if !locationInitialized && (controller == Off || controller == Initializing) {
        ScheduleTask(TaskGetLocation(PropagateError));
      }
      if refreshProducts && !cfg.webPurchase {
        refreshTasks := refreshTasks + [TaskProducts];
      }
      ScheduleTask(TaskGroup(refreshTasks));
      assert refreshTasks == VpnSpec.RefreshGroupChildren(cfg, refreshProducts);
      if VpnSpec.LocationNeeded(old(Snapshot())) {
        VpnSpec.AppendAssociates(q, [TaskGetLocation(PropagateError)], [TaskGroup(refreshTasks)]);
      } else {
        assert [] + [TaskGroup(refreshTasks)] == [TaskGroup(refreshTasks)];
      }
    }

    method AddCurrentDeviceAndRefreshData(refreshProducts: bool)
      modifies this
      ensures Snapshot() == VpnSpec.AddCurrentDeviceAndRefreshData(old(Snapshot()), cfg, refreshProducts)
    {
      ScheduleTask(TaskAddDevice(cfg.deviceName, cfg.uniqueDeviceId));
      ScheduleRefreshDataTasks(refreshProducts);
    }

    method MaybeRegenerateDeviceKey()
      modifies this
      ensures Snapshot() == VpnSpec.MaybeRegenerateDeviceKey(old(Snapshot()), cfg)
    {
      if VpnSpec.KeyVersionCurrent(settings, cfg) {
        return;
      }
      if settings.dnsProviderFlags == Gateway {
        return;
      }
      AddCurrentDeviceAndRefreshData(true);
      ScheduleTask(TaskFunction(FnRegenCheck));
    }

    // -------------------------------------------------------------------
    // maybeStateMain

    method MaybeStateMain()
      modifies this
      ensures Snapshot() == VpnSpec.MaybeStateMain(old(Snapshot()), cfg)
    {
      if user.initialized {
        if state != StateSubscriptionBlocked && user.subscriptionNeeded {
          SetState(StateSubscriptionNeeded);
          return;
        }
        if state == StateSubscriptionBlocked {
          return;
        }
      }
      if cfg.platform == Desktop && !settings.postAuthenticationShown {
        SetState(StatePostAuthentication);
        return;
      }
      if !settings.telemetryPolicyShown {
        SetState(StateTelemetryPolicy);
        return;
      }
      if !HasCurrentDevice(deviceModel, keys) {
        SetState(StateDeviceLimit);
        return;
      }
      if !ModelsInitialized(Snapshot()) {
        settings := ClearedSettings;
        ReportError(RemoteServiceError);
        userState := UserNotAuthenticated;
        SetState(StateInitialize);
        return;
      }
      MaybeRegenerateDeviceKey();
      if state != StateUpdateRequired {
        SetState(StateMain);
      }
    }

    // -------------------------------------------------------------------
    // Authentication

    /** authenticateWithType: the source asserts an authenticated user never gets here. */
    method AuthenticateWithType(t: AuthenticationType)
      requires userState != UserAuthenticated
      modifies this
      ensures Snapshot() == VpnSpec.AuthenticateWithType(old(Snapshot()), t)
    {
      SetState(StateAuthenticating);
      if userState != UserNotAuthenticated {
        pendingAuthentication := Some(t);
        return;
      }
      ScheduleTask(TaskHeartbeat);
      ScheduleTask(TaskAuthenticate(t));
    }

    method Authenticate()
      requires userState != UserAuthenticated
      modifies this
      ensures Snapshot() == VpnSpec.AuthenticateWithType(old(Snapshot()), VpnSpec.AuthenticationTypeFor(cfg))
    {
      AuthenticateWithType(if cfg.inAppAuthentication then AuthenticationInApp else AuthenticationInBrowser);
    }

    /** The logout observer reports that the logout finished. */
    method ReplayPendingAuthentication()
      requires pendingAuthentication.Some? ==> userState != UserAuthenticated
      modifies this
      ensures Snapshot() == VpnSpec.ReplayPendingAuthentication(old(Snapshot()))
    {
      match pendingAuthentication
      case None =>
      case Some(t) =>
        pendingAuthentication := None;
        AuthenticateWithType(t);
    }

    method AbortAuthentication()
      requires state == StateAuthenticating
      modifies this
      ensures Snapshot() == VpnSpec.AbortAuthentication(old(Snapshot()))
    {
      SetState(StateInitialize);
    }

    /** completeAuthentication, with the parsers' outcomes as inputs (None: the parse failed). */
    method CompleteAuthentication(parsedUser: Option<User>, parsedDevices: Option<DeviceModel>, token: string)
      modifies this
      ensures Snapshot() == VpnSpec.CompleteAuthentication(old(Snapshot()), cfg, parsedUser, parsedDevices, token)
    {
      if parsedUser.None? {
        ReportError(RemoteServiceError);
        return;
      }
      user := parsedUser.value;
      if parsedDevices.None? {
        ReportError(RemoteServiceError);
        return;
      }
      deviceModel := parsedDevices.value;
      AcceptAuthentication(token);
    }

    /** The rest of completeAuthentication, once the user and the devices are parsed. */
    method AcceptAuthentication(token: string)
      modifies this
      ensures Snapshot() == VpnSpec.AcceptAuthentication(old(Snapshot()), cfg, token)
    {
      ghost var v := Snapshot();
      settings := settings.(token := Some(token));
      userState := UserAuthenticated;
      assert Snapshot() == v.(settings := v.settings.(token := Some(token)), userState := UserAuthenticated);
      if user.subscriptionNeeded {
        if !cfg.webPurchase {
          ScheduleTask(TaskProducts);
        }
        ScheduleTask(TaskFunction(FnMaybeStateMain));
        return;
      }
      ghost var b := Snapshot();
      if cfg.webPurchase {
        billing := billing + [StopSubscription];
      }
      assert Snapshot() == if cfg.webPurchase then b.(billing := b.billing + [StopSubscription]) else b;
      assert VpnSpec.AcceptAuthentication(v, cfg, token) == VpnSpec.CompleteActivation(Snapshot(), cfg);
      CompleteActivation();
    }

    /** cancelAuthentication: only a running authentication can be cancelled. */
    method CancelAuthentication()
      modifies this
      ensures Snapshot() == VpnSpec.CancelAuthentication(old(Snapshot()), cfg)
    {
      if state != StateAuthenticating {
        return;
      }
      Reset(true);
    }

    // -------------------------------------------------------------------
    // Devices and activation

    method MaybeRemoveCurrentDevice() returns (option: VpnSpec.RemovalOption)
      modifies this
      ensures (option, Snapshot()) == VpnSpec.MaybeRemoveCurrentDevice(old(Snapshot()), cfg)
    {
      var currentDevice := DeviceFromUniqueId(deviceModel.devices, cfg.uniqueDeviceId);
      if currentDevice.None? {
        return VpnSpec.DeviceNotFound;
      }
      if currentDevice.value.publicKey == keys.publicKey && keys.privateKey != "" {
        return VpnSpec.DeviceStillValid;
      }
      ScheduleTask(TaskRemoveDevice(currentDevice.value.publicKey));
      return VpnSpec.DeviceRemoved;
    }

    method CompleteActivation()
      modifies this
      ensures Snapshot() == VpnSpec.CompleteActivation(old(Snapshot()), cfg)
    {
      var deviceCount: int := ActiveDevices(deviceModel);
      var option := MaybeRemoveCurrentDevice();
      if option == VpnSpec.DeviceRemoved {
        deviceCount := deviceCount - 1;
      }
      if deviceCount >= user.maxDevices && option == VpnSpec.DeviceNotFound {
        MaybeStateMain();
        return;
      }
      if option != VpnSpec.DeviceStillValid {
        AddCurrentDeviceAndRefreshData(true);
      } else {
        ScheduleRefreshDataTasks(true);
      }
      ScheduleTask(TaskFunction(FnMaybeStateMain));
    }

    method DeviceAdded(publicKey: string, privateKey: string)
      modifies this
      ensures Snapshot() == VpnSpec.DeviceAdded(old(Snapshot()), cfg, publicKey, privateKey)
    {
      settings := settings.(privateKey := privateKey, publicKey := publicKey);
      keys := Keys(true, publicKey, privateKey);
      settings := settings.(deviceKeyVersion := Some(cfg.appVersion));
    }

    method RemoveDevice(publicKey: string)
      modifies this
      ensures Snapshot() == VpnSpec.RemoveDevice(old(Snapshot()), cfg, publicKey)
    {
      deviceModel := deviceModel.(devices := WithoutPublicKey(deviceModel.devices, publicKey));
      if state != StateDeviceLimit {
        return;
      }
      AddCurrentDeviceAndRefreshData(false);
      ScheduleTask(TaskFunction(FnDeviceLimitRecheck));
    }

    method RemoveDeviceFromPublicKey(publicKey: string)
      modifies this
      ensures Snapshot() == VpnSpec.RemoveDeviceFromPublicKey(old(Snapshot()), publicKey)
    {
      ScheduleTask(TaskRemoveDevice(publicKey));
      if state != StateDeviceLimit {
        deviceModel := deviceModel.(removing := deviceModel.removing + {publicKey});
      }
    }

    /** checkCurrentDevice, persisting the recovered journal keys. */
    method CheckCurrentDevice() returns (found: bool)
      modifies this
      ensures (found, Snapshot()) == VpnSpec.CheckCurrentDevice(old(Snapshot()))
    {
      if state == StateDeviceLimit {
        return false;
      }
      if HasCurrentDevice(deviceModel, keys) {
        return true;
      }
      if settings.privateKeyJournal == "" || settings.publicKeyJournal == "" {
        settings := ClearedSettings;
        return false;
      }
      keys := Keys(true, settings.publicKeyJournal, settings.privateKeyJournal);
      if !HasCurrentDevice(deviceModel, keys) {
        settings := ClearedSettings;
        return false;
      }
      settings := settings.(privateKey := settings.privateKeyJournal, publicKey := settings.publicKeyJournal);
      settings := settings.(privateKeyJournal := "", publicKeyJournal := "");
      return true;
    }

    // -------------------------------------------------------------------
    // Logout and reset

    method Logout()
      modifies this
      ensures Snapshot() == VpnSpec.Logout(old(Snapshot()), cfg)
    {
      userState := UserLoggingOut;
      DeleteTasks();
      StopPurchases();
      if state != StateUpdateRequired {
        SetState(StateInitialize);
      }
      if HasCurrentDevice(deviceModel, keys) {
        ScheduleTask(TaskRemoveDevice(keys.publicKey));
        Reset(false);
        return;
      }
      ScheduleTask(TaskFunction(FnReset));
    }

    method Reset(forceInitialState: bool)
      modifies this
      ensures Snapshot() == VpnSpec.Reset(old(Snapshot()), cfg, forceInitialState)
    {
      Deactivate();
      ghost var d := Snapshot();
      settings := ClearedSettings;
      keys := ForgottenKeys;
      hasServerData := false;
      assert Snapshot() == d.(settings := ClearedSettings, keys := ForgottenKeys, hasServerData := false);
      StopPurchases();
      userState := UserNotAuthenticated;
      assert Snapshot() == VpnSpec.StopPurchases(d.(settings := ClearedSettings, keys := ForgottenKeys,
                                                     hasServerData := false), cfg).(userState := UserNotAuthenticated);
      if forceInitialState {
        SetState(StateInitialize);
      }
    }

    // -------------------------------------------------------------------
    // Tunnel commands

    method Activate()
      modifies this
      ensures Snapshot() == VpnSpec.ActivateTunnel(old(Snapshot()), cfg)
    {
      DeleteTasks();
      MaybeRegenerateDeviceKey();
      ScheduleTask(TaskControllerAction(ControllerAction.Activate));
    }

    method Deactivate()
      modifies this
      ensures Snapshot() == VpnSpec.DeactivateTunnel(old(Snapshot()))
    {
      DeleteTasks();
      ScheduleTask(TaskControllerAction(ControllerAction.Deactivate));
    }

    method SilentSwitch()
      modifies this
      ensures Snapshot() == VpnSpec.SilentSwitchServer(old(Snapshot()))
    {
      DeleteTasks();
      ScheduleTask(TaskControllerAction(ControllerAction.SilentSwitch));
    }

    method RefreshDevices()
      modifies this
      ensures Snapshot() == VpnSpec.RefreshDevices(old(Snapshot()))
    {
      if state == StateMain {
        ScheduleTask(TaskAccount(DoNotPropagateError));
      }
    }

    // -------------------------------------------------------------------
    // Subscription outcomes

    method SubscriptionStarted(productId: string)
      modifies this
      ensures Snapshot() == VpnSpec.SubscriptionStarted(old(Snapshot()), cfg, productId)
    {
      SetState(StateSubscriptionInProgress);
      if !cfg.webPurchase && !productsRegistered {
        ScheduleTask(TaskProducts);
        ScheduleTask(TaskFunction(FnSubscriptionStarted(productId)));
        return;
      }
      billing := billing + [StartSubscription(productId)];
    }

    method RestoreSubscriptionStarted()
      modifies this
      ensures Snapshot() == VpnSpec.RestoreSubscriptionStarted(old(Snapshot()))
    {
      SetState(StateSubscriptionInProgress);
      billing := billing + [StartRestoreSubscription];
    }

    method SubscriptionCompleted()
      modifies this
      ensures Snapshot() == VpnSpec.SubscriptionCompleted(old(Snapshot()), cfg)
    {
      if cfg.platform == Android && state != StateSubscriptionInProgress {
        return;
      }
      CompleteActivation();
    }

    method BillingNotAvailable()
      modifies this
      ensures Snapshot() == VpnSpec.BillingNotAvailable(old(Snapshot()))
    {
      if user.subscriptionNeeded {
        SetState(StateBillingNotAvailable);
      }
    }

    method SubscriptionNotValidated()
      modifies this
      ensures Snapshot() == VpnSpec.SubscriptionNotValidated(old(Snapshot()))
    {
      SetState(StateSubscriptionNotValidated);
    }

    method SubscriptionFailed()
      modifies this
      ensures Snapshot() == VpnSpec.SubscriptionFailed(old(Snapshot()), cfg)
    {
      SubscriptionFailedInternal(false);
    }

    method SubscriptionCanceled()
      modifies this
      ensures Snapshot() == VpnSpec.SubscriptionCanceled(old(Snapshot()), cfg)
    {
      SubscriptionFailedInternal(true);
    }

    method SubscriptionFailedInternal(canceledByUser: bool)
      modifies this
      ensures Snapshot() == VpnSpec.SubscriptionFailedInternal(old(Snapshot()), cfg, canceledByUser)
    {
      if cfg.platform == IOS && state != StateSubscriptionInProgress {
        return;
      }
      SetState(StateSubscriptionNeeded);
      if !canceledByUser {
        ReportError(SubscriptionFailureError);
      }
      ScheduleTask(TaskFunction(FnSubscriptionRecheck));
    }

    method AlreadySubscribed()
      modifies this
      ensures Snapshot() == VpnSpec.AlreadySubscribed(old(Snapshot()), cfg)
    {
      if cfg.platform == IOS && state != StateSubscriptionInProgress {
        return;
      }
      SetState(StateSubscriptionBlocked);
    }

    // -------------------------------------------------------------------
    // Controller signals, backend health and errors

    /** The controller's readyToUpdate listener. */
    method ReadyToUpdate()
      modifies this
      ensures Snapshot() == VpnSpec.ReadyToUpdate(old(Snapshot()))
    {
      SetState(StateUpdateRequired);
    }

    /** The controller's readyToBackendFailure listener. */
    method BackendFailure()
      modifies this
      ensures Snapshot() == VpnSpec.BackendFailure(old(Snapshot()))
    {
      DeleteTasks();
      SetState(StateBackendFailure);
    }

    /** heartbeatCompleted; the controller's failure signal is taken as immediate. */
    method HeartbeatCompleted(success: bool)
      modifies this
      ensures Snapshot() == VpnSpec.HeartbeatCompleted(old(Snapshot()), cfg, success)
    {
      if !success {
        BackendFailure();
        return;
      }
      if state != StateBackendFailure {
        return;
      }
      if !ModelsInitialized(Snapshot()) || userState != UserAuthenticated {
        SetState(StateInitialize);
        return;
      }
      MaybeStateMain();
    }

    /** errorHandled, with the alert the error handler shows. */
    method ErrorHandled(alert: AlertType)
      modifies this
      ensures Snapshot() == VpnSpec.ErrorHandled(old(Snapshot()), cfg, alert)
    {
      if state == StateAuthenticating {
        Reset(true);
        return;
      }
      if alert == AuthenticationFailedAlert {
        Reset(true);
      }
    }

    // -------------------------------------------------------------------
    // Onboarding screens

    method PostAuthenticationCompleted()
      modifies this
      ensures Snapshot() == VpnSpec.PostAuthenticationCompleted(old(Snapshot()), cfg)
    {
      settings := settings.(postAuthenticationShown := true);
      if state == StateUpdateRequired {
        return;
      }
      MaybeStateMain();
    }

    method TelemetryPolicyCompleted()
      modifies this
      ensures Snapshot() == VpnSpec.TelemetryPolicyCompleted(old(Snapshot()), cfg)
    {
      settings := settings.(telemetryPolicyShown := true);
      if state == StateUpdateRequired {
        return;
      }
      if userState != UserAuthenticated {
        Authenticate();
        return;
      }
      MaybeStateMain();
    }

    // -------------------------------------------------------------------
    // Function tasks

    /** The scheduler runs a queued function task. */
    method RunClosure(fn: Closure)
      modifies this
      ensures Snapshot() == VpnSpec.RunClosure(old(Snapshot()), cfg, fn)
    {
      match fn
      case FnMaybeStateMain =>
        MaybeStateMain();
      case FnReset =>
        Reset(false);
      case FnRegenCheck =>
        if !ModelsInitialized(Snapshot()) {
          ReportError(RemoteServiceError);
          userState := UserNotAuthenticated;
        }
      case FnDeviceLimitRecheck =>
        if state == StateDeviceLimit {
          MaybeStateMain();
        }
      case FnSubscriptionRecheck =>
        if !user.subscriptionNeeded && state == StateSubscriptionNeeded {
          MaybeStateMain();
        }
      case FnSubscriptionStarted(productId) =>
        SubscriptionStarted(productId);
    }
  }
}
