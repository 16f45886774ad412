/**
 * Properties of the orchestrator's handlers that relate several calls or
 * spell out the ordering the handlers promise, and the finding about the
 * journal-key recovery of checkCurrentDevice.
 */
module VpnLemmas {
  import opened Options
  import opened Tasks
  import opened VpnState
  import opened VpnSpec

  // ---------------------------------------------------------------------
  // Devices

  /** The recursive device-key search agrees with "some device carries the key". */
  lemma {:induction false} ContainsPublicKeyMeans(devices: seq<Device>, publicKey: string)
    ensures ContainsPublicKey(devices, publicKey) <==> exists d :: d in devices && d.publicKey == publicKey
  {
    if devices != [] {
      ContainsPublicKeyMeans(devices[1..], publicKey);
      assert forall d :: d in devices <==> d == devices[0] || d in devices[1..];
    }
  }

  /** Removing the devices under the local key leaves no current device. */
  lemma RemovingOwnKeyLosesCurrentDevice(v: Vpn, cfg: Config)
    ensures !HasCurrentDevice(RemoveDevice(v, cfg, v.keys.publicKey).deviceModel, v.keys)
  {
    var r := RemoveDevice(v, cfg, v.keys.publicKey);
    ContainsPublicKeyMeans(r.deviceModel.devices, v.keys.publicKey);
  }

  /** Only a stale registration makes maybeRemoveCurrentDevice touch the queue. */
  lemma OnlyStaleDeviceIsRemoved(v: Vpn, cfg: Config)
    ensures var (option, r) := MaybeRemoveCurrentDevice(v, cfg);
      && (r.queue != v.queue <==> option == DeviceRemoved)
      && (option == DeviceRemoved ==> r.queue[|v.queue|] == TaskRemoveDevice(CurrentDeviceByUniqueId(v, cfg).value.publicKey))
  {
    var (option, r) := MaybeRemoveCurrentDevice(v, cfg);
    if option == DeviceRemoved {
      assert |r.queue| == |v.queue| + 1;
    }
  }

  /** The refresh tasks never register a device. */
  lemma {:induction false} RefreshRegistersNothing(v: Vpn, cfg: Config, refreshProducts: bool)
    ensures CountAddDevice(RefreshDataTasks(v, cfg, refreshProducts)) == 0
    ensures NoRemoval(RefreshDataTasks(v, cfg, refreshProducts))
  {
    var t := RefreshDataTasks(v, cfg, refreshProducts);
    assert forall i :: 0 <= i < |t| ==> !t[i].TaskAddDevice?;
  }

  /** The tasks completeActivation queues once past the device-limit check. */
  function ActivationTasks(v: Vpn, cfg: Config): seq<Task> {
    var option := RemovalDecision(CurrentDeviceByUniqueId(v, cfg), v.keys);
    RemovalTasks(v, cfg) + RegistrationTasks(v, cfg, option != DeviceStillValid)
  }

  /**
   * completeActivation, when it does not stop at the device limit: a stale
   * registration is removed before this device is added, exactly one
   * registration is queued unless the old one is still valid, and the screen
   * is re-evaluated last.
   */
  lemma ActivationTasksRegisterOnce(v: Vpn, cfg: Config)
    ensures var option := RemovalDecision(CurrentDeviceByUniqueId(v, cfg), v.keys);
      var added := ActivationTasks(v, cfg);
      && CountAddDevice(added) == (if option == DeviceStillValid then 0 else 1)
      && (option == DeviceRemoved ==>
            |added| >= 2
            && added[0] == TaskRemoveDevice(CurrentDeviceByUniqueId(v, cfg).value.publicKey)
            && added[1] == AddDeviceTask(cfg))
      && (option == DeviceNotFound ==> |added| >= 1 && added[0] == AddDeviceTask(cfg))
      && EndsWith(added, TaskFunction(FnMaybeStateMain))
  {
    var option := RemovalDecision(CurrentDeviceByUniqueId(v, cfg), v.keys);
    var add: seq<Task> := if option == DeviceStillValid then [] else [AddDeviceTask(cfg)];
    var tail := RefreshDataTasks(v, cfg, true) + [TaskFunction(FnMaybeStateMain)];
    assert RegistrationTasks(v, cfg, option != DeviceStillValid) == add + tail;
    RegistrationTail(v, cfg);
    CountAddDeviceAppend(add, tail);
    CountAddDeviceAppend(RemovalTasks(v, cfg), add + tail);
  }

  /** completeActivation's queue, as promised: see ActivationTasksRegisterOnce. */
  lemma CompleteActivationRegistersOnce(v: Vpn, cfg: Config)
    requires !ActivationBlocked(v, cfg)
    ensures var r := CompleteActivation(v, cfg);
      && Extends(r.queue, v.queue)
      && r.queue[|v.queue|..] == ActivationTasks(v, cfg)
  {
    var r := CompleteActivation(v, cfg);
    assert r.queue == v.queue + ActivationTasks(v, cfg);
    assert r.queue[|v.queue|..] == ActivationTasks(v, cfg);
  }

  /** What follows a registration: refresh tasks and the screen check, with no registration. */
  lemma RegistrationTail(v: Vpn, cfg: Config)
    ensures var tail := RefreshDataTasks(v, cfg, true) + [TaskFunction(FnMaybeStateMain)];
      CountAddDevice(tail) == 0 && EndsWith(tail, TaskFunction(FnMaybeStateMain))
  {
    RefreshRegistersNothing(v, cfg, true);
    CountAddDeviceAppend(RefreshDataTasks(v, cfg, true), [TaskFunction(FnMaybeStateMain)]);
  }

  /**
   * The device-count decrement of completeActivation never decides the early
   * exit: it only happens on a removal, and the exit needs "not found".
   */
  lemma DecrementNeverDecidesEarlyExit(v: Vpn, cfg: Config)
    ensures var option := MaybeRemoveCurrentDevice(v, cfg).0;
      var count := ActiveDevices(v.deviceModel) - (if option == DeviceRemoved then 1 else 0);
      (count >= v.user.maxDevices && option == DeviceNotFound) <==> ActivationBlocked(v, cfg)
  {
  }

  // ---------------------------------------------------------------------
  // maybeStateMain

  /** The subscription check comes first, and a blocked subscription is left alone. */
  lemma MaybeStateMainSubscriptionFirst(v: Vpn, cfg: Config)
    ensures v.user.initialized && v.user.subscriptionNeeded && v.state != StateSubscriptionBlocked
            ==> MaybeStateMain(v, cfg).state == StateSubscriptionNeeded
    ensures v.user.initialized && v.state == StateSubscriptionBlocked ==> MaybeStateMain(v, cfg) == v
  {
  }

  /** Then the onboarding screens, post-authentication (desktop only) before the telemetry policy. */
  lemma MaybeStateMainOnboardingNext(v: Vpn, cfg: Config)
    requires !SubscriptionGate(v) && OnboardingPending(v, cfg)
    ensures MaybeStateMain(v, cfg).state ==
              if cfg.platform == Desktop && !v.settings.postAuthenticationShown
              then StatePostAuthentication else StateTelemetryPolicy
  {
  }

  /** The device-limit screen exactly when onboarding is done and this device is not registered. */
  lemma MaybeStateMainDeviceLimit(v: Vpn, cfg: Config)
    ensures MaybeStateMain(v, cfg).state == StateDeviceLimit
            <==> PastOnboarding(v, cfg) && !HasCurrentDevice(v.deviceModel, v.keys)
  {
  }

  /** Main exactly when everything is ready, and never over a required update. */
  lemma MaybeStateMainReachesMain(v: Vpn, cfg: Config)
    ensures MaybeStateMain(v, cfg).state == StateMain <==> ReadyForMain(v, cfg) && v.state != StateUpdateRequired
    ensures ReadyForMain(v, cfg) && v.state == StateUpdateRequired ==> MaybeStateMain(v, cfg).state == StateUpdateRequired
    ensures ReadyForMain(v, cfg) ==> MaybeStateMain(v, cfg).queue == MaybeRegenerateDeviceKey(v, cfg).queue
  {
  }

  /**
   * Missing models are the only way maybeStateMain signs the user out: the
   * settings are cleared, a remote-service error is reported and the
   * application starts over.
   */
  lemma MaybeStateMainSignOut(v: Vpn, cfg: Config)
    requires TakesModelReset(v, cfg)
    ensures var r := MaybeStateMain(v, cfg);
      && r.state == StateInitialize && r.userState == UserNotAuthenticated
      && r.settings == ClearedSettings && r.errors == v.errors + [RemoteServiceError]
  {
    assert MaybeStateMain(v, cfg) == SignOutForMissingModels(v);
  }

  /** Every other branch keeps the session: sign-in state, settings and errors are untouched. */
  lemma MaybeStateMainKeepsSession(v: Vpn, cfg: Config)
    requires !TakesModelReset(v, cfg)
    ensures var r := MaybeStateMain(v, cfg);
      r.userState == v.userState && r.settings == v.settings && r.errors == v.errors
  {
    if PastOnboarding(v, cfg) && HasCurrentDevice(v.deviceModel, v.keys) {
      assert MaybeStateMain(v, cfg) == EnterMain(v, cfg);
    }
  }

  /** Away from the sign-out branch, a second maybeStateMain picks the same screen. */
  lemma MaybeStateMainSettles(v: Vpn, cfg: Config)
    requires !TakesModelReset(v, cfg)
    ensures MaybeStateMain(MaybeStateMain(v, cfg), cfg).state == MaybeStateMain(v, cfg).state
  {
    var r := MaybeStateMain(v, cfg);
    MaybeStateMainKeepsSession(v, cfg);
    MaybeStateMainSubscriptionFirst(v, cfg);
    MaybeStateMainSubscriptionFirst(r, cfg);
    if SubscriptionGate(v) {
    } else if OnboardingPending(v, cfg) {
      MaybeStateMainOnboardingNext(v, cfg);
      MaybeStateMainOnboardingNext(r, cfg);
    } else {
      MaybeStateMainDeviceLimit(v, cfg);
      MaybeStateMainDeviceLimit(r, cfg);
      MaybeStateMainReachesMain(v, cfg);
      MaybeStateMainReachesMain(r, cfg);
    }
  }

  /**
   * On the sign-out branch maybeStateMain is not idempotent: the cleared
   * settings send a second call to an onboarding screen instead.
   */
  lemma MaybeStateMainSignOutMoves(v: Vpn, cfg: Config)
    requires TakesModelReset(v, cfg)
    ensures MaybeStateMain(v, cfg).state == StateInitialize
    ensures MaybeStateMain(MaybeStateMain(v, cfg), cfg).state in {StatePostAuthentication, StateTelemetryPolicy}
  {
    MaybeStateMainSignOut(v, cfg);
    var r := MaybeStateMain(v, cfg);
    assert !SubscriptionGate(r);
    MaybeStateMainOnboardingNext(r, cfg);
  }

  // ---------------------------------------------------------------------
  // Key regeneration

  /** Regeneration registers this device once and never queues a removal. */
  lemma RegenerationNeverRemoves(v: Vpn, cfg: Config)
    ensures var r := MaybeRegenerateDeviceKey(v, cfg);
      && Extends(r.queue, v.queue)
      && NoRemoval(r.queue[|v.queue|..])
      && CountAddDevice(r.queue[|v.queue|..]) == (if KeyRegenerationNeeded(v.settings, cfg) then 1 else 0)
  {
    var r := MaybeRegenerateDeviceKey(v, cfg);
    var added := if KeyRegenerationNeeded(v.settings, cfg) then RegenerationTasks(v, cfg) else [];
    assert r.queue == v.queue + added;
    AppendedTail(v.queue, added);
    if KeyRegenerationNeeded(v.settings, cfg) {
      RegenerationTasksRegisterOnce(v, cfg);
    }
  }

  /** A due regeneration queues the registration first, its own re-check last, and no removal. */
  lemma RegenerationTasksRegisterOnce(v: Vpn, cfg: Config)
    ensures var added := RegenerationTasks(v, cfg);
      && NoRemoval(added) && CountAddDevice(added) == 1
      && added[0] == AddDeviceTask(cfg) && EndsWith(added, TaskFunction(FnRegenCheck))
  {
    var refresh := RefreshDataTasks(v, cfg, true);
    var fn := [TaskFunction(FnRegenCheck)];
    RefreshRegistersNothing(v, cfg, true);
    CountAddDeviceAppend(refresh, fn);
    CountAddDeviceAppend([AddDeviceTask(cfg)], refresh + fn);
  }

  /**
   * A removal finishing on the device-limit screen keeps the old queue and
   * appends one registration of this device first, no removal, and the
   * device-limit re-check last.
   */
  lemma RemovalOnDeviceLimitRegistersOnce(v: Vpn, cfg: Config, publicKey: string)
    requires v.state == StateDeviceLimit
    ensures var r := RemoveDevice(v, cfg, publicKey);
      && Extends(r.queue, v.queue)
      && var added := r.queue[|v.queue|..];
      && added[0] == AddDeviceTask(cfg) && CountAddDevice(added) == 1 && NoRemoval(added)
      && EndsWith(added, TaskFunction(FnDeviceLimitRecheck))
  {
    var q := RemoveDevice(v, cfg, publicKey).queue;
    var refresh := RefreshDataTasks(v, cfg, false);
    var fn := [TaskFunction(FnDeviceLimitRecheck)];
    AppendAssociates(v.queue + [AddDeviceTask(cfg)], refresh, fn);
    AppendAssociates(v.queue, [AddDeviceTask(cfg)], refresh + fn);
    assert q == v.queue + ([AddDeviceTask(cfg)] + (refresh + fn));
    AppendedTail(v.queue, [AddDeviceTask(cfg)] + (refresh + fn));
    FreedSlotTasksRegisterOnce(v, cfg);
  }

  /** The tasks queued for the freed slot: one registration first, no removal, the re-check last. */
  lemma FreedSlotTasksRegisterOnce(v: Vpn, cfg: Config)
    ensures var added := [AddDeviceTask(cfg)] + (RefreshDataTasks(v, cfg, false) + [TaskFunction(FnDeviceLimitRecheck)]);
      && added[0] == AddDeviceTask(cfg) && CountAddDevice(added) == 1 && NoRemoval(added)
      && EndsWith(added, TaskFunction(FnDeviceLimitRecheck))
  {
    var refresh := RefreshDataTasks(v, cfg, false);
    var fn := [TaskFunction(FnDeviceLimitRecheck)];
    RefreshRegistersNothing(v, cfg, false);
    CountAddDeviceAppend(refresh, fn);
    CountAddDeviceAppend([AddDeviceTask(cfg)], refresh + fn);
  }

  /** What follows a queue in its extension is exactly what was appended. */
  lemma AppendedTail(q: seq<Task>, t: seq<Task>)
    ensures Extends(q + t, q) && (q + t)[|q|..] == t
  {
  }

  /** Until deviceAdded runs, every check regenerates again: the trigger is not consumed. */
  lemma RegenerationRepeatsUntilDeviceAdded(v: Vpn, cfg: Config)
    requires KeyRegenerationNeeded(v.settings, cfg)
    ensures KeyRegenerationNeeded(MaybeRegenerateDeviceKey(v, cfg).settings, cfg)
    ensures var w := MaybeRegenerateDeviceKey(v, cfg);
      |MaybeRegenerateDeviceKey(w, cfg).queue| > |w.queue|
  {
    var w := MaybeRegenerateDeviceKey(v, cfg);
    assert w.settings == v.settings;
  }

  /** A device added by a build of version 2.5.0 or later is never regenerated. */
  lemma DeviceAddedSettlesRegeneration(v: Vpn, cfg: Config, publicKey: string, privateKey: string)
    requires cfg.compareVersions(cfg.appVersion, KeyRegenerationVersion) >= 0
    ensures var a := DeviceAdded(v, cfg, publicKey, privateKey);
      MaybeRegenerateDeviceKey(a, cfg) == a
  {
  }

  // ---------------------------------------------------------------------
  // Authentication, logout and reset

  /** reset leaves nothing queued but deactivations, and stops purchases. */
  lemma ResetLeavesOnlyDeactivations(v: Vpn, cfg: Config, forceInitialState: bool)
    ensures var r := Reset(v, cfg, forceInitialState);
      && OnlyDeactivations(r.queue)
      && |r.queue| == (if forceInitialState then 2 else 1)
      && |r.billing| > |v.billing| && r.billing[|v.billing|] == StopSubscription
      && r.user == v.user && r.deviceModel == v.deviceModel
  {
    var r := Reset(v, cfg, forceInitialState);
    var d := TaskControllerAction(Deactivate);
    assert r.queue == (if forceInitialState then [d, d] else [d]);
  }

  /** With this device registered, logout signs out at once; nothing but deactivations stays queued. */
  lemma LogoutWithDevice(v: Vpn, cfg: Config)
    requires HasCurrentDevice(v.deviceModel, v.keys)
    ensures var r := Logout(v, cfg);
      && r.userState == UserNotAuthenticated
      && r.keys == ForgottenKeys && r.settings.token.None?
      && OnlyDeactivations(r.queue)
  {
    var a := StopPurchases(v.(userState := UserLoggingOut, queue := []), cfg);
    var b := if a.state != StateUpdateRequired then SetState(a, StateInitialize) else a;
    assert b.deviceModel == v.deviceModel && b.keys == v.keys;
    ResetLeavesOnlyDeactivations(ScheduleTask(b, TaskRemoveDevice(b.keys.publicKey)), cfg, false);
  }

  /** Without it, logout stays in LoggingOut and queues the reset last, after the deactivation. */
  lemma LogoutWithoutDevice(v: Vpn, cfg: Config)
    requires !HasCurrentDevice(v.deviceModel, v.keys)
    ensures var r := Logout(v, cfg);
      && r.userState == UserLoggingOut
      && EndsWith(r.queue, TaskFunction(FnReset))
      && OnlyDeactivations(r.queue[..|r.queue| - 1])
  {
    var r := Logout(v, cfg);
    var d := TaskControllerAction(Deactivate);
    assert r.queue == (if v.state != StateUpdateRequired then [d] else []) + [TaskFunction(FnReset)];
  }

  /** Running the queued reset completes the logout: signed out, secrets and token gone. */
  lemma LogoutThenQueuedResetSignsOut(v: Vpn, cfg: Config)
    requires !HasCurrentDevice(v.deviceModel, v.keys)
    ensures var r := RunClosure(Logout(v, cfg), cfg, FnReset);
      && r.userState == UserNotAuthenticated
      && r.keys == ForgottenKeys && r.settings.token.None?
  {
  }

  /**
   * A sign-in requested during a logout is deferred, and replayed once the
   * queued reset has signed the user out: the flow then starts with the
   * heartbeat and the authentication, in that order.
   */
  lemma DeferredAuthenticationReplays(v: Vpn, cfg: Config, t: AuthenticationType)
    requires v.userState == UserLoggingOut
    ensures var a := AuthenticateWithType(v, t);
      var b := RunClosure(a, cfg, FnReset);
      var c := ReplayPendingAuthentication(b);
      && a.pendingAuthentication == Some(t)
      && c.state == StateAuthenticating
      && c.pendingAuthentication.None?
      && |c.queue| >= 2 && c.queue[|c.queue| - 2..] == [TaskHeartbeat, TaskAuthenticate(t)]
  {
    var a := AuthenticateWithType(v, t);
    var b := RunClosure(a, cfg, FnReset);
    assert b.pendingAuthentication == Some(t) && b.userState == UserNotAuthenticated;
  }

  /** An error while authenticating always resets the application to the start. */
  lemma ErrorWhileAuthenticatingResets(v: Vpn, cfg: Config, alert: AlertType)
    requires v.state == StateAuthenticating
    ensures var r := ErrorHandled(v, cfg, alert);
      && r.state == StateInitialize && r.userState == UserNotAuthenticated
      && r.keys == ForgottenKeys && OnlyDeactivations(r.queue)
  {
    ResetLeavesOnlyDeactivations(v, cfg, true);
  }

  // ---------------------------------------------------------------------
  // Backend health

  /**
   * A failed heartbeat drops every queued task and shows the backend failure;
   * a later successful heartbeat brings a ready, signed-in user back to Main.
   */
  lemma HeartbeatFailureAndRecovery(v: Vpn, cfg: Config)
    requires ReadyForMain(v, cfg) && v.userState == UserAuthenticated
    ensures var a := HeartbeatCompleted(v, cfg, false);
      && a.state == StateBackendFailure && a.queue == [TaskControllerAction(Deactivate)]
      && HeartbeatCompleted(a, cfg, true).state == StateMain
  {
    var a := HeartbeatCompleted(v, cfg, false);
    assert ReadyForMain(a, cfg) && a.userState == UserAuthenticated;
    MaybeStateMainReachesMain(a, cfg);
  }

  /** A successful heartbeat on any other screen changes nothing. */
  lemma HealthyHeartbeatIsQuiet(v: Vpn, cfg: Config)
    requires v.state != StateBackendFailure
    ensures HeartbeatCompleted(v, cfg, true) == v
  {
  }

  // ---------------------------------------------------------------------
  // Tunnel commands

  /** The tunnel commands forget whatever was queued before them. */
  lemma TunnelCommandsForgetQueue(v: Vpn, cfg: Config, q: seq<Task>)
    ensures DeactivateTunnel(v).queue == DeactivateTunnel(v.(queue := q)).queue
    ensures SilentSwitchServer(v).queue == SilentSwitchServer(v.(queue := q)).queue
    ensures ActivateTunnel(v, cfg).queue == ActivateTunnel(v.(queue := q), cfg).queue
  {
  }

  // ---------------------------------------------------------------------
  // Finding: checkCurrentDevice's journal recovery, as written

  /**
   * checkCurrentDevice as written (src/apps/vpn/mozillavpn.cpp:791-823): on
   * the journal path it writes the settings' own keys back to the settings,
   * so the recovered journal keys reach memory only, and then the journal is
   * cleared.
   */
  function CheckCurrentDeviceAsWritten(v: Vpn): (r: (bool, Vpn))
    ensures r.0 == CheckCurrentDevice(v).0
    ensures r.1.keys == CheckCurrentDevice(v).1.keys
  {
    var s := v.settings;
    if v.state == StateDeviceLimit then (false, v)
    else if HasCurrentDevice(v.deviceModel, v.keys) then (true, v)
    else if s.privateKeyJournal == "" || s.publicKeyJournal == "" then (false, ClearSettings(v))
    else
      var a := v.(keys := Keys(true, s.publicKeyJournal, s.privateKeyJournal));
      if !HasCurrentDevice(a.deviceModel, a.keys) then (false, ClearSettings(a))
      else (true, a.(settings := s.(privateKey := s.privateKey, publicKey := s.publicKey,
                                    privateKeyJournal := "", publicKeyJournal := "")))
  }

  /**
   * Whenever the journal recovery succeeds with settings keys that differ
   * from the journal's, the code as written ends with the device's key pair
   * in memory, not in the settings, and the journal gone.
   */
  lemma AsWrittenJournalRecoveryLosesKeys(v: Vpn)
    requires v.state != StateDeviceLimit && !HasCurrentDevice(v.deviceModel, v.keys)
    requires v.settings.privateKeyJournal != "" && v.settings.publicKeyJournal != ""
    requires ContainsPublicKey(v.deviceModel.devices, v.settings.publicKeyJournal)
    requires v.settings.publicKey != v.settings.publicKeyJournal
    ensures var r := CheckCurrentDeviceAsWritten(v);
      && r.0
      && !KeysPersisted(r.1)
      && r.1.settings.privateKeyJournal == "" && r.1.settings.publicKeyJournal == ""
    ensures KeysPersisted(CheckCurrentDevice(v).1)
  {
  }

  /** A concrete input: one registered device whose keys sit only in the journal. */
  lemma AsWrittenJournalCounterexample(v: Vpn)
    requires v.state == StateInitialize
    requires v.deviceModel.devices == [Device("laptop", "id-1", "pk-new")]
    requires v.keys == Keys(true, "pk-old", "sk-old")
    requires v.settings.publicKey == "pk-old" && v.settings.privateKey == "sk-old"
    requires v.settings.publicKeyJournal == "pk-new" && v.settings.privateKeyJournal == "sk-new"
    ensures CheckCurrentDeviceAsWritten(v).0
    ensures CheckCurrentDeviceAsWritten(v).1.keys.publicKey == "pk-new"
    ensures CheckCurrentDeviceAsWritten(v).1.settings.publicKey == "pk-old"
    ensures CheckCurrentDevice(v).1.settings.publicKey == "pk-new"
  {
    ContainsPublicKeyMeans(v.deviceModel.devices, "pk-old");
    assert v.deviceModel.devices[0].publicKey == "pk-new";
    assert ContainsPublicKey(v.deviceModel.devices, "pk-new");
    AsWrittenJournalRecoveryLosesKeys(v);
  }

  // ---------------------------------------------------------------------
  // Onboarding screens and the model check

  /**
   * Completing the post-authentication screen never leads back to it, and
   * the flag it sets survives unless maybeStateMain signs the user out.
   */
  lemma PostAuthenticationScreenDone(v: Vpn, cfg: Config)
    ensures var r := PostAuthenticationCompleted(v, cfg);
      && r.state != StatePostAuthentication
      && (r.settings.postAuthenticationShown || r.settings == ClearedSettings)
  {
    var a := v.(settings := v.settings.(postAuthenticationShown := true));
    if v.state != StateUpdateRequired {
      if TakesModelReset(a, cfg) {
        MaybeStateMainSignOut(a, cfg);
      } else {
        MaybeStateMainKeepsSession(a, cfg);
      }
    }
  }

  /**
   * Completing the telemetry-policy screen never leads back to it: a
   * signed-out user goes on to sign in, a signed-in one through
   * maybeStateMain; the flag survives unless that signs the user out.
   */
  lemma TelemetryPolicyScreenDone(v: Vpn, cfg: Config)
    ensures var r := TelemetryPolicyCompleted(v, cfg);
      && r.state != StateTelemetryPolicy
      && (r.settings.telemetryPolicyShown || r.settings == ClearedSettings)
  {
    var a := v.(settings := v.settings.(telemetryPolicyShown := true));
    if v.state != StateUpdateRequired && v.userState == UserAuthenticated {
      if TakesModelReset(a, cfg) {
        MaybeStateMainSignOut(a, cfg);
      } else {
        MaybeStateMainKeepsSession(a, cfg);
      }
    }
  }

  /**
   * modelsInitialized fails once the keys are forgotten (a reset, or a
   * completed logout) and once this device's own key leaves the account.
   */
  lemma ModelCheckNeedsOwnDevice(v: Vpn, cfg: Config, forceInitialState: bool)
    ensures !ModelsInitialized(Reset(v, cfg, forceInitialState))
    ensures !ModelsInitialized(RemoveDevice(v, cfg, v.keys.publicKey))
  {
    RemovingOwnKeyLosesCurrentDevice(v, cfg);
  }
}
