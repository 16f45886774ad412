# Mozilla VPN orchestrator and captive-portal monitor, in Dafny

This project models two event-driven state machines of the Mozilla VPN client.

- **The application orchestrator** (`MozillaVPN`, src/apps/vpn/mozillavpn.cpp). Each handler reacts to one event: an authentication callback, a server reply, a billing-store callback, a heartbeat result or a user command. It moves the application between screens (`AppState`) and sign-in states (`UserState`). It reads and writes the settings, the user, the device list and the key pair. It appends work to the global task queue and clears that queue when the tunnel is commanded.
- **The captive-portal monitor** (`CaptivePortalDetection`, src/captiveportal/captiveportaldetection.cpp). It starts a probe when the tunnel is up but unstable (Windows builds only). A detected portal is reported to the user, and a request to disconnect deactivates the tunnel.

Handlers run to completion one at a time on one thread. So each orchestrator handler is modelled twice:

- `VpnSpec`: a pure function from the state before the handler to the state after it. The `Vpn` datatype holds the handler-visible state. The handler's asynchronous work is the tasks appended to `queue`.
- `Orchestrator.MozillaVPN`: a class whose fields are the same state. Its methods update the fields in place, in the source's own order, and call one another as the source does. Each method is proved to leave the object in the state the `VpnSpec` function gives for the old state. So everything proved about the functions holds of the object.

`setState` always runs the application's `stateChanged` listener, so the model folds the listener into `SetState`:

- entering Main starts the periodic operations (the `periodicRunning` flag);
- entering any other state stops them and appends a tunnel deactivation to the queue.

Because of this, queue properties are stated as prefixes (`Extends`), suffixes (`EndsWith`), counts (`CountAddDevice`) and "only X remains" (`OnlyDeactivations`). Where the handler fixes the whole queue, they are stated as exact appended sequences.

Files:

- `options.dfy`: the `Option` type.
- `tasks.dfy`: task tags and queue predicates.
- `vpn_state.dfy`:
  - the state datatypes;
  - the device-list functions;
  - `modelsInitialized` (the predicate `ModelsInitialized`, a conjunction of the five model checks of src/apps/vpn/mozillavpn.cpp:949-977);
  - the two error classifiers.
- `vpn_spec.dfy`: one function per handler.
- `vpn_lemmas.dfy`:
  - the ordering and multi-step properties;
  - the finding.
- `mozillavpn.dfy`: the class.
- `captiveportal.dfy`: the monitor.

## Model

| member | source | states |
|---|---|---|
| VpnState.DeviceFromUniqueId | src/apps/vpn/mozillavpn.cpp:534-538 | The device registered under this installation's unique id: the first listed device carrying that id, and None exactly when no device carries it |
| VpnState.WithoutPublicKey | src/apps/vpn/mozillavpn.cpp:617 | The device list after removing a key: exactly the devices not carrying that key; it shrinks when some device carried it |
| VpnState.NoConnectionErrorAlert | src/apps/vpn/mozillavpn.cpp:1432-1438 | A "no connection" error raises no alert exactly when the connection-health monitor exists and reports the connection unsettled; otherwise it raises the no-connection alert |
| VpnState.DependentConnectionErrorAlert | src/apps/vpn/mozillavpn.cpp:1440-1458 | A connection-dependent error is silent exactly when the tunnel is On or Confirming. It is "no connection" exactly when the tunnel is Off, and a failed connection otherwise |
| VpnSpec.SetState | src/apps/vpn/mozillavpn.cpp:134-148 | setState plus the listener. Main starts the periodic operations and leaves the queue alone. Any other state stops them and appends exactly one Deactivate. Nothing else changes |
| VpnSpec.ScheduleRefreshDataTasks | src/apps/vpn/mozillavpn.cpp:1299-1330 | One group is appended: account, servers, captive-portal list and subscription details, all propagating errors. Products are in it exactly when asked for and purchases go through the store. A location fetch goes ahead of the group exactly when the location is unknown and the tunnel is Off or Initializing |
| VpnSpec.AddCurrentDeviceAndRefreshData | src/apps/vpn/mozillavpn.cpp:1214-1218 | The registration of this device comes first, then the refresh tasks. Only the queue changes |
| VpnSpec.MaybeRegenerateDeviceKey | src/apps/vpn/mozillavpn.cpp:1224-1256 | No change when the stored key version compares at least 2.5.0, or DNS is the gateway's. Otherwise it appends exactly: registration, refresh with products, then the re-check closure. Only the queue changes |
| VpnSpec.MaybeStateMain | src/apps/vpn/mozillavpn.cpp:368-434 | The user, device list, keys and server list are untouched. Nothing queued is dropped. The periodic operations stay consistent with the screen |
| VpnSpec.SignOutForMissingModels | src/apps/vpn/mozillavpn.cpp:405-412 | Models missing: settings cleared, a remote-service error reported, signed out, back to Initialize with one Deactivate queued |
| VpnSpec.EnterMain | src/apps/vpn/mozillavpn.cpp:415-423 | Key regeneration if due (the queue is exactly what maybeRegenerateDeviceKey leaves; when due, the old queue plus the regeneration tasks), then Main, unless an update is required (then the screen stays UpdateRequired). Only queue, screen and periodic flag change |
| VpnSpec.AuthenticateWithType | src/apps/vpn/mozillavpn.cpp:443-478 | Always Authenticating (the source asserts no signed-in user gets here). A signed-out user gets Heartbeat then Authenticate as the last two tasks. During a logout nothing but the listener's Deactivate is queued and the request is kept pending |
| VpnSpec.ReplayPendingAuthentication | src/apps/vpn/mozillavpn.cpp:451-465 | The logout observer fires: a deferred request, once signed out, restarts the flow and is consumed. With none pending nothing changes |
| VpnSpec.AbortAuthentication | src/apps/vpn/mozillavpn.cpp:480-486 | Required to be Authenticating (source assertion). Back to Initialize, sign-in state unchanged, one Deactivate appended |
| VpnSpec.DeactivateTunnel | src/apps/vpn/mozillavpn.cpp:999-1005 | Everything queued is dropped; only Deactivate remains. Nothing else changes |
| VpnSpec.SilentSwitchServer | src/apps/vpn/mozillavpn.cpp:1007-1017 | Everything queued is dropped; only the silent switch remains |
| VpnSpec.ActivateTunnel | src/apps/vpn/mozillavpn.cpp:986-997 | Everything queued is dropped, the key regeneration runs if due, and Activate is last: the queue is exactly the regeneration tasks then Activate when due, and Activate alone otherwise. Nothing but the queue changes |
| VpnSpec.RefreshDevices | src/apps/vpn/mozillavpn.cpp:1019-1026 | An account fetch that does not propagate errors is queued exactly on the main screen; elsewhere nothing changes |
| VpnSpec.Reset | src/apps/vpn/mozillavpn.cpp:856-875 | Signed out, settings cleared, keys and server data forgotten. Initialize only when forced, otherwise the screen is kept |
| VpnSpec.CancelAuthentication | src/apps/vpn/mozillavpn.cpp:778-789 | Outside Authenticating nothing changes. Otherwise exactly a forced reset (queued tasks cancelled, settings cleared, purchases stopped): Initialize, signed out, keys forgotten |
| VpnSpec.Logout | src/apps/vpn/mozillavpn.cpp:825-854 | Initialize unless an update is required. Signed out at once when this device is registered, otherwise still LoggingOut. The purchase flow is stopped first: the billing calls appended are exactly the stop calls (StopSubscription, plus the product registration without web purchase), repeated by the reset when this device is registered |
| VpnSpec.RemovalDecision | src/apps/vpn/mozillavpn.cpp:534-549 | NotFound exactly when no device has this installation's id. StillValid exactly when it carries the local public key and a private key is held. Otherwise Removed |
| VpnSpec.MaybeRemoveCurrentDevice | src/apps/vpn/mozillavpn.cpp:531-550 | Returns the decision. Only Removed touches the state, appending the removal of the stale device's key and nothing else |
| VpnSpec.CompleteActivation | src/apps/vpn/mozillavpn.cpp:552-577 | Blocked (no device under this id and the account full): the result is maybeStateMain's. Otherwise only the queue changes: the stale removal (if any), the registration (unless still valid), the refresh, then the screen re-check. Account data is never touched |
| VpnSpec.ProceedActivation | src/apps/vpn/mozillavpn.cpp:567-576 | Past the limit check, the appended tasks are exactly the removal step's followed by the registration step's |
| VpnSpec.RegisterAndRefresh | src/apps/vpn/mozillavpn.cpp:567-576 | Appends the registration when asked, the refresh with products, then the screen re-check; only the queue changes |
| VpnSpec.CompleteAuthentication | src/apps/vpn/mozillavpn.cpp:488-529 | A user that fails to parse only reports a remote-service error. A device list that fails to parse keeps the parsed user and reports the error. Otherwise the authentication is accepted |
| VpnSpec.AcceptAuthentication | src/apps/vpn/mozillavpn.cpp:507-528 | Token stored, signed in. If a subscription is needed: screen, billing and every other setting kept, and exactly the products fetch (store purchases only) then the screen re-check appended to the old queue. Otherwise web purchase stops the purchase flow, then the device is activated |
| VpnSpec.RemoveDevice | src/apps/vpn/mozillavpn.cpp:614-639 | The device list loses exactly the devices under the key. Outside DeviceLimit the queue is untouched. On DeviceLimit exactly this device's registration, the refresh group without products, then the device-limit re-check are appended. Keys, settings, user and everything but the device list and queue are unchanged |
| VpnSpec.RemoveDeviceFromPublicKey | src/apps/vpn/mozillavpn.cpp:677-691 | The removal is queued. Outside DeviceLimit the key is marked as being removed in the background; the device list and screen are unchanged |
| VpnSpec.DeviceAdded | src/apps/vpn/mozillavpn.cpp:596-612 | The new key pair is held and stored in the settings, with this build's version as the key version; queue and screen are unchanged |
| VpnSpec.CheckCurrentDevice | src/apps/vpn/mozillavpn.cpp:791-823 | False with nothing changed on DeviceLimit. True with nothing changed when the device is registered. A true result means the device is registered. A false result away from DeviceLimit clears the settings. Away from DeviceLimit the result is true exactly when the device is registered, or both journal keys are set and a device carries the journal public key. An unregistered device with both journal keys goes through the journal recovery (corrected, see Findings) |
| VpnSpec.RecoverJournalKeys | src/apps/vpn/mozillavpn.cpp:809-822 | The journal keys are loaded. The check succeeds exactly when a device carries the journal public key; then the keys are persisted and the journal emptied, otherwise the settings are cleared |
| VpnSpec.SubscriptionStarted | src/apps/vpn/mozillavpn.cpp:1028-1048 | SubscriptionInProgress. With store purchases and products not registered: products then a retry closure appended after the screen change, no purchase started. Otherwise the purchase starts. Nothing else changes beyond the screen change |
| VpnSpec.RestoreSubscriptionStarted | src/apps/vpn/mozillavpn.cpp:1050-1054 | SubscriptionInProgress, and a restore is started |
| VpnSpec.SubscriptionCompleted | src/apps/vpn/mozillavpn.cpp:1056-1077 | Android ignores a completion outside SubscriptionInProgress; otherwise the device is activated |
| VpnSpec.BillingNotAvailable | src/apps/vpn/mozillavpn.cpp:1079-1085 | BillingNotAvailable exactly when a subscription is needed; otherwise nothing changes |
| VpnSpec.SubscriptionNotValidated | src/apps/vpn/mozillavpn.cpp:1087-1089 | SubscriptionNotValidated, sign-in state unchanged |
| VpnSpec.SubscriptionFailedInternal | src/apps/vpn/mozillavpn.cpp:1099-1126 | iOS ignores a failure outside SubscriptionInProgress. Otherwise SubscriptionNeeded, a subscription failure reported exactly when the user did not cancel, and the re-check closure appended after the screen change; the old queue is kept and nothing else changes |
| VpnSpec.SubscriptionFailed | src/apps/vpn/mozillavpn.cpp:1091-1093 | Unless ignored, exactly one subscription failure is reported |
| VpnSpec.SubscriptionCanceled | src/apps/vpn/mozillavpn.cpp:1095-1097 | A user cancel reports nothing |
| VpnSpec.AlreadySubscribed | src/apps/vpn/mozillavpn.cpp:1128-1141 | iOS ignores it outside SubscriptionInProgress; otherwise SubscriptionBlocked |
| VpnSpec.ReadyToUpdate | src/apps/vpn/mozillavpn.cpp:150-151 | UpdateRequired, periodic operations stopped |
| VpnSpec.BackendFailure | src/apps/vpn/mozillavpn.cpp:153-157 | Queue cleared, then BackendFailure: only Deactivate queued, periodic operations stopped, session and settings kept |
| VpnSpec.HeartbeatCompleted | src/apps/vpn/mozillavpn.cpp:1190-1208 | Failure means backend failure. Success outside BackendFailure changes nothing. Success in BackendFailure gives Initialize when models are missing or the user is not signed in, and maybeStateMain otherwise |
| VpnSpec.ErrorHandled | src/apps/vpn/mozillavpn.cpp:1407-1429 | Any error while Authenticating, or an authentication-failed alert anywhere, is a forced reset. Anything else changes nothing |
| VpnSpec.PostAuthenticationCompleted | src/apps/vpn/mozillavpn.cpp:877-890 | The shown flag is set. On UpdateRequired nothing else changes; otherwise maybeStateMain runs on the flagged state. User, devices and keys are untouched |
| VpnSpec.TelemetryPolicyCompleted | src/apps/vpn/mozillavpn.cpp:917-935 | The shown flag is set. On UpdateRequired nothing else changes. Otherwise a user who is not signed in starts authentication (Authenticating), and a signed-in one gets maybeStateMain on the flagged state |
| VpnSpec.RunClosure | src/apps/vpn/mozillavpn.cpp:1248-1255 | The queued closures:<br>- the screen re-check (516, 576) is maybeStateMain;<br>- the logout reset (853) is a non-forced reset: signs out and forgets the keys;<br>- the regeneration re-check (1248-1255) changes nothing when the models are complete, and otherwise only reports a remote-service error and signs out;<br>- the device-limit re-check (632-638) changes nothing off DeviceLimit and runs maybeStateMain on it;<br>- the subscription re-check (1119-1125) changes nothing unless the subscription became unnecessary on SubscriptionNeeded, and then runs maybeStateMain;<br>- the purchase retry (1039-1041) is subscriptionStarted with the same product |
| VpnLemmas.RemovingOwnKeyLosesCurrentDevice | src/apps/vpn/mozillavpn.cpp:614-617 | After the device under the local key is removed, this device is no longer registered |
| VpnLemmas.RemovalOnDeviceLimitRegistersOnce | src/apps/vpn/mozillavpn.cpp:620-638 | A removal finishing on DeviceLimit keeps the old queue and appends this device's registration first, exactly one registration, no removal, and the device-limit re-check last |
| VpnLemmas.OnlyStaleDeviceIsRemoved | src/apps/vpn/mozillavpn.cpp:531-550 | The queue changes exactly on Removed. The appended task removes the stale device's key |
| VpnLemmas.RefreshRegistersNothing | src/apps/vpn/mozillavpn.cpp:1299-1330 | The refresh tasks register no device and remove none |
| VpnLemmas.ActivationTasksRegisterOnce | src/apps/vpn/mozillavpn.cpp:552-577 | completeActivation's tasks register this device exactly once, or never when still valid. A stale device's removal comes first, immediately followed by the registration. The screen re-check is last |
| VpnLemmas.CompleteActivationRegistersOnce | src/apps/vpn/mozillavpn.cpp:552-577 | When not blocked, completeActivation keeps the old queue and appends exactly those tasks |
| VpnLemmas.DecrementNeverDecidesEarlyExit | src/apps/vpn/mozillavpn.cpp:553-564 | The early exit with the decremented count happens exactly when no device has this id and the undecremented count reaches the maximum. The decrement never changes the outcome |
| VpnLemmas.MaybeStateMainSubscriptionFirst | src/apps/vpn/mozillavpn.cpp:371-382 | A needed subscription wins first. A blocked subscription leaves everything unchanged |
| VpnLemmas.MaybeStateMainOnboardingNext | src/apps/vpn/mozillavpn.cpp:386-396 | Next, post-authentication (desktop only) before the telemetry policy |
| VpnLemmas.MaybeStateMainDeviceLimit | src/apps/vpn/mozillavpn.cpp:398-403 | DeviceLimit exactly when onboarding is done and this device is not registered |
| VpnLemmas.MaybeStateMainReachesMain | src/apps/vpn/mozillavpn.cpp:405-423 | Main exactly when everything is ready and no update is required; with an update required the screen stays UpdateRequired. When ready, the queue is exactly what the key-regeneration step leaves |
| VpnLemmas.MaybeStateMainSignOut | src/apps/vpn/mozillavpn.cpp:405-412 | On reaching the model check with models missing: Initialize, signed out, settings cleared, one remote-service error reported |
| VpnLemmas.MaybeStateMainKeepsSession | src/apps/vpn/mozillavpn.cpp:368-434 | Every other branch keeps the sign-in state, the settings and the error log |
| VpnLemmas.MaybeStateMainSettles | src/apps/vpn/mozillavpn.cpp:368-434 | Away from the sign-out branch, running maybeStateMain again picks the same screen |
| VpnLemmas.MaybeStateMainSignOutMoves | src/apps/vpn/mozillavpn.cpp:405-412 | With the modelled settings clear (both onboarding flags reset), a second run after the sign-out moves on to an onboarding screen |
| VpnLemmas.PostAuthenticationScreenDone | src/apps/vpn/mozillavpn.cpp:877-890 | After postAuthenticationCompleted the post-authentication screen is not shown, and its flag stays set unless the models check signed the user out |
| VpnLemmas.TelemetryPolicyScreenDone | src/apps/vpn/mozillavpn.cpp:917-935 | After telemetryPolicyCompleted the telemetry-policy screen is not shown, and its flag stays set unless the models check signed the user out |
| VpnLemmas.ModelCheckNeedsOwnDevice | src/apps/vpn/mozillavpn.cpp:949-977 | modelsInitialized (user, server countries, device list, current device, keys; the predicate VpnState.ModelsInitialized) fails after a reset forgets the keys and after this device's own key is removed |
| VpnLemmas.RegenerationNeverRemoves | src/apps/vpn/mozillavpn.cpp:1224-1256 | Regeneration keeps the old queue, never queues a removal, and registers exactly once when due (never otherwise) |
| VpnLemmas.RegenerationTasksRegisterOnce | src/apps/vpn/mozillavpn.cpp:1244-1255 | The regeneration tasks: registration first, re-check closure last, one registration, no removal |
| VpnLemmas.RegenerationRepeatsUntilDeviceAdded | src/apps/vpn/mozillavpn.cpp:1224-1256 | Regeneration does not consume its trigger: a second check with the same settings queues again |
| VpnLemmas.DeviceAddedSettlesRegeneration | src/apps/vpn/mozillavpn.cpp:596-612 | Once deviceAdded stores a key version of at least 2.5.0, regeneration changes nothing |
| VpnLemmas.ResetLeavesOnlyDeactivations | src/apps/vpn/mozillavpn.cpp:856-875 | After reset only Deactivate tasks remain (two when forced to Initialize, one otherwise). Purchases are stopped. User and devices are kept |
| VpnLemmas.LogoutWithDevice | src/apps/vpn/mozillavpn.cpp:840-850 | With this device registered: signed out, keys forgotten, token gone, only deactivations left. The queued removal is wiped by the reset's deactivate |
| VpnLemmas.LogoutWithoutDevice | src/apps/vpn/mozillavpn.cpp:825-854 | Without it: still LoggingOut, the reset closure queued last, only deactivations before it |
| VpnLemmas.LogoutThenQueuedResetSignsOut | src/apps/vpn/mozillavpn.cpp:853 | Running that queued reset completes the logout: signed out, keys forgotten, token gone |
| VpnLemmas.DeferredAuthenticationReplays | src/apps/vpn/mozillavpn.cpp:451-465 | A sign-in requested during logout is kept pending. It is replayed after the queued reset, ending with Heartbeat then Authenticate |
| VpnLemmas.ErrorWhileAuthenticatingResets | src/apps/vpn/mozillavpn.cpp:1407-1423 | Any error while Authenticating gives Initialize, signed out, keys forgotten, only deactivations queued |
| VpnLemmas.HeartbeatFailureAndRecovery | src/apps/vpn/mozillavpn.cpp:1190-1208 | A failed heartbeat leaves BackendFailure with only Deactivate queued. A later success brings a ready, signed-in user back to Main |
| VpnLemmas.HealthyHeartbeatIsQuiet | src/apps/vpn/mozillavpn.cpp:1199-1201 | A successful heartbeat outside BackendFailure changes nothing |
| VpnLemmas.TunnelCommandsForgetQueue | src/apps/vpn/mozillavpn.cpp:986-1017 | Activate, deactivate and silent switch give the same queue whatever was queued before |
| VpnLemmas.CheckCurrentDeviceAsWritten | src/apps/vpn/mozillavpn.cpp:791-823 | checkCurrentDevice as written: same result and same in-memory keys as the corrected version |
| VpnLemmas.AsWrittenJournalRecoveryLosesKeys | src/apps/vpn/mozillavpn.cpp:815-822 | Whenever the journal recovery succeeds with settings keys unlike the journal's, the as-written code leaves the in-memory keys unpersisted and the journal empty; the corrected version persists them |
| VpnLemmas.AsWrittenJournalCounterexample | src/apps/vpn/mozillavpn.cpp:815-822 | A concrete input: the recovery reports success, holds pk-new in memory, yet the settings keep pk-old |
| Orchestrator.MozillaVPN.ScheduleTask | src/apps/vpn/mozillavpn.cpp:1303-1330 | In place: the task is appended to the queue |
| Orchestrator.MozillaVPN.DeleteTasks | src/apps/vpn/mozillavpn.cpp:1002 | In place: the queue is emptied |
| Orchestrator.MozillaVPN.ReportError | src/apps/vpn/mozillavpn.cpp:408 | In place: the error is appended to the error log |
| Orchestrator.MozillaVPN.SetState | src/apps/vpn/mozillavpn.cpp:134-148 | In place: the new state is VpnSpec.SetState of the old one (listener included) |
| Orchestrator.MozillaVPN.StopPurchases | src/apps/vpn/mozillavpn.cpp:864-867 | In place: the purchase flow is stopped, and the product registration too without web purchase |
| Orchestrator.MozillaVPN.ScheduleRefreshDataTasks | src/apps/vpn/mozillavpn.cpp:1299-1330 | Builds the group's list, queues the location first when needed; the new state is VpnSpec.ScheduleRefreshDataTasks of the old |
| Orchestrator.MozillaVPN.AddCurrentDeviceAndRefreshData | src/apps/vpn/mozillavpn.cpp:1214-1218 | New state is VpnSpec.AddCurrentDeviceAndRefreshData of the old |
| Orchestrator.MozillaVPN.MaybeRegenerateDeviceKey | src/apps/vpn/mozillavpn.cpp:1224-1256 | Both early returns and the regeneration; new state is VpnSpec.MaybeRegenerateDeviceKey of the old |
| Orchestrator.MozillaVPN.MaybeStateMain | src/apps/vpn/mozillavpn.cpp:368-434 | The cascade of guarded returns; new state is VpnSpec.MaybeStateMain of the old |
| Orchestrator.MozillaVPN.AuthenticateWithType | src/apps/vpn/mozillavpn.cpp:443-478 | Same precondition as the source assertion; new state is VpnSpec.AuthenticateWithType of the old |
| Orchestrator.MozillaVPN.Authenticate | src/apps/vpn/mozillavpn.cpp:436-441 | The flow kind follows the in-app authentication feature; new state as VpnSpec.AuthenticateWithType with that kind |
| Orchestrator.MozillaVPN.ReplayPendingAuthentication | src/apps/vpn/mozillavpn.cpp:451-465 | New state is VpnSpec.ReplayPendingAuthentication of the old |
| Orchestrator.MozillaVPN.AbortAuthentication | src/apps/vpn/mozillavpn.cpp:480-486 | New state is VpnSpec.AbortAuthentication of the old |
| Orchestrator.MozillaVPN.CompleteAuthentication | src/apps/vpn/mozillavpn.cpp:488-529 | New state is VpnSpec.CompleteAuthentication of the old and the parse outcomes |
| Orchestrator.MozillaVPN.AcceptAuthentication | src/apps/vpn/mozillavpn.cpp:507-528 | New state is VpnSpec.AcceptAuthentication of the old |
| Orchestrator.MozillaVPN.CancelAuthentication | src/apps/vpn/mozillavpn.cpp:778-789 | New state is VpnSpec.CancelAuthentication of the old |
| Orchestrator.MozillaVPN.MaybeRemoveCurrentDevice | src/apps/vpn/mozillavpn.cpp:531-550 | Returns the decision and leaves the state VpnSpec.MaybeRemoveCurrentDevice gives |
| Orchestrator.MozillaVPN.CompleteActivation | src/apps/vpn/mozillavpn.cpp:552-577 | Counts, removes, checks the limit, registers or refreshes, re-checks; new state is VpnSpec.CompleteActivation of the old |
| Orchestrator.MozillaVPN.DeviceAdded | src/apps/vpn/mozillavpn.cpp:596-612 | New state is VpnSpec.DeviceAdded of the old |
| Orchestrator.MozillaVPN.RemoveDevice | src/apps/vpn/mozillavpn.cpp:614-639 | New state is VpnSpec.RemoveDevice of the old |
| Orchestrator.MozillaVPN.RemoveDeviceFromPublicKey | src/apps/vpn/mozillavpn.cpp:677-691 | New state is VpnSpec.RemoveDeviceFromPublicKey of the old |
| Orchestrator.MozillaVPN.CheckCurrentDevice | src/apps/vpn/mozillavpn.cpp:791-823 | Returns and leaves what the corrected VpnSpec.CheckCurrentDevice gives |
| Orchestrator.MozillaVPN.Logout | src/apps/vpn/mozillavpn.cpp:825-854 | New state is VpnSpec.Logout of the old |
| Orchestrator.MozillaVPN.Reset | src/apps/vpn/mozillavpn.cpp:856-875 | New state is VpnSpec.Reset of the old |
| Orchestrator.MozillaVPN.Activate | src/apps/vpn/mozillavpn.cpp:986-997 | New state is VpnSpec.ActivateTunnel of the old |
| Orchestrator.MozillaVPN.Deactivate | src/apps/vpn/mozillavpn.cpp:999-1005 | New state is VpnSpec.DeactivateTunnel of the old |
| Orchestrator.MozillaVPN.SilentSwitch | src/apps/vpn/mozillavpn.cpp:1007-1017 | New state is VpnSpec.SilentSwitchServer of the old |
| Orchestrator.MozillaVPN.RefreshDevices | src/apps/vpn/mozillavpn.cpp:1019-1026 | New state is VpnSpec.RefreshDevices of the old |
| Orchestrator.MozillaVPN.SubscriptionStarted | src/apps/vpn/mozillavpn.cpp:1028-1048 | New state is VpnSpec.SubscriptionStarted of the old |
| Orchestrator.MozillaVPN.RestoreSubscriptionStarted | src/apps/vpn/mozillavpn.cpp:1050-1054 | New state is VpnSpec.RestoreSubscriptionStarted of the old |
| Orchestrator.MozillaVPN.SubscriptionCompleted | src/apps/vpn/mozillavpn.cpp:1056-1077 | New state is VpnSpec.SubscriptionCompleted of the old |
| Orchestrator.MozillaVPN.BillingNotAvailable | src/apps/vpn/mozillavpn.cpp:1079-1085 | New state is VpnSpec.BillingNotAvailable of the old |
| Orchestrator.MozillaVPN.SubscriptionNotValidated | src/apps/vpn/mozillavpn.cpp:1087-1089 | New state is VpnSpec.SubscriptionNotValidated of the old |
| Orchestrator.MozillaVPN.SubscriptionFailed | src/apps/vpn/mozillavpn.cpp:1091-1093 | New state is VpnSpec.SubscriptionFailed of the old |
| Orchestrator.MozillaVPN.SubscriptionCanceled | src/apps/vpn/mozillavpn.cpp:1095-1097 | New state is VpnSpec.SubscriptionCanceled of the old |
| Orchestrator.MozillaVPN.SubscriptionFailedInternal | src/apps/vpn/mozillavpn.cpp:1099-1126 | New state is VpnSpec.SubscriptionFailedInternal of the old |
| Orchestrator.MozillaVPN.AlreadySubscribed | src/apps/vpn/mozillavpn.cpp:1128-1141 | New state is VpnSpec.AlreadySubscribed of the old |
| Orchestrator.MozillaVPN.ReadyToUpdate | src/apps/vpn/mozillavpn.cpp:150-151 | New state is VpnSpec.ReadyToUpdate of the old |
| Orchestrator.MozillaVPN.BackendFailure | src/apps/vpn/mozillavpn.cpp:153-157 | New state is VpnSpec.BackendFailure of the old |
| Orchestrator.MozillaVPN.HeartbeatCompleted | src/apps/vpn/mozillavpn.cpp:1190-1208 | New state is VpnSpec.HeartbeatCompleted of the old |
| Orchestrator.MozillaVPN.ErrorHandled | src/apps/vpn/mozillavpn.cpp:1407-1429 | New state is VpnSpec.ErrorHandled of the old and the alert shown |
| Orchestrator.MozillaVPN.PostAuthenticationCompleted | src/apps/vpn/mozillavpn.cpp:877-890 | New state is VpnSpec.PostAuthenticationCompleted of the old |
| Orchestrator.MozillaVPN.TelemetryPolicyCompleted | src/apps/vpn/mozillavpn.cpp:917-935 | New state is VpnSpec.TelemetryPolicyCompleted of the old |
| Orchestrator.MozillaVPN.RunClosure | src/apps/vpn/mozillavpn.cpp:1248-1255 | The scheduler runs a queued closure; new state is VpnSpec.RunClosure of the old |
| CaptivePortal.CaptivePortalDetection.constructor | src/captiveportal/captiveportaldetection.cpp:22-27 | A new monitor is inactive, with no probe and nothing notified |
| CaptivePortal.CaptivePortalDetection.Initialize | src/captiveportal/captiveportaldetection.cpp:34-36 | The monitor's activity is the alert setting; no probe is started or stopped |
| CaptivePortal.CaptivePortalDetection.StateChanged | src/captiveportal/captiveportaldetection.cpp:38-67 | Inactive: nothing changes. Tunnel not On, or stable: any probe is dropped, none started. On and unstable: a Windows build replaces any probe with a freshly started one, other builds change nothing. A probe only ever runs on Windows |
| CaptivePortal.CaptivePortalDetection.SettingsChanged | src/captiveportal/captiveportaldetection.cpp:69-72 | The monitor's activity is the new alert setting; the probe is left as it is |
| CaptivePortal.CaptivePortalDetection.DetectionCompleted | src/captiveportal/captiveportaldetection.cpp:74-84 | The probe is dropped. The user is notified exactly when a portal was detected |
| CaptivePortal.CaptivePortalDetection.NotificationCompleted | src/captiveportal/captiveportaldetection.cpp:86-98 | A disconnection request deactivates the tunnel: everything queued is dropped and only Deactivate remains. Without one the orchestrator is untouched |

## Left out

- User interface: screen, navigation-bar and URL-opener registration, and the inspector commands. These are registration tables and debug remote control.
- Telemetry: Glean, Sentry and Adjust calls, `mainWindowLoaded` and its timers. Also the alert requests (LogoutAlert, hideAlert) and the signals emitted for the UI.
- `submitFeedback` and `createSupportTicket`: asynchronous log serialisation. The ticket task is started directly rather than through the queue.
- The periodic operations timer: reduced to the `periodicRunning` flag; the timer's own task group is not modelled.
- `initialize()` (src/apps/vpn/mozillavpn.cpp:236-366): a chain of settings loads whose outcomes come from code that is not part of this model. `Orchestrator.MozillaVPN.constructor` starts from any given state instead.
- The task scheduler, task groups and the network tasks themselves: tasks are tags in a queue. Running a task is modelled only for the closures (`RunClosure`) and for the callbacks the handlers stand for.
- JSON and settings parsing: the parsed user and device list are inputs, with None for a failed parse.
- `VersionUtils::compareVersions` is an abstract comparison in the configuration.
- `SettingsHolder::clear()` is modelled as resetting every modelled setting, the two onboarding flags included; which keys survive it is not visible here.
- VpnSpec.DeviceAdded: the key regeneration time stored at src/apps/vpn/mozillavpn.cpp:611 is not modelled, because no modelled decision reads it (the regeneration check compares key versions only).
- VpnSpec.CompleteAuthentication: a reported error is appended to the error log and `errorHandled` is a separate, later event. In the source the error handler's signal is connected directly to `errorHandled` (src/apps/vpn/mozillavpn.cpp:221-222), so a report at lines 408, 496, 502, 1116 or 1251 while Authenticating may reset the user before the handler returns. For example, a failed parse during authentication leaves the model Authenticating until `ErrorHandled` runs. The composed outcome is stated by `ErrorWhileAuthenticatingResets`. The error handler is not part of this model.
- `Device`, `DeviceModel` and `Keys`:
  - a device is current when it carries the local public key;
  - the active-device count is the length of the list;
  - `Keys::storeKeys` only sets the in-memory pair;
  - none of these classes is part of this model.
- DNSHelper, `serversFetched`/`setServerList`, `deviceRemovalCompleted`, `accountChecked`, `update`, `hardReset` and the journal setters are not part of this model.
- The Controller: it turns a backend failure into `readyToBackendFailure`. That listener is taken as running at once on a failed heartbeat.
- The Windows probe implementation. A probe is identified by its start number.
- Debug assertions follow one rule:
  - An assertion about the state a handler is entered in, which its caller guarantees, is a precondition: no signed-in user starts an authentication (src/apps/vpn/mozillavpn.cpp:451-454, `AuthenticateWithType`), and an abort happens only while Authenticating (482, `AbortAuthentication`).
  - An assertion about the account data the server sent is not. The model takes any value of that data, so it also covers what a release build does when such an assertion would fail. These are:
    - the full account on DeviceLimit (399-400, `MaybeStateMain`);
    - the server data before Main (415, `MaybeStateMain`);
    - this device not being registered on DeviceLimit (625, `RemoveDevice`);
    - this device being registered before a key regeneration (1241, `MaybeRegenerateDeviceKey`).
- ReplayPendingAuthentication: the pending request is a single value. The source creates one logout observer per authentication request made during a logout (src/apps/vpn/mozillavpn.cpp:456-463), so two requests during one logout replay twice there; the model replays the last one once.
- VpnSpec.Logout: the ensures states the screen, the sign-in state and the stopped purchase flow. The queue and secrets are stated in `LogoutWithDevice` and `LogoutWithoutDevice`. The `RemoveDevice` queued at line 844 is wiped by the reset's deactivate in this queue; whether the real scheduler already started it is not visible.
- CaptivePortal.CaptivePortalDetection.StateChanged: the controller state and the connection stability are parameters rather than reads through the application instance.
- The signal connections are direct calls: the probe's completion, the notifier's completion, and the logout observer (a pending request replayed by `ReplayPendingAuthentication`).

Behaviour of the code worth noting:

- A key regeneration is not consumed by running once. The trigger is cleared only by `deviceAdded` storing the new key version (`RegenerationRepeatsUntilDeviceAdded`, `DeviceAddedSettlesRegeneration`).
- The device-limit exit of `completeActivation` depends only on no device being registered under this id, with the undecremented count at the maximum. A still-valid device on a full account proceeds (`DecrementNeverDecidesEarlyExit`).
- With the settings clear modelled as resetting both onboarding flags, `maybeStateMain` is not idempotent: the sign-out branch clears the settings, so a second run lands on an onboarding screen (`MaybeStateMainSignOutMoves`). If the real clear kept those flags, a second run would sign out again instead.

## Findings

| source | as written | input that shows it | evidently intended | confidence | as-written member | corrected member |
|---|---|---|---|---|---|---|
| src/apps/vpn/mozillavpn.cpp:819-820 | On journal recovery the settings' own private and public keys are written back to the settings. Then the journal is cleared, so the recovered journal keys are never persisted. | One device carrying pk-new; in-memory and settings keys pk-old/sk-old; journal pk-new/sk-new. checkCurrentDevice returns true and holds pk-new in memory, but the settings still say pk-old and the journal is gone. | Store the journal keys as the settings keys before clearing the journal. | not executed; medium (`Keys::storeKeys` is not part of this model and might persist the pair itself) | VpnLemmas.AsWrittenJournalCounterexample | VpnSpec.RecoverJournalKeys |
