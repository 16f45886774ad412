/**
 * The captive-portal monitor (src/captiveportal/captiveportaldetection.cpp).
 * It watches the tunnel and the connection stability while the captive-portal
 * alert is enabled; on Windows builds an unstable tunnel starts a probe, a
 * detected portal notifies the user, and the user may ask to disconnect.
 *
 * The probe the monitor owns is identified by the number of probes started
 * before it, so "a fresh probe replaces the old one" can be told apart from
 * "the old one is kept". The notifier is counted by the notifications it was
 * asked to show.
 */
module CaptivePortal {
  import opened Options
  import opened Tasks
  import opened VpnState
  import VpnSpec
  import Orchestrator

  class CaptivePortalDetection {
    /** Whether this is a Windows build, the only one with a probe implementation. */
    const windowsBuild: bool

    /** The captive-portal alert setting, as last read. */
    var active: bool
    /** The running probe, by its start number; None when no probe is running. */
    var probe: Option<nat>
    /** How many probes have been started. */
    var probesStarted: nat
    /** How many notifications the notifier was asked to show. */
    var notifications: nat

    /** A probe only runs on Windows builds, and it is one that was started. */
    predicate Valid()
      reads this
    {
      probe.Some? ==> windowsBuild && probe.value < probesStarted
    }

    constructor (windowsBuild: bool)
      ensures this.windowsBuild == windowsBuild
      ensures !active && probe.None? && probesStarted == 0 && notifications == 0
      ensures Valid()
    {
      this.windowsBuild := windowsBuild;
      active, probe, probesStarted, notifications := false, None, 0, 0;
    }

    /** initialize: read the alert setting; no probe is started or stopped. */
    method Initialize(captivePortalAlert: bool)
      requires Valid()
      modifies this
      ensures Valid()
      ensures active == captivePortalAlert
      ensures probe == old(probe) && probesStarted == old(probesStarted) && notifications == old(notifications)
    {
      active := captivePortalAlert;
    }

    /**
     * stateChanged: the controller or the connection stability changed. Only
     * an active monitor reacts: a tunnel that is not on, or a stable one,
     * needs no probe; otherwise a Windows build starts a fresh probe in place
     * of any running one, and other builds do nothing.
     */
    method StateChanged(controller: ControllerState, stability: Stability)
      requires Valid()
      modifies this
      ensures Valid()
      ensures active == old(active) && notifications == old(notifications)
      ensures !old(active) ==> probe == old(probe) && probesStarted == old(probesStarted)
      ensures old(active) && (controller != On || stability == Stable) ==>
                probe.None? && probesStarted == old(probesStarted)
      ensures old(active) && controller == On && stability != Stable && windowsBuild ==>
                probe == Some(old(probesStarted)) && probesStarted == old(probesStarted) + 1
      ensures old(active) && controller == On && stability != Stable && !windowsBuild ==>
                probe == old(probe) && probesStarted == old(probesStarted)
    {
      if !active {
        return;
      }
      if controller != On || stability == Stable {
        probe := None;
        return;
      }
      if !windowsBuild {
        return;
      }
      probe := Some(probesStarted);
      probesStarted := probesStarted + 1;
    }

    /** settingsChanged: re-read the alert setting; the probe is left as it is. */
    method SettingsChanged(captivePortalAlert: bool)
      requires Valid()
      modifies this
      ensures Valid()
      ensures active == captivePortalAlert
      ensures probe == old(probe) && probesStarted == old(probesStarted) && notifications == old(notifications)
    {
      active := captivePortalAlert;
    }

    /** detectionCompleted: the probe is done; a detected portal is reported to the user. */
    method DetectionCompleted(detected: bool)
      requires Valid()
      modifies this
      ensures Valid()
      ensures probe.None? && active == old(active) && probesStarted == old(probesStarted)
      ensures notifications == old(notifications) + (if detected then 1 else 0)
    {
      probe := None;
      if !detected {
        return;
      }
      notifications := notifications + 1;
    }

    /**
     * notificationCompleted: the user dismissed the notification; a
     * disconnection request deactivates the tunnel, dropping every queued task.
     */
    method NotificationCompleted(vpn: Orchestrator.MozillaVPN, disconnectionRequested: bool)
      modifies vpn
      ensures disconnectionRequested ==>
                && vpn.Snapshot() == VpnSpec.DeactivateTunnel(old(vpn.Snapshot()))
                && vpn.queue == [TaskControllerAction(Deactivate)]
      ensures !disconnectionRequested ==> vpn.Snapshot() == old(vpn.Snapshot())
    {
      if !disconnectionRequested {
        return;
      }
      vpn.Deactivate();
    }
  }
}
