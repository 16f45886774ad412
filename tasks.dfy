/**
 * The units of work the application hands to the global task scheduler.
 * Every task is a tag: the network operations themselves, the execution of a
 * task group's children and the scheduler's draining loop are not modelled;
 * the scheduler is the ordered queue `seq<Task>` that `scheduleTask` appends
 * to and `deleteTasks` empties.
 */
module Tasks {

  /** Whether a task's failure reaches the error handler. */
  datatype ErrorPropagation = PropagateError | DoNotPropagateError

  /** What a controller-action task asks the tunnel controller to do. */
  datatype ControllerAction = Activate | Deactivate | SilentSwitch

  /** How the authentication flow is presented to the user. */
  datatype AuthenticationType = AuthenticationInApp | AuthenticationInBrowser

  /** The closures the application wraps in a function task, one tag per lambda. */
  datatype Closure =
    | FnMaybeStateMain              // re-evaluate which screen to show
    | FnReset                       // finish a logout without a registered device
    | FnRegenCheck                  // verify the models after a key regeneration
    | FnDeviceLimitRecheck          // leave the device-limit screen once a device is gone
    | FnSubscriptionRecheck         // leave the subscription screen when no longer needed
    | FnSubscriptionStarted(productId: string)  // retry a purchase once products are registered

  datatype Task =
    | TaskHeartbeat
    | TaskAuthenticate(authType: AuthenticationType)
    | TaskAddDevice(deviceName: string, uniqueId: string)
    | TaskRemoveDevice(publicKey: string)
    | TaskGroup(children: seq<Task>)
    | TaskAccount(policy: ErrorPropagation)
    | TaskServers(policy: ErrorPropagation)
    | TaskCaptivePortalLookup(policy: ErrorPropagation)
    | TaskGetSubscriptionDetails(policy: ErrorPropagation)
    | TaskGetLocation(policy: ErrorPropagation)
    | TaskProducts
    | TaskGetFeatureList
    | TaskAddonIndex
    | TaskControllerAction(action: ControllerAction)
    | TaskFunction(fn: Closure)

  /** Every queued task is a request to deactivate the tunnel. */
  predicate OnlyDeactivations(q: seq<Task>) {
    forall i :: 0 <= i < |q| ==> q[i] == TaskControllerAction(Deactivate)
  }

  /** No queued task removes a device from the account. */
  predicate NoRemoval(q: seq<Task>) {
    forall i :: 0 <= i < |q| ==> !q[i].TaskRemoveDevice?
  }

  /** The number of device registrations in a queue. */
  function CountAddDevice(q: seq<Task>): (n: nat)
    ensures n <= |q|
    ensures n == 0 <==> forall i :: 0 <= i < |q| ==> !q[i].TaskAddDevice?
  {
    if q == [] then 0
    else (if q[0].TaskAddDevice? then 1 else 0) + CountAddDevice(q[1..])
  }

  lemma {:induction false} CountAddDeviceAppend(p: seq<Task>, q: seq<Task>)
    ensures CountAddDevice(p + q) == CountAddDevice(p) + CountAddDevice(q)
  {
    if p == [] {
      assert p + q == q;
    } else {
      assert (p + q)[1..] == p[1..] + q;
      CountAddDeviceAppend(p[1..], q);
    }
  }
}
