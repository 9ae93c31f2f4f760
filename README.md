# Balancer configuration

A Dafny model of `BalancerConfiguration` from the gRPC frontend example
(`Container/Frontend/Balancer/BalancerConfiguration.cs`). The class holds the
name of the load-balancing policy a channel uses, one of the two values of the
`LoadBalancerName` enum. The name starts as `PickFirst`. It changes only
through `Update(v)`, which assigns `v` and then raises the `Updated` event.
The event is raised on every call, also when `v` equals the name already held.

The model is one module, `Balancer`, in `balancer_configuration.dfy`:

- `LoadBalancerName` is a closed two-constructor datatype.
- `Config` is the abstract state. It holds the policy name, the event's
  invocation list (handlers in registration order, duplicates allowed) and a
  log of every notification delivered. Each log entry records the handler and
  the policy name that handler reads from the configuration while it runs.
- `Step` gives the effect of one call (`+=`, `-=` or `Update`). `Run` gives
  the effect of a sequence of calls. The lemmas state the properties of runs.
- The class `BalancerConfiguration` has the mutable fields `policyName` and
  `invocationList` and a ghost `log`. Its methods change the fields in place
  and are proved to follow `Step`. `Update` assigns the name first. It then
  walks the invocation list in a loop, and each handler reads the name through
  the `LoadBalancerPolicyName()` getter, so the log shows that every handler
  reads the new name.
- The `+=`/`-=` accessors of the C# event are not written out in the file.
  They are modelled as `Subscribe` and `Unsubscribe`. `Unsubscribe` follows
  `Delegate.Remove` for a single handler: it removes the last occurrence of
  the handler, and an unregistered handler leaves the list unchanged.
- `TwoHandlersTwoUpdates` is a client. It proves, from the contracts alone,
  a short scenario: two handlers, then two updates, each of which reaches
  both handlers in registration order.

## Model

| member | source | states |
|---|---|---|
| Balancer.BalancerConfiguration.constructor | Container/Frontend/Balancer/BalancerConfiguration.cs:24-26 | a new configuration holds `PickFirst`, has no handlers and has notified no one |
| Balancer.BalancerConfiguration.Update | Container/Frontend/Balancer/BalancerConfiguration.cs:28-33 | the new state is `Step` of the old state with `Update(v)`: the getter returns `v`, and every notification it delivers reads `v`, because the assignment precedes the raise |
| Balancer.BalancerConfiguration.LoadBalancerPolicyName | Container/Frontend/Balancer/BalancerConfiguration.cs:26 | the getter returns the name the abstract state holds; the constructor and `Update` contracts fix its value |
| Balancer.BalancerConfiguration.Subscribe | Container/Frontend/Balancer/BalancerConfiguration.cs:24 | `+=` appends the handler to the invocation list; the name and the log do not change |
| Balancer.BalancerConfiguration.Unsubscribe | Container/Frontend/Balancer/BalancerConfiguration.cs:24 | `-=` removes one registration of the handler; the name and the log do not change |
| Balancer.LastIndexOf | Container/Frontend/Balancer/BalancerConfiguration.cs:24 | the index found holds the handler and no later entry does; -1 exactly when the handler is not registered |
| Balancer.RemoveLast | Container/Frontend/Balancer/BalancerConfiguration.cs:24 | removal takes out the last registration of the handler and keeps the other handlers in their order; the multiset loses exactly one copy of the handler; an unregistered handler leaves the list unchanged |
| Balancer.Deliveries | Container/Frontend/Balancer/BalancerConfiguration.cs:32 | raising the event delivers one notification per invocation-list entry, in list order, each reading the given name |
| Balancer.Step | Container/Frontend/Balancer/BalancerConfiguration.cs:24-33 | only `Update` changes the name and it sets it to its argument; `Update` keeps the invocation list and appends one notification per entry, each reading the new name; `+=` appends the handler, `-=` removes its last registration in order-preserving fashion; `+=`/`-=` notify no one |
| Balancer.UpdateNotifiesEachSubscriptionOnce | Container/Frontend/Balancer/BalancerConfiguration.cs:28-33 | one `Update` notifies each handler once per registration and unregistered handlers not at all (with no handlers, no one); all its notifications read the new name |
| Balancer.RedundantUpdateStillNotifies | Container/Frontend/Balancer/BalancerConfiguration.cs:28-33 | an `Update` with the value already held keeps the name and still notifies every registered handler |
| Balancer.LastUpdateWins | Container/Frontend/Balancer/BalancerConfiguration.cs:26-33 | after any sequence of calls the name is the argument of the last `Update`, or the starting name if there was none |
| Balancer.PolicyChangesOnlyThroughUpdate | Container/Frontend/Balancer/BalancerConfiguration.cs:26 | a sequence of `+=`/`-=` calls never changes the name |
| Balancer.RepeatedUpdatesNotifyEachTime | Container/Frontend/Balancer/BalancerConfiguration.cs:28-33 | a run of `n` updates keeps the invocation list and notifies a handler registered `k` times exactly `n * k` more times, with no de-duplication |
| Balancer.UnsubscribeStopsNotifications | Container/Frontend/Balancer/BalancerConfiguration.cs:24-32 | after `-=` of a handler registered `k >= 1` times, the next `Update` notifies it `k - 1` times (not at all when it was registered once) and notifies every other handler once per registration |

## Left out

- Concurrency. The field-like event's lock-free `+=`/`-=` and races between
  concurrent `Update` callers are not modelled. The class itself provides no
  synchronisation.
- The bodies of the handlers and the components that read the name. A
  handler is modelled only by its identity and by the name it reads.
- Handlers are assumed not to call back into the configuration. The raise
  passes the configuration as `sender`, so a handler could call `Update` or
  `+=`/`-=` while the event is being raised, and later handlers would then
  read a newer name. The model treats each raise as one uninterrupted walk
  over the invocation list.
- The `sender` and `EventArgs.Empty` arguments of the raise. Notifications
  carry no payload in the model.
- The integer values of the enum and out-of-range casts such as
  `(LoadBalancerName)5`. The enum is a closed datatype.
- Handler exceptions, which in .NET stop later handlers and propagate out of
  `Update`. The model assumes handlers return normally.
- Balancer.BalancerConfiguration.Unsubscribe: removing a multicast delegate
  (a sub-list of several handlers at once) is not modelled; only the removal
  of a single handler is.
