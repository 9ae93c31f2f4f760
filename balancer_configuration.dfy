/**
 * The balancer configuration of the gRPC frontend: a cell that holds the name of the
 * load-balancing policy a channel uses and raises its `Updated` event on every update.
 *
 * The module has two layers. The first is a value-level description of the cell: the
 * abstract state `Config`, the effect `Step` of one call on it, and the properties of
 * runs of calls. The second is the class `BalancerConfiguration`, whose fields are
 * updated in place and whose methods are proved to follow `Step`.
 */
module Balancer {

  /** The closed set of policy names. */
  datatype LoadBalancerName = RoundRobin | PickFirst

  /** Identity of one handler in the `Updated` event's invocation list. */
  type ObserverId = nat

  /**
   * One delivery of `Updated`: which handler ran, and the policy name that handler reads
   * from the configuration while it runs. The event itself carries no payload.
   */
  datatype Notification = Notification(observer: ObserverId, observed: LoadBalancerName)

  /**
   * Abstract state of a configuration: the policy name held, the event's invocation list
   * (in registration order, duplicates allowed) and every notification delivered so far.
   */
  datatype Config = Config(policy: LoadBalancerName, subscribers: seq<ObserverId>, log: seq<Notification>)

  /** The calls a client can make on a configuration: `Updated += h`, `Updated -= h`, `Update(v)`. */
  datatype Call =
    | CallSubscribe(handler: ObserverId)
    | CallUnsubscribe(handler: ObserverId)
    | CallUpdate(value: LoadBalancerName)

  // ---------------------------------------------------------------------------
  // The invocation list

  /** Index of the last occurrence of `o` in `s`, or -1 when `o` does not occur. */
  function LastIndexOf(s: seq<ObserverId>, o: ObserverId): (k: int)
    ensures -1 <= k < |s|
    ensures k == -1 <==> o !in s
    ensures 0 <= k ==> s[k] == o && o !in s[k + 1..]
  {
    if s == [] then -1
    else if s[|s| - 1] == o then |s| - 1
    else LastIndexOf(s[..|s| - 1], o)
  }

  /**
   * The invocation list after `Updated -= o` for a single handler `o`: its last occurrence
   * is taken out and the order of the rest is kept; a handler that is not registered
   * leaves the list unchanged.
   */
  function RemoveLast(s: seq<ObserverId>, o: ObserverId): (r: seq<ObserverId>)
    ensures multiset(r) == multiset(s) - multiset{o}
    ensures o !in s ==> r == s
    ensures o in s ==>
              exists k :: 0 <= k < |s| && s[k] == o && o !in s[k + 1..] && r == s[..k] + s[k + 1..]
    ensures |r| == if o in s then |s| - 1 else |s|
  {
    var k := LastIndexOf(s, o);
    if k < 0 then s
    else
      assert s == s[..k] + [s[k]] + s[k + 1..];
      s[..k] + s[k + 1..]
  }

  // ---------------------------------------------------------------------------
  // Notifications

  /**
   * What one raise of `Updated` delivers when every handler reads `v`: one notification
   * per entry of the invocation list, in list order.
   */
  function Deliveries(subscribers: seq<ObserverId>, v: LoadBalancerName): (r: seq<Notification>)
    ensures |r| == |subscribers|
    ensures forall i :: 0 <= i < |r| ==> r[i].observer == subscribers[i] && r[i].observed == v
  {
    if subscribers == [] then []
    else
      Deliveries(subscribers[..|subscribers| - 1], v)
        + [Notification(subscribers[|subscribers| - 1], v)]
  }

  /** The handlers of a log of notifications, in delivery order. */
  function Observers(log: seq<Notification>): seq<ObserverId>
  {
    seq(|log|, i requires 0 <= i < |log| => log[i].observer)
  }

  /** How many times handler `o` has been notified in `log`. */
  function NotifyCount(log: seq<Notification>, o: ObserverId): nat
  {
    multiset(Observers(log))[o]
  }

  /** Helper: the handlers of two logs in a row are those of the first, then the second. */
  lemma ObserversAppend(a: seq<Notification>, b: seq<Notification>)
    ensures Observers(a + b) == Observers(a) + Observers(b)
  {
  }

  /** Helper: one raise notifies exactly the invocation list, in order. */
  lemma ObserversOfDeliveries(s: seq<ObserverId>, v: LoadBalancerName)
    ensures Observers(Deliveries(s, v)) == s
  {
  }

  // ---------------------------------------------------------------------------
  // One call, and runs of calls

  /**
   * The effect of one call. Only `Update` changes the policy name, and it assigns the
   * name before raising the event, so every handler it notifies reads the new name.
   * `Update` raises the event unconditionally, also when the name does not change, and
   * leaves the invocation list as it is. Registering or removing a handler notifies no one.
   */
  function Step(c: Config, call: Call): (r: Config)
    ensures r.policy == if call.CallUpdate? then call.value else c.policy
    ensures call.CallUpdate? ==> r.subscribers == c.subscribers
    ensures call.CallSubscribe? ==> r.subscribers == c.subscribers + [call.handler]
    ensures call.CallUnsubscribe? ==> r.subscribers == RemoveLast(c.subscribers, call.handler)
    ensures call.CallUnsubscribe? ==>
              multiset(r.subscribers) == multiset(c.subscribers) - multiset{call.handler}
    ensures call.CallUpdate? ==>
              && |r.log| == |c.log| + |c.subscribers|
              && r.log[..|c.log|] == c.log
              && forall i :: 0 <= i < |c.subscribers| ==>
                   r.log[|c.log| + i] == Notification(c.subscribers[i], call.value)
    ensures !call.CallUpdate? ==> r.log == c.log
  {
    match call
    case CallSubscribe(h) => c.(subscribers := c.subscribers + [h])
    case CallUnsubscribe(h) => c.(subscribers := RemoveLast(c.subscribers, h))
    case CallUpdate(v) => c.(policy := v, log := c.log + Deliveries(c.subscribers, v))
  }

  /** The state after the calls `calls`, made one after another from `c`. */
  function Run(c: Config, calls: seq<Call>): Config
  {
    if calls == [] then c
    else Step(Run(c, calls[..|calls| - 1]), calls[|calls| - 1])
  }

  /** The value of the last `Update` in `calls`, or `d` when there is none. */
  function LastUpdate(calls: seq<Call>, d: LoadBalancerName): LoadBalancerName
  {
    if calls == [] then d
    else if calls[|calls| - 1].CallUpdate? then calls[|calls| - 1].value
    else LastUpdate(calls[..|calls| - 1], d)
  }

  /** True when every call in `calls` is an `Update`. */
  predicate OnlyUpdates(calls: seq<Call>)
  {
    forall i :: 0 <= i < |calls| ==> calls[i].CallUpdate?
  }

  /**
   * One `Update` notifies each handler once per registration of it, and handlers that
   * are not registered not at all (with an empty invocation list, no one).
   */
  lemma UpdateNotifiesEachSubscriptionOnce(c: Config, v: LoadBalancerName, o: ObserverId)
    ensures NotifyCount(Step(c, CallUpdate(v)).log, o)
            == NotifyCount(c.log, o) + multiset(c.subscribers)[o]
    ensures forall n :: n in Step(c, CallUpdate(v)).log[|c.log|..] ==> n.observed == v
  {
    var d := Deliveries(c.subscribers, v);
    ObserversAppend(c.log, d);
    ObserversOfDeliveries(c.subscribers, v);
    assert Step(c, CallUpdate(v)).log[|c.log|..] == d;
  }

  /** An `Update` with the value already held still notifies every registered handler. */
  lemma RedundantUpdateStillNotifies(c: Config, o: ObserverId)
    requires o in c.subscribers
    ensures Step(c, CallUpdate(c.policy)).policy == c.policy
    ensures NotifyCount(Step(c, CallUpdate(c.policy)).log, o) > NotifyCount(c.log, o)
  {
    UpdateNotifiesEachSubscriptionOnce(c, c.policy, o);
  }

  /** After any run of calls the held name is the value of the last `Update`. */
  lemma {:induction false} LastUpdateWins(c: Config, calls: seq<Call>)
    ensures Run(c, calls).policy == LastUpdate(calls, c.policy)
  {
    if calls != [] {
      LastUpdateWins(c, calls[..|calls| - 1]);
    }
  }

  /** Registering and removing handlers never change the held name. */
  lemma {:induction false} PolicyChangesOnlyThroughUpdate(c: Config, calls: seq<Call>)
    requires forall i :: 0 <= i < |calls| ==> !calls[i].CallUpdate?
    ensures Run(c, calls).policy == c.policy
  {
    if calls != [] {
      PolicyChangesOnlyThroughUpdate(c, calls[..|calls| - 1]);
    }
  }

  /**
   * A run of `Update`s keeps the invocation list, and notifies a handler that stays
   * registered throughout once per update and per registration: there is no de-duplication.
   */
  lemma {:induction false} RepeatedUpdatesNotifyEachTime(c: Config, calls: seq<Call>, o: ObserverId)
    requires OnlyUpdates(calls)
    ensures Run(c, calls).subscribers == c.subscribers
    ensures NotifyCount(Run(c, calls).log, o)
            == NotifyCount(c.log, o) + |calls| * multiset(c.subscribers)[o]
  {
    if calls != [] {
      var init, last := calls[..|calls| - 1], calls[|calls| - 1];
      assert OnlyUpdates(init) by {
        forall i | 0 <= i < |init| ensures init[i].CallUpdate? {
          assert init[i] == calls[i];
        }
      }
      RepeatedUpdatesNotifyEachTime(c, init, o);
      var before := Run(c, init);
      assert Run(c, calls) == Step(before, CallUpdate(last.value));
      UpdateNotifiesEachSubscriptionOnce(before, last.value, o);
      MulSucc(|init|, multiset(c.subscribers)[o]);
    }
  }

  /** Helper: the arithmetic step of the induction above. */
  lemma MulSucc(n: nat, k: nat)
    ensures n * k + k == (n + 1) * k
  {
  }

  /**
   * After `Updated -= o` for a handler registered `k >= 1` times, the next `Update`
   * notifies `o` `k - 1` times (so a handler registered once is no longer notified, and
   * one registered twice survives one removal) and still notifies every other handler
   * once per registration.
   */
  lemma UnsubscribeStopsNotifications(c: Config, o: ObserverId, v: LoadBalancerName, p: ObserverId)
    requires o in c.subscribers
    ensures NotifyCount(Step(Step(c, CallUnsubscribe(o)), CallUpdate(v)).log, o)
            == NotifyCount(c.log, o) + multiset(c.subscribers)[o] - 1
    ensures multiset(c.subscribers)[o] == 1 ==>
              NotifyCount(Step(Step(c, CallUnsubscribe(o)), CallUpdate(v)).log, o) == NotifyCount(c.log, o)
    ensures p != o ==>
              NotifyCount(Step(Step(c, CallUnsubscribe(o)), CallUpdate(v)).log, p)
              == NotifyCount(c.log, p) + multiset(c.subscribers)[p]
  {
    var removed := Step(c, CallUnsubscribe(o));
    UpdateNotifiesEachSubscriptionOnce(removed, v, o);
    UpdateNotifiesEachSubscriptionOnce(removed, v, p);
  }

  // ---------------------------------------------------------------------------
  // The class

  /** A balancer configuration, one per channel. */
  class BalancerConfiguration {
    /** Backing field of the `LoadBalancerPolicyName` property; only `Update` assigns it. */
    var policyName: LoadBalancerName
    /** The `Updated` event's invocation list. */
    var invocationList: seq<ObserverId>
    /** Every notification delivered so far, with the name each handler read. */
    ghost var log: seq<Notification>

    ghost function State(): Config
      reads this
    {
      Config(policyName, invocationList, log)
    }

    /** The `LoadBalancerPolicyName` getter: the name the abstract state holds. */
    function LoadBalancerPolicyName(): (r: LoadBalancerName)
      reads this
      ensures r == State().policy
    {
      policyName
    }

    /** A new configuration holds `PickFirst` and has no handlers. */
    constructor ()
      ensures State() == Config(PickFirst, [], [])
      ensures LoadBalancerPolicyName() == PickFirst
    {
      policyName := PickFirst;
      invocationList := [];
      log := [];
    }

    /** `Updated += o`. */
    method Subscribe(o: ObserverId)
      modifies this
      ensures State() == Step(old(State()), CallSubscribe(o))
    {
      invocationList := invocationList + [o];
    }

    /** `Updated -= o`. */
    method Unsubscribe(o: ObserverId)
      modifies this
      ensures State() == Step(old(State()), CallUnsubscribe(o))
    {
      invocationList := RemoveLast(invocationList, o);
    }

    /**
     * Assigns the name, then raises `Updated`: each handler of the invocation list runs in
     * turn and reads the name through the getter.
     */
    method Update(v: LoadBalancerName)
      modifies this
      ensures State() == Step(old(State()), CallUpdate(v))
      ensures LoadBalancerPolicyName() == v
      ensures forall n :: n in log[|old(log)|..] ==> n.observed == v
    {
      policyName := v;
      var i := 0;
      while i < |invocationList|
        invariant 0 <= i <= |invocationList|
        invariant policyName == v && invocationList == old(invocationList)
        invariant log == old(log) + Deliveries(invocationList[..i], v)
      {
        assert invocationList[..i + 1][..i] == invocationList[..i];
        log := log + [Notification(invocationList[i], LoadBalancerPolicyName())];
        i := i + 1;
      }
      assert invocationList[..i] == invocationList;
    }
  }

  /** A client: two handlers, then `Update(RoundRobin)` and `Update(PickFirst)`. */
  method TwoHandlersTwoUpdates(a: ObserverId, b: ObserverId)
    requires a != b
  {
    var config := new BalancerConfiguration();
    assert config.LoadBalancerPolicyName() == PickFirst;
    config.Subscribe(a);
    config.Subscribe(b);
    assert config.invocationList == [a, b];
    config.Update(RoundRobin);
    assert config.LoadBalancerPolicyName() == RoundRobin;
    assert config.log[0] == Notification(a, RoundRobin) && config.log[1] == Notification(b, RoundRobin);
    ghost var first := config.log;
    config.Update(PickFirst);
    assert config.LoadBalancerPolicyName() == PickFirst;
    assert |config.log| == 4 && config.log[..2] == first;
    assert config.log[2] == Notification(a, PickFirst) && config.log[3] == Notification(b, PickFirst);
  }
}
