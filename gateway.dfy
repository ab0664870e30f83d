/**
 * The adapter's gateway state as a value: the cached snapshots, the
 * notification log and the calls it made into the twin, together with the pure
 * decisions of its readers and of its action guard, and the effect of each
 * engine or HTTP callback. The class `DigitalAdapter.HttpDigitalAdapter` is
 * verified against these definitions; the lemmas here are about whole
 * sequences of callbacks.
 */
module Gateway {
  import opened Wrappers
  import opened TwinState

  /** One `publishDigitalActionWldtEvent(actionKey, body)` call into the twin. */
  datatype ActionCall = ActionCall(actionKey: Key, body: string)

  datatype GatewayState = GatewayState(
    current: Option<DigitalTwinState>,         // updatedDigitalTwinState
    previous: Option<DigitalTwinState>,        // previousDigitalTwinState
    changes: Option<seq<StateChange>>,         // latestDigitalTwinStateChangeList
    notifications: seq<EventNotification>,     // eventNotificationList
    forwarded: seq<ActionCall>,                // actions published to the twin
    observed: seq<set<Key>>)                   // observeDigitalTwinEventsNotifications calls

  /** The state right after construction: no snapshot, nothing received, nothing sent. */
  function Initial(): GatewayState {
    GatewayState(None, None, None, [], [], [])
  }

  // ---------------------------------------------------------------- readers

  /** `onPropertyGet(key)`: absent without a current state, else the state's own lookup. */
  function PropertyGet(current: Option<DigitalTwinState>, propertyKey: Key): (r: Option<Property>)
    ensures current.None? ==> r.None?
    ensures current.Some? ==> r == Lookup(current.value.properties, propertyKey)
  {
    if current.None? then None else Lookup(current.value.properties, propertyKey)
  }

  /** `onActionGet(key)`. */
  function ActionGet(current: Option<DigitalTwinState>, actionKey: Key): (r: Option<Action>)
    ensures current.None? ==> r.None?
    ensures current.Some? ==> r == Lookup(current.value.actions, actionKey)
  {
    if current.None? then None else Lookup(current.value.actions, actionKey)
  }

  /** `onEventGet(key)`. */
  function EventGet(current: Option<DigitalTwinState>, eventKey: Key): (r: Option<Event>)
    ensures current.None? ==> r.None?
    ensures current.Some? ==> r == Lookup(current.value.events, eventKey)
  {
    if current.None? then None else Lookup(current.value.events, eventKey)
  }

  /** `onRelationshipGet(name)`. */
  function RelationshipGet(current: Option<DigitalTwinState>, relationshipName: Key): (r: Option<Relationship>)
    ensures current.None? ==> r.None?
    ensures current.Some? ==> r == Lookup(current.value.relationships, relationshipName)
  {
    if current.None? then None else Lookup(current.value.relationships, relationshipName)
  }

  /** `onPropertiesGet()`: the property list, or an empty collection; never fails. */
  function PropertiesGet(current: Option<DigitalTwinState>): (r: set<Property>)
    ensures current.None? || current.value.properties.None? ==> r == {}
    ensures forall p :: p in r <==> exists k :: PropertyGet(current, k) == Some(p)
  {
    var r := if current.Some? then ListOrEmpty(current.value.properties) else {};
    assert forall p :: p in r ==> exists k :: PropertyGet(current, k) == Some(p) by {
      forall p | p in r ensures exists k :: PropertyGet(current, k) == Some(p) {
        var k :| k in current.value.properties.value && current.value.properties.value[k] == p;
        assert PropertyGet(current, k) == Some(p);
      }
    }
    r
  }

  /** `onActionsGet()`. */
  function ActionsGet(current: Option<DigitalTwinState>): (r: set<Action>)
    ensures current.None? || current.value.actions.None? ==> r == {}
    ensures forall a :: a in r <==> exists k :: ActionGet(current, k) == Some(a)
  {
    var r := if current.Some? then ListOrEmpty(current.value.actions) else {};
    assert forall a :: a in r ==> exists k :: ActionGet(current, k) == Some(a) by {
      forall a | a in r ensures exists k :: ActionGet(current, k) == Some(a) {
        var k :| k in current.value.actions.value && current.value.actions.value[k] == a;
        assert ActionGet(current, k) == Some(a);
      }
    }
    r
  }

  /** `onEventsGet()`. */
  function EventsGet(current: Option<DigitalTwinState>): (r: set<Event>)
    ensures current.None? || current.value.events.None? ==> r == {}
    ensures forall e :: e in r <==> exists k :: EventGet(current, k) == Some(e)
  {
    var r := if current.Some? then ListOrEmpty(current.value.events) else {};
    assert forall e :: e in r ==> exists k :: EventGet(current, k) == Some(e) by {
      forall e | e in r ensures exists k :: EventGet(current, k) == Some(e) {
        var k :| k in current.value.events.value && current.value.events.value[k] == e;
        assert EventGet(current, k) == Some(e);
      }
    }
    r
  }

  /** `onRelationshipsGet()`. */
  function RelationshipsGet(current: Option<DigitalTwinState>): (r: set<Relationship>)
    ensures current.None? || current.value.relationships.None? ==> r == {}
    ensures forall rel :: rel in r <==> exists k :: RelationshipGet(current, k) == Some(rel)
  {
    var r := if current.Some? then ListOrEmpty(current.value.relationships) else {};
    assert forall rel :: rel in r ==> exists k :: RelationshipGet(current, k) == Some(rel) by {
      forall rel | rel in r ensures exists k :: RelationshipGet(current, k) == Some(rel) {
        var k :| k in current.value.relationships.value && current.value.relationships.value[k] == rel;
        assert RelationshipGet(current, k) == Some(rel);
      }
    }
    r
  }

  /**
   * `onReadProperty(key)`: the value's text when the current state has the
   * property and its value is not null. A null value makes `toString()` throw,
   * and the handler of that exception answers "absent".
   */
  function ReadProperty(current: Option<DigitalTwinState>, propertyKey: Key): (r: Option<string>)
    ensures r.Some? <==> PropertyGet(current, propertyKey).Some? && PropertyGet(current, propertyKey).value.value.Value?
    ensures r.Some? ==> r.value == PropertyGet(current, propertyKey).value.value.text
  {
    match PropertyGet(current, propertyKey)
    case Some(p) => if p.value.Value? then Some(p.value.text) else None
    case None => None
  }

  /**
   * `onRelationshipInstancesGet(name)`: the instance list when the current state
   * has the relationship and its list is not null (`Optional.ofNullable`).
   */
  function RelationshipInstancesGet(current: Option<DigitalTwinState>, relationshipName: Key)
    : (r: Option<seq<RelationshipInstance>>)
    ensures RelationshipGet(current, relationshipName).None? ==> r.None?
    ensures r.Some? <==> RelationshipGet(current, relationshipName).Some? && RelationshipGet(current, relationshipName).value.instances.Some?
    ensures r.Some? ==> r == RelationshipGet(current, relationshipName).value.instances
  {
    match RelationshipGet(current, relationshipName)
    case Some(rel) => rel.instances
    case None => None
  }

  // ---------------------------------------------------------- action guard

  /** The guard of `onActionRequest`: a current state exists and contains the action. */
  predicate ActionAccepted(current: Option<DigitalTwinState>, actionKey: Key) {
    current.Some? && current.value.ContainsAction(actionKey)
  }

  /**
   * The status `onActionRequest` answers: 400 when the guard fails or publishing
   * the action throws (`publishFails`), 202 once it is published.
   */
  function ActionStatus(current: Option<DigitalTwinState>, actionKey: Key, publishFails: bool): (status: int)
    ensures status == 202 || status == 400
    ensures status == 202 <==> ActionAccepted(current, actionKey) && !publishFails
    ensures current.None? ==> status == 400
  {
    if current.None? || !current.value.ContainsAction(actionKey) then 400
    else if publishFails then 400
    else 202
  }

  // ---------------------------------------------------- callbacks and runs

  /** The calls that change the gateway state, from the engine and from HTTP. */
  datatype Callback =
    | StateUpdate(newState: Option<DigitalTwinState>, previousState: Option<DigitalTwinState>,
                  changeList: Option<seq<StateChange>>)
    | TwinSync(syncedState: Option<DigitalTwinState>)
    | NotificationReceived(notification: EventNotification)
    | ActionRequest(actionKey: Key, body: string, publishFails: bool)

  /** The event keys that `onDigitalTwinSync` asks to observe, if it asks. */
  function ObservedBySync(s: DigitalTwinState): seq<set<Key>> {
    if s.events.Some? then [s.EventKeys()] else []
  }

  /** The effect of one callback on the gateway state. */
  function Step(g: GatewayState, cb: Callback): GatewayState {
    match cb
    case StateUpdate(n, p, c) => g.(current := n, previous := p, changes := c)
    case TwinSync(s) =>
      if s.None? then g else g.(current := s, observed := g.observed + ObservedBySync(s.value))
    case NotificationReceived(x) => g.(notifications := g.notifications + [x])
    case ActionRequest(k, b, fails) =>
      if ActionStatus(g.current, k, fails) == 202 then g.(forwarded := g.forwarded + [ActionCall(k, b)]) else g
  }

  /** The state after the callbacks of `trace`, in order, starting from `g`. */
  function Run(g: GatewayState, trace: seq<Callback>): GatewayState
    decreases |trace|
  {
    if trace == [] then g else Step(Run(g, trace[..|trace| - 1]), trace[|trace| - 1])
  }

  lemma RunAppend(g: GatewayState, trace: seq<Callback>, cb: Callback)
    ensures Run(g, trace + [cb]) == Step(Run(g, trace), cb)
  {
    assert (trace + [cb])[..|trace|] == trace;
  }

  /** The callback installs a new current state: every update, and a sync with a state. */
  predicate Publishes(cb: Callback) {
    cb.StateUpdate? || (cb.TwinSync? && cb.syncedState.Some?)
  }

  function PublishedState(cb: Callback): Option<DigitalTwinState>
    requires Publishes(cb)
  {
    if cb.StateUpdate? then cb.newState else cb.syncedState
  }

  /** `i` is the position of the last callback in `trace` that installs a current state. */
  ghost predicate IsLastPublish(trace: seq<Callback>, i: nat) {
    i < |trace| && Publishes(trace[i]) && forall j | i < j < |trace| :: !Publishes(trace[j])
  }

  /** `i` is the position of the last `onStateUpdate` in `trace`. */
  ghost predicate IsLastUpdate(trace: seq<Callback>, i: nat) {
    i < |trace| && trace[i].StateUpdate? && forall j | i < j < |trace| :: !trace[j].StateUpdate?
  }

  /** Before any update or non-null sync there is no current snapshot. */
  lemma {:induction false} CurrentAbsentBeforePublish(trace: seq<Callback>)
    requires forall j | 0 <= j < |trace| :: !Publishes(trace[j])
    ensures Run(Initial(), trace).current == None
    decreases |trace|
  {
    if trace != [] {
      var prefix := trace[..|trace| - 1];
      assert forall j | 0 <= j < |prefix| :: prefix[j] == trace[j];
      CurrentAbsentBeforePublish(prefix);
    }
  }

  /**
   * The current snapshot is the one installed by the last update (even a null
   * one) or the last sync with a state; later notifications and action
   * requests leave it alone.
   */
  lemma {:induction false} CurrentIsLastPublished(trace: seq<Callback>, i: nat)
    requires IsLastPublish(trace, i)
    ensures Run(Initial(), trace).current == PublishedState(trace[i])
    decreases |trace|
  {
    var n := |trace| - 1;
    if i < n {
      var prefix := trace[..n];
      assert forall j | 0 <= j < |prefix| :: prefix[j] == trace[j];
      assert IsLastPublish(prefix, i);
      CurrentIsLastPublished(prefix, i);
    }
  }

  /** Before any `onStateUpdate` the previous snapshot and the change list are absent. */
  lemma {:induction false} PreviousAndChangesAbsentBeforeUpdate(trace: seq<Callback>)
    requires forall j | 0 <= j < |trace| :: !trace[j].StateUpdate?
    ensures Run(Initial(), trace).previous == None && Run(Initial(), trace).changes == None
    decreases |trace|
  {
    if trace != [] {
      var prefix := trace[..|trace| - 1];
      assert forall j | 0 <= j < |prefix| :: prefix[j] == trace[j];
      PreviousAndChangesAbsentBeforeUpdate(prefix);
    }
  }

  /**
   * The previous snapshot and the change list are the arguments of the last
   * `onStateUpdate`: the previous state the engine supplied, not the adapter's
   * own earlier current state. Syncs, notifications and action requests never
   * touch them.
   */
  lemma {:induction false} PreviousAndChangesAreLastSupplied(trace: seq<Callback>, i: nat)
    requires IsLastUpdate(trace, i)
    ensures Run(Initial(), trace).previous == trace[i].previousState
    ensures Run(Initial(), trace).changes == trace[i].changeList
    decreases |trace|
  {
    var n := |trace| - 1;
    if i < n {
      var prefix := trace[..n];
      assert forall j | 0 <= j < |prefix| :: prefix[j] == trace[j];
      assert IsLastUpdate(prefix, i);
      PreviousAndChangesAreLastSupplied(prefix, i);
    }
  }

  /** The notifications carried by `trace`, in arrival order. */
  function NotificationsIn(trace: seq<Callback>): seq<EventNotification>
    decreases |trace|
  {
    if trace == [] then []
    else
      var last := trace[|trace| - 1];
      NotificationsIn(trace[..|trace| - 1]) + (if last.NotificationReceived? then [last.notification] else [])
  }

  lemma {:induction false} NotificationsInAppend(t: seq<Callback>, u: seq<Callback>)
    ensures NotificationsIn(t + u) == NotificationsIn(t) + NotificationsIn(u)
    decreases |u|
  {
    if u == [] {
      assert t + u == t;
    } else {
      var n := |u| - 1;
      NotificationsInAppend(t, u[..n]);
      assert (t + u)[..|t + u| - 1] == t + u[..n];
    }
  }

  /**
   * The notification log holds every received notification, in arrival order,
   * and nothing else: updates, syncs and action requests never touch it.
   */
  lemma {:induction false} NotificationLogIsArrivalOrder(trace: seq<Callback>)
    ensures Run(Initial(), trace).notifications == NotificationsIn(trace)
    decreases |trace|
  {
    if trace != [] {
      NotificationLogIsArrivalOrder(trace[..|trace| - 1]);
    }
  }

  /** Nothing is ever removed from the log: later callbacks only extend it. */
  lemma NotificationLogOnlyGrows(t: seq<Callback>, u: seq<Callback>)
    ensures Run(Initial(), t).notifications <= Run(Initial(), t + u).notifications
  {
    NotificationLogIsArrivalOrder(t);
    NotificationLogIsArrivalOrder(t + u);
    NotificationsInAppend(t, u);
  }

  /**
   * Every action published to the twin was requested over HTTP with that key and
   * body and did not fail to publish, and its key was an action of the snapshot
   * current at the time of the request.
   */
  lemma {:induction false} ForwardedOnlyWhenRequestedAndAccepted(trace: seq<Callback>)
    ensures forall c | c in Run(Initial(), trace).forwarded ::
              exists i | 0 <= i < |trace| ::
                trace[i] == ActionRequest(c.actionKey, c.body, false)
                && ActionAccepted(Run(Initial(), trace[..i]).current, c.actionKey)
    decreases |trace|
  {
    if trace != [] {
      var n := |trace| - 1;
      var prefix := trace[..n];
      ForwardedOnlyWhenRequestedAndAccepted(prefix);
      forall c | c in Run(Initial(), trace).forwarded
        ensures exists i | 0 <= i < |trace| ::
                  trace[i] == ActionRequest(c.actionKey, c.body, false)
                  && ActionAccepted(Run(Initial(), trace[..i]).current, c.actionKey)
      {
        if c in Run(Initial(), prefix).forwarded {
          var i :| 0 <= i < |prefix| && prefix[i] == ActionRequest(c.actionKey, c.body, false)
                   && ActionAccepted(Run(Initial(), prefix[..i]).current, c.actionKey);
          assert prefix[..i] == trace[..i];
          assert trace[i] == prefix[i];
        } else {
          assert trace[..n] == prefix;
        }
      }
    }
  }
}
