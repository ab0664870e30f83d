/**
 * `HttpDigitalAdapter`: the adapter object the twin engine calls back and the
 * HTTP handlers read. Its fields are the snapshot cache and the notification
 * log; two ghost fields record the calls it makes into the twin, and a third
 * records the callbacks it has received, so that `Valid()` can tie the fields
 * to `Gateway.Run` and the readers can promise what the trace lemmas prove.
 */
module DigitalAdapter {
  import opened Wrappers
  import opened TwinState
  import opened Gateway
  import Configuration

  class HttpDigitalAdapter {
    const id: string
    const configuration: Configuration.HttpDigitalAdapterConfiguration
    const digitalTwinInstance: TwinDescription

    var updatedDigitalTwinState: Option<DigitalTwinState>
    var previousDigitalTwinState: Option<DigitalTwinState>
    var latestDigitalTwinStateChangeList: Option<seq<StateChange>>
    var eventNotificationList: seq<EventNotification>

    /** The `publishDigitalActionWldtEvent` calls made so far. */
    ghost var forwardedActions: seq<ActionCall>
    /** The `observeDigitalTwinEventsNotifications` calls made so far. */
    ghost var observedEventKeys: seq<set<Key>>
    /** Every state-changing callback received so far, in order. */
    ghost var callbacks: seq<Callback>

    ghost function Model(): GatewayState
      reads this
    {
      GatewayState(updatedDigitalTwinState, previousDigitalTwinState, latestDigitalTwinStateChangeList,
                   eventNotificationList, forwardedActions, observedEventKeys)
    }

    /** The fields are what the received callbacks produce from the empty state. */
    ghost predicate Valid()
      reads this
    {
      Model() == Run(Initial(), callbacks)
    }

    constructor (configuration: Configuration.HttpDigitalAdapterConfiguration, digitalTwinInstance: TwinDescription)
      ensures Valid() && callbacks == []
      ensures id == configuration.id && this.configuration == configuration
      ensures this.digitalTwinInstance == digitalTwinInstance
      ensures Model() == Initial()
    {
      id := configuration.id;
      this.configuration := configuration;
      this.digitalTwinInstance := digitalTwinInstance;
      updatedDigitalTwinState := None;
      previousDigitalTwinState := None;
      latestDigitalTwinStateChangeList := None;
      eventNotificationList := [];
      forwardedActions := [];
      observedEventKeys := [];
      callbacks := [];
    }

    /** Record `cb` as received; the fields have already been updated to match it. */
    ghost method Record(cb: Callback)
      requires Model() == Step(Run(Initial(), callbacks), cb)
      modifies this`callbacks
      ensures callbacks == old(callbacks) + [cb]
      ensures Valid()
    {
      RunAppend(Initial(), callbacks, cb);
      callbacks := callbacks + [cb];
    }

    /**
     * `onStateUpdate(new, previous, changes)`: the three snapshot fields become
     * exactly the three arguments; the previous state is the one the engine
     * passes, whatever the adapter held before.
     */
    method OnStateUpdate(newDigitalTwinState: Option<DigitalTwinState>, previousState: Option<DigitalTwinState>,
                         digitalTwinStateChangeList: Option<seq<StateChange>>)
      requires Valid()
      modifies this
      ensures Valid()
      ensures updatedDigitalTwinState == newDigitalTwinState
      ensures previousDigitalTwinState == previousState
      ensures latestDigitalTwinStateChangeList == digitalTwinStateChangeList
      ensures eventNotificationList == old(eventNotificationList)
      ensures forwardedActions == old(forwardedActions) && observedEventKeys == old(observedEventKeys)
      ensures callbacks == old(callbacks) + [StateUpdate(newDigitalTwinState, previousState, digitalTwinStateChangeList)]
    {
      updatedDigitalTwinState := newDigitalTwinState;
      previousDigitalTwinState := previousState;
      latestDigitalTwinStateChangeList := digitalTwinStateChangeList;
      Record(StateUpdate(newDigitalTwinState, previousState, digitalTwinStateChangeList));
    }

    /** `onEventNotificationReceived(x)`: x goes at the end of the log; nothing else changes. */
    method OnEventNotificationReceived(notification: EventNotification)
      requires Valid()
      modifies this
      ensures Valid()
      ensures eventNotificationList == old(eventNotificationList) + [notification]
      ensures updatedDigitalTwinState == old(updatedDigitalTwinState)
      ensures previousDigitalTwinState == old(previousDigitalTwinState)
      ensures latestDigitalTwinStateChangeList == old(latestDigitalTwinStateChangeList)
      ensures forwardedActions == old(forwardedActions) && observedEventKeys == old(observedEventKeys)
      ensures callbacks == old(callbacks) + [NotificationReceived(notification)]
    {
      eventNotificationList := eventNotificationList + [notification];
      Record(NotificationReceived(notification));
    }

    /**
     * `onDigitalTwinSync(state)`: a non-null state replaces only the current
     * snapshot, and the adapter asks to observe the state's events when it has an
     * event list; a null state is ignored.
     */
    method OnDigitalTwinSync(currentDigitalTwinState: Option<DigitalTwinState>)
      requires Valid()
      modifies this
      ensures Valid()
      ensures currentDigitalTwinState.Some? ==> updatedDigitalTwinState == currentDigitalTwinState
      ensures currentDigitalTwinState.None? ==> updatedDigitalTwinState == old(updatedDigitalTwinState)
      ensures observedEventKeys ==
                old(observedEventKeys) +
                (if currentDigitalTwinState.Some? then ObservedBySync(currentDigitalTwinState.value) else [])
      ensures previousDigitalTwinState == old(previousDigitalTwinState)
      ensures latestDigitalTwinStateChangeList == old(latestDigitalTwinStateChangeList)
      ensures eventNotificationList == old(eventNotificationList)
      ensures forwardedActions == old(forwardedActions)
      ensures callbacks == old(callbacks) + [TwinSync(currentDigitalTwinState)]
    {
      if currentDigitalTwinState.Some? {
        var state := currentDigitalTwinState.value;
        updatedDigitalTwinState := currentDigitalTwinState;
        if state.events.Some? {
          observedEventKeys := observedEventKeys + [state.EventKeys()];
        }
      }
      Record(TwinSync(currentDigitalTwinState));
    }

    /**
     * `onStateGet()`: the current snapshot, which is the one installed by the
     * last update or non-null sync, and absent before any.
     */
    method OnStateGet() returns (r: Option<DigitalTwinState>)
      requires Valid()
      ensures r == updatedDigitalTwinState
      ensures (forall j | 0 <= j < |callbacks| :: !Publishes(callbacks[j])) ==> r == None
      ensures forall i: nat | IsLastPublish(callbacks, i) :: r == PublishedState(callbacks[i])
    {
      r := updatedDigitalTwinState;
      if forall j | 0 <= j < |callbacks| :: !Publishes(callbacks[j]) {
        CurrentAbsentBeforePublish(callbacks);
      }
      forall i: nat | IsLastPublish(callbacks, i) ensures r == PublishedState(callbacks[i]) {
        CurrentIsLastPublished(callbacks, i);
      }
    }

    /**
     * `onPreviousStateGet()`: the previous state supplied with the last update,
     * absent before any update.
     */
    method OnPreviousStateGet() returns (r: Option<DigitalTwinState>)
      requires Valid()
      ensures r == previousDigitalTwinState
      ensures (forall j | 0 <= j < |callbacks| :: !callbacks[j].StateUpdate?) ==> r == None
      ensures forall i: nat | IsLastUpdate(callbacks, i) :: r == callbacks[i].previousState
    {
      r := previousDigitalTwinState;
      if forall j | 0 <= j < |callbacks| :: !callbacks[j].StateUpdate? {
        PreviousAndChangesAbsentBeforeUpdate(callbacks);
      }
      forall i: nat | IsLastUpdate(callbacks, i) ensures r == callbacks[i].previousState {
        PreviousAndChangesAreLastSupplied(callbacks, i);
      }
    }

    /**
     * `onStateChangesListGet()`: the change list supplied with the last update,
     * absent before any update.
     */
    method OnStateChangesListGet() returns (r: Option<seq<StateChange>>)
      requires Valid()
      ensures r == latestDigitalTwinStateChangeList
      ensures (forall j | 0 <= j < |callbacks| :: !callbacks[j].StateUpdate?) ==> r == None
      ensures forall i: nat | IsLastUpdate(callbacks, i) :: r == callbacks[i].changeList
    {
      r := latestDigitalTwinStateChangeList;
      if forall j | 0 <= j < |callbacks| :: !callbacks[j].StateUpdate? {
        PreviousAndChangesAbsentBeforeUpdate(callbacks);
      }
      forall i: nat | IsLastUpdate(callbacks, i) ensures r == callbacks[i].changeList {
        PreviousAndChangesAreLastSupplied(callbacks, i);
      }
    }

    method OnPropertyGet(propertyKey: Key) returns (r: Option<Property>)
      ensures r == PropertyGet(updatedDigitalTwinState, propertyKey)
    {
      if updatedDigitalTwinState.None? {
        return None;
      }
      r := Lookup(updatedDigitalTwinState.value.properties, propertyKey);
    }

    method OnActionGet(actionKey: Key) returns (r: Option<Action>)
      ensures r == ActionGet(updatedDigitalTwinState, actionKey)
    {
      if updatedDigitalTwinState.None? {
        return None;
      }
      r := Lookup(updatedDigitalTwinState.value.actions, actionKey);
    }

    method OnEventGet(eventKey: Key) returns (r: Option<Event>)
      ensures r == EventGet(updatedDigitalTwinState, eventKey)
    {
      if updatedDigitalTwinState.None? {
        return None;
      }
      r := Lookup(updatedDigitalTwinState.value.events, eventKey);
    }

    method OnRelationshipGet(relationshipName: Key) returns (r: Option<Relationship>)
      ensures r == RelationshipGet(updatedDigitalTwinState, relationshipName)
    {
      if updatedDigitalTwinState.None? {
        return None;
      }
      r := Lookup(updatedDigitalTwinState.value.relationships, relationshipName);
    }

    method OnPropertiesGet() returns (r: set<Property>)
      ensures r == PropertiesGet(updatedDigitalTwinState)
    {
      if updatedDigitalTwinState.Some? && updatedDigitalTwinState.value.properties.Some? {
        r := updatedDigitalTwinState.value.properties.value.Values;
      } else {
        r := {};
      }
    }

    method OnActionsGet() returns (r: set<Action>)
      ensures r == ActionsGet(updatedDigitalTwinState)
    {
      if updatedDigitalTwinState.Some? && updatedDigitalTwinState.value.actions.Some? {
        r := updatedDigitalTwinState.value.actions.value.Values;
      } else {
        r := {};
      }
    }

    method OnEventsGet() returns (r: set<Event>)
      ensures r == EventsGet(updatedDigitalTwinState)
    {
      if updatedDigitalTwinState.Some? && updatedDigitalTwinState.value.events.Some? {
        r := updatedDigitalTwinState.value.events.value.Values;
      } else {
        r := {};
      }
    }

    method OnRelationshipsGet() returns (r: set<Relationship>)
      ensures r == RelationshipsGet(updatedDigitalTwinState)
    {
      if updatedDigitalTwinState.Some? && updatedDigitalTwinState.value.relationships.Some? {
        r := updatedDigitalTwinState.value.relationships.value.Values;
      } else {
        r := {};
      }
    }

    method OnReadProperty(propertyKey: Key) returns (r: Option<string>)
      ensures r == ReadProperty(updatedDigitalTwinState, propertyKey)
    {
      if updatedDigitalTwinState.Some? {
        var property := Lookup(updatedDigitalTwinState.value.properties, propertyKey);
        if property.Some? {
          match property.value.value
          case Value(text) => return Some(text);
          case Null => return None;  // getValue().toString() throws; the exception maps to empty
        }
      }
      r := None;
    }

    /** `onEventNotificationGet()`: every notification received, in arrival order. */
    method OnEventNotificationGet() returns (r: seq<EventNotification>)
      requires Valid()
      ensures r == eventNotificationList
      ensures r == NotificationsIn(callbacks)
    {
      r := eventNotificationList;
      NotificationLogIsArrivalOrder(callbacks);
    }

    method OnRelationshipInstancesGet(relationshipName: Key) returns (r: Option<seq<RelationshipInstance>>)
      ensures r == RelationshipInstancesGet(updatedDigitalTwinState, relationshipName)
    {
      if updatedDigitalTwinState.Some? {
        var relationship := Lookup(updatedDigitalTwinState.value.relationships, relationshipName);
        if relationship.Some? {
          return relationship.value.instances;
        }
      }
      r := None;
    }

    /**
     * `onActionRequest(key, body)`: 400 and nothing forwarded unless a current
     * state exists and contains the action; otherwise the action is published
     * once and the answer is 202, or 400 when publishing throws
     * (`publishFails`). The snapshots and the log never change.
     */
    method OnActionRequest(actionKey: Key, bodyRequest: string, publishFails: bool) returns (status: int)
      requires Valid()
      modifies this
      ensures Valid()
      ensures status == ActionStatus(old(updatedDigitalTwinState), actionKey, publishFails)
      ensures status == 202 ==> forwardedActions == old(forwardedActions) + [ActionCall(actionKey, bodyRequest)]
      ensures status == 400 ==> forwardedActions == old(forwardedActions)
      ensures Model() == old(Model()).(forwarded := forwardedActions)
      ensures callbacks == old(callbacks) + [ActionRequest(actionKey, bodyRequest, publishFails)]
    {
      if updatedDigitalTwinState.None? || !updatedDigitalTwinState.value.ContainsAction(actionKey) {
        status := 400;
      } else if publishFails {
        status := 400;
      } else {
        forwardedActions := forwardedActions + [ActionCall(actionKey, bodyRequest)];
        status := 202;
      }
      Record(ActionRequest(actionKey, bodyRequest, publishFails));
    }

    /** `onInstanceRequest()`: the twin instance given at construction. */
    method OnInstanceRequest() returns (r: TwinDescription)
      ensures r == digitalTwinInstance
    {
      r := digitalTwinInstance;
    }
  }
}
