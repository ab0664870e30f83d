/**
 * The Digital Twin state as the adapter sees it. The state object belongs to the
 * twin engine; the adapter only looks components up by key and asks for the list
 * of each kind, so a snapshot is modelled as one optional map per component kind:
 * `None` stands for a list getter that reports "absent".
 */
module TwinState {
  import opened Wrappers

  type Key = string

  /** The value of a property as its `toString()` text; `Null` is a Java null. */
  datatype PropertyValue = Null | Value(text: string)

  datatype Property = Property(key: Key, propertyType: string, value: PropertyValue)

  datatype Action = Action(key: Key, actionType: string, contentType: string)

  datatype Event = Event(key: Key, eventType: string)

  datatype RelationshipInstance = RelationshipInstance(key: Key, targetId: string)

  /** `instances` is `None` when the relationship's instance list is null. */
  datatype Relationship = Relationship(name: Key, instances: Option<seq<RelationshipInstance>>)

  datatype ChangeOperation = Add | Update | Remove

  /** One entry of the change list that accompanies a state update. */
  datatype StateChange = StateChange(operation: ChangeOperation, resourceKey: Key)

  /** A firing of a registered event. */
  datatype EventNotification = EventNotification(eventKey: Key, body: string, timestamp: int)

  /** An immutable snapshot of the twin's state at one evaluation instant (epoch milliseconds). */
  datatype DigitalTwinState = DigitalTwinState(
    evaluationInstant: int,
    properties: Option<map<Key, Property>>,
    actions: Option<map<Key, Action>>,
    events: Option<map<Key, Event>>,
    relationships: Option<map<Key, Relationship>>)
  {
    /** `containsAction(key)` of the engine's state. */
    predicate ContainsAction(key: Key) {
      actions.Some? && key in actions.value
    }

    /** The keys of the events the state declares, as `onDigitalTwinSync` collects them. */
    function EventKeys(): set<Key>
      requires events.Some?
    {
      set e | e in events.value.Values :: e.key
    }
  }

  /** A keyed lookup such as `getProperty(key)`: absent when the map or the key is. */
  function Lookup<C>(components: Option<map<Key, C>>, key: Key): (r: Option<C>)
    ensures r.Some? <==> components.Some? && key in components.value
    ensures r.Some? ==> r.value == components.value[key]
  {
    if components.Some? && key in components.value then Some(components.value[key]) else None
  }

  /**
   * A list getter such as `getPropertyList()` followed by the adapter's
   * "present ? list : new ArrayList<>()": the components, or nothing.
   */
  function ListOrEmpty<C(!new)>(components: Option<map<Key, C>>): (r: set<C>)
    ensures components.None? ==> r == {}
    ensures forall c :: c in r <==> components.Some? && c in components.value.Values
  {
    if components.Some? then components.value.Values else {}
  }

  /** What the engine's identity for a twin instance reports (served by `/instance`). */
  datatype TwinDescription = TwinDescription(
    digitalTwinId: string,
    digitalizedPhysicalAssets: seq<string>,
    physicalAdapterIds: seq<string>,
    digitalAdapterIds: seq<string>)
}
