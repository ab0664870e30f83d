/**
 * `HttpDigitalAdapterConfiguration`: the adapter id, the bind host and port, and
 * four whitelist filters (properties, actions, events, relationships). The
 * filters start empty and are only ever appended to; the adders reject a null
 * or empty argument by throwing `HttpDigitalAdapterConfigurationException`.
 */
module Configuration {
  import opened Wrappers
  import opened TwinState

  datatype FilterKind = PropertyFilter | ActionFilter | EventFilter | RelationshipFilter

  /** `HttpDigitalAdapterConfigurationException` and its message. */
  datatype ConfigurationException = ConfigurationException(message: string)

  const PROPERTY_KEY_ERROR := "Cannot use null or empty property key as filter"
  const PROPERTY_KEYS_ERROR := "Cannot use null or empty list of property key as filter"
  const ACTION_KEY_ERROR := "Cannot use null or empty action key as filter"
  const ACTION_KEYS_ERROR := "Cannot use null or empty list of action key as filter"
  const EVENT_KEY_ERROR := "Cannot use null or empty event key as filter"
  const EVENT_KEYS_ERROR := "Cannot use null or empty list of event key as filter"
  const RELATIONSHIP_NAME_ERROR := "Cannot use null or empty relationship name as filter"
  const RELATIONSHIP_NAMES_ERROR := "Cannot use null or empty list of relationship name as filter"

  /** A single key is refused when it is null (`None`) or the empty string. */
  predicate InvalidKey(key: Option<Key>) {
    key.None? || key.value == []
  }

  /** A collection is refused when it is null (`None`) or has no element. */
  predicate InvalidKeys(keys: Option<seq<Key>>) {
    keys.None? || keys.value == []
  }

  class HttpDigitalAdapterConfiguration {
    const id: string
    const host: string
    const port: int

    var propertyFilter: seq<Key>
    var actionFilter: seq<Key>
    var eventFilter: seq<Key>
    var relationshipFilter: seq<Key>

    /** The filter list of one kind. */
    function Filter(kind: FilterKind): seq<Key>
      reads this
    {
      match kind
      case PropertyFilter => propertyFilter
      case ActionFilter => actionFilter
      case EventFilter => eventFilter
      case RelationshipFilter => relationshipFilter
    }

    /** The filter of `kind` is its old value followed by `keys`; the other three are unchanged. */
    twostate predicate AppendedTo(kind: FilterKind, keys: seq<Key>)
      reads this
    {
      && Filter(kind) == old(Filter(kind)) + keys
      && forall other: FilterKind :: other != kind ==> Filter(other) == old(Filter(other))
    }

    /** Every filter's old contents are a prefix of its new contents. */
    twostate predicate FiltersOnlyGrow()
      reads this
    {
      forall kind: FilterKind :: old(Filter(kind)) <= Filter(kind)
    }

    constructor (id: string, host: string, port: int)
      ensures this.id == id && this.host == host && this.port == port
      ensures forall kind: FilterKind :: Filter(kind) == []
    {
      this.id := id;
      this.host := host;
      this.port := port;
      propertyFilter := [];
      actionFilter := [];
      eventFilter := [];
      relationshipFilter := [];
    }

    /**
     * `addFilter(actualFilter, filterKeys)`: `actualFilter.addAll(filterKeys)`,
     * in order, duplicates and empty strings included. The filter is chosen by
     * kind because Dafny cannot pass a field by reference.
     */
    method AddFilter(kind: FilterKind, filterKeys: seq<Key>)
      modifies this
      ensures AppendedTo(kind, filterKeys)
      ensures FiltersOnlyGrow()
    {
      match kind
      case PropertyFilter => propertyFilter := propertyFilter + filterKeys;
      case ActionFilter => actionFilter := actionFilter + filterKeys;
      case EventFilter => eventFilter := eventFilter + filterKeys;
      case RelationshipFilter => relationshipFilter := relationshipFilter + filterKeys;
    }

    /** The guard and append shared by the four single-key adders. */
    method AddKey(kind: FilterKind, key: Option<Key>, message: string) returns (r: Outcome<ConfigurationException>)
      modifies this
      ensures InvalidKey(key) ==> r == Fail(ConfigurationException(message)) && unchanged(this)
      ensures !InvalidKey(key) ==> r == Pass && AppendedTo(kind, [key.value])
      ensures FiltersOnlyGrow()
    {
      if key.None? || key.value == [] {
        return Fail(ConfigurationException(message));
      }
      AddFilter(kind, [key.value]);
      r := Pass;
    }

    /** The guard and append shared by the four collection adders. */
    method AddKeys(kind: FilterKind, keys: Option<seq<Key>>, message: string) returns (r: Outcome<ConfigurationException>)
      modifies this
      ensures InvalidKeys(keys) ==> r == Fail(ConfigurationException(message)) && unchanged(this)
      ensures !InvalidKeys(keys) ==> r == Pass && AppendedTo(kind, keys.value)
      ensures FiltersOnlyGrow()
    {
      if keys.None? || keys.value == [] {
        return Fail(ConfigurationException(message));
      }
      AddFilter(kind, keys.value);
      r := Pass;
    }

    method AddPropertyFilter(propertyKey: Option<Key>) returns (r: Outcome<ConfigurationException>)
      modifies this
      ensures InvalidKey(propertyKey) ==> r == Fail(ConfigurationException(PROPERTY_KEY_ERROR)) && unchanged(this)
      ensures !InvalidKey(propertyKey) ==> r == Pass && AppendedTo(PropertyFilter, [propertyKey.value])
      ensures FiltersOnlyGrow()
    {
      r := AddKey(PropertyFilter, propertyKey, PROPERTY_KEY_ERROR);
    }

    method AddPropertiesFilter(propertiesKey: Option<seq<Key>>) returns (r: Outcome<ConfigurationException>)
      modifies this
      ensures InvalidKeys(propertiesKey) ==> r == Fail(ConfigurationException(PROPERTY_KEYS_ERROR)) && unchanged(this)
      ensures !InvalidKeys(propertiesKey) ==> r == Pass && AppendedTo(PropertyFilter, propertiesKey.value)
      ensures FiltersOnlyGrow()
    {
      r := AddKeys(PropertyFilter, propertiesKey, PROPERTY_KEYS_ERROR);
    }

    method AddActionFilter(actionKey: Option<Key>) returns (r: Outcome<ConfigurationException>)
      modifies this
      ensures InvalidKey(actionKey) ==> r == Fail(ConfigurationException(ACTION_KEY_ERROR)) && unchanged(this)
      ensures !InvalidKey(actionKey) ==> r == Pass && AppendedTo(ActionFilter, [actionKey.value])
      ensures FiltersOnlyGrow()
    {
      r := AddKey(ActionFilter, actionKey, ACTION_KEY_ERROR);
    }

    method AddActionsFilter(actionsKey: Option<seq<Key>>) returns (r: Outcome<ConfigurationException>)
      modifies this
      ensures InvalidKeys(actionsKey) ==> r == Fail(ConfigurationException(ACTION_KEYS_ERROR)) && unchanged(this)
      ensures !InvalidKeys(actionsKey) ==> r == Pass && AppendedTo(ActionFilter, actionsKey.value)
      ensures FiltersOnlyGrow()
    {
      r := AddKeys(ActionFilter, actionsKey, ACTION_KEYS_ERROR);
    }

    method AddEventFilter(eventKey: Option<Key>) returns (r: Outcome<ConfigurationException>)
      modifies this
      ensures InvalidKey(eventKey) ==> r == Fail(ConfigurationException(EVENT_KEY_ERROR)) && unchanged(this)
      ensures !InvalidKey(eventKey) ==> r == Pass && AppendedTo(EventFilter, [eventKey.value])
      ensures FiltersOnlyGrow()
    {
      r := AddKey(EventFilter, eventKey, EVENT_KEY_ERROR);
    }

    method AddEventsFilter(eventsKey: Option<seq<Key>>) returns (r: Outcome<ConfigurationException>)
      modifies this
      ensures InvalidKeys(eventsKey) ==> r == Fail(ConfigurationException(EVENT_KEYS_ERROR)) && unchanged(this)
      ensures !InvalidKeys(eventsKey) ==> r == Pass && AppendedTo(EventFilter, eventsKey.value)
      ensures FiltersOnlyGrow()
    {
      r := AddKeys(EventFilter, eventsKey, EVENT_KEYS_ERROR);
    }

    method AddRelationshipFilter(relationshipName: Option<Key>) returns (r: Outcome<ConfigurationException>)
      modifies this
      ensures InvalidKey(relationshipName) ==> r == Fail(ConfigurationException(RELATIONSHIP_NAME_ERROR)) && unchanged(this)
      ensures !InvalidKey(relationshipName) ==> r == Pass && AppendedTo(RelationshipFilter, [relationshipName.value])
      ensures FiltersOnlyGrow()
    {
      r := AddKey(RelationshipFilter, relationshipName, RELATIONSHIP_NAME_ERROR);
    }

    method AddRelationshipsFilter(relationshipNames: Option<seq<Key>>) returns (r: Outcome<ConfigurationException>)
      modifies this
      ensures InvalidKeys(relationshipNames) ==> r == Fail(ConfigurationException(RELATIONSHIP_NAMES_ERROR)) && unchanged(this)
      ensures !InvalidKeys(relationshipNames) ==> r == Pass && AppendedTo(RelationshipFilter, relationshipNames.value)
      ensures FiltersOnlyGrow()
    {
      r := AddKeys(RelationshipFilter, relationshipNames, RELATIONSHIP_NAMES_ERROR);
    }

    /**
     * The getters return the stored values (for the lists, the list itself): each
     * filter getter reads back the filter its two adders append to.
     */
    function GetPropertyFilter(): (r: seq<Key>) reads this ensures r == Filter(PropertyFilter) { propertyFilter }
    function GetActionFilter(): (r: seq<Key>) reads this ensures r == Filter(ActionFilter) { actionFilter }
    function GetEventFilter(): (r: seq<Key>) reads this ensures r == Filter(EventFilter) { eventFilter }
    function GetRelationshipFilter(): (r: seq<Key>) reads this ensures r == Filter(RelationshipFilter) { relationshipFilter }
    function GetHost(): string { host }
    function GetPort(): int { port }
    function GetId(): string { id }
  }

  /**
   * A client: a fresh configuration with a property whitelist of ["temperature",
   * "humidity"] and an action key; a rejected empty key changes nothing, and the
   * other two filters stay empty ("include all").
   */
  method ConfigureExample() returns (config: HttpDigitalAdapterConfiguration)
    ensures config.GetId() == "http-da" && config.GetHost() == "localhost" && config.GetPort() == 3000
    ensures config.GetPropertyFilter() == ["temperature", "humidity"]
    ensures config.GetActionFilter() == ["switch"]
    ensures config.GetEventFilter() == [] && config.GetRelationshipFilter() == []
  {
    config := new HttpDigitalAdapterConfiguration("http-da", "localhost", 3000);
    var r := config.AddPropertiesFilter(Some(["temperature", "humidity"]));
    assert config.Filter(ActionFilter) == config.Filter(EventFilter) == config.Filter(RelationshipFilter) == [];
    r := config.AddActionFilter(Some(""));
    assert r.Fail?;
    r := config.AddActionFilter(Some("switch"));
    assert config.Filter(PropertyFilter) == ["temperature", "humidity"];
    assert config.Filter(EventFilter) == config.Filter(RelationshipFilter) == [];
  }
}
