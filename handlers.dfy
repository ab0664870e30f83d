/**
 * `HttpDigitalAdapterHandlersFactory`: the route table of the HTTP server and the
 * status, content type and body each handler chooses. A handler writes to the
 * exchange in the source; here it is a function from what its supplier returned
 * to a `Response`. JSON serialisation is not modelled: a JSON body carries the
 * value that would be serialised.
 */
module Handlers {
  import opened Wrappers
  import opened TwinState
  import opened Gateway

  const JSON_CONTENT_TYPE := "application/json"
  const TEXT_CONTENT_TYPE := "text/plain"
  const STATE_UNAVAILABLE_MESSAGE := "DigitalTwinState Supplier = Null ! Internal Server Error"
  const CHANGE_LIST_ERROR_MESSAGE := "Internal Server Error Building DT State Change List"
  /** Sent with the JSON content type, though it is not JSON (its key is unquoted). */
  const NOT_FOUND_BODY := "{error: \"not found\"}"
  const NOT_READABLE_MESSAGE := "Property not is readable"
  /** The status of an exchange whose handler never sets one. */
  const DEFAULT_STATUS := 200

  /** The values the handlers hand to the JSON serialiser. */
  datatype Payload =
    | InstanceObject(id: string, digitalizedPhysicalAssets: seq<string>,
                     physicalAdapters: seq<string>, digitalAdapters: seq<string>)
    | StateObject(evaluationInstantEpochMs: int, properties: set<Property>, actions: set<Action>,
                  events: set<Event>, relationships: set<Relationship>)
    | StateListsObject(properties: set<Property>, actions: set<Action>,
                       events: set<Event>, relationships: set<Relationship>)
    | ChangeListArray(changes: seq<StateChange>)
    | PropertyList(propertyItems: set<Property>)
    | ActionList(actionItems: set<Action>)
    | EventList(eventItems: set<Event>)
    | RelationshipList(relationshipItems: set<Relationship>)
    | NotificationList(notificationItems: seq<EventNotification>)
    | PropertyObject(property: Property)
    | ActionObject(action: Action)
    | EventObject(event: Event)
    | RelationshipObject(relationship: Relationship)
    | InstanceList(instanceItems: seq<RelationshipInstance>)

  datatype Body = NoBody | Text(text: string) | JsonBody(payload: Payload)

  datatype Response = Response(status: int, contentType: string, body: Body)

  // --------------------------------------------------------------- handlers

  /** `createGetDigitalTwinInstanceHandler`: the twin id and its adapters, as JSON. */
  function InstanceResponse(instance: TwinDescription): (r: Response)
    ensures r.status == DEFAULT_STATUS && r.contentType == JSON_CONTENT_TYPE
    ensures r.body.JsonBody? && r.body.payload.InstanceObject? && r.body.payload.id == instance.digitalTwinId
    ensures r.body.payload.physicalAdapters == instance.physicalAdapterIds
    ensures r.body.payload.digitalAdapters == instance.digitalAdapterIds
    ensures r.body.payload.digitalizedPhysicalAssets == instance.digitalizedPhysicalAssets
  {
    Response(DEFAULT_STATUS, JSON_CONTENT_TYPE,
             JsonBody(InstanceObject(instance.digitalTwinId, instance.digitalizedPhysicalAssets,
                                     instance.physicalAdapterIds, instance.digitalAdapterIds)))
  }

  /**
   * `createGetDigitalTwinStateHandler(Supplier<Optional<DigitalTwinState>>)`:
   * 500 with a fixed plain-text message exactly when there is no state; otherwise
   * a JSON object with the evaluation instant and the four component lists, each
   * absent list sent as an empty one (the same lists the list endpoints give).
   */
  function StateResponse(state: Option<DigitalTwinState>): (r: Response)
    ensures r.status == 500 <==> state.None?
    ensures state.None? ==> r.contentType == TEXT_CONTENT_TYPE && r.body == Text(STATE_UNAVAILABLE_MESSAGE)
    ensures state.Some? ==>
              && r.status == DEFAULT_STATUS && r.contentType == JSON_CONTENT_TYPE
              && r.body == JsonBody(StateObject(state.value.evaluationInstant, PropertiesGet(state), ActionsGet(state),
                                                EventsGet(state), RelationshipsGet(state)))
  {
    match state
    case None => Response(500, TEXT_CONTENT_TYPE, Text(STATE_UNAVAILABLE_MESSAGE))
    case Some(s) =>
      Response(DEFAULT_STATUS, JSON_CONTENT_TYPE,
               JsonBody(StateObject(s.evaluationInstant, ListOrEmpty(s.properties), ListOrEmpty(s.actions),
                                    ListOrEmpty(s.events), ListOrEmpty(s.relationships))))
  }

  /**
   * The four-supplier `createGetDigitalTwinStateHandler` overload of the root
   * package: never an error status, always all four lists.
   */
  function StateListsResponse(properties: set<Property>, actions: set<Action>, events: set<Event>,
                              relationships: set<Relationship>): (r: Response)
    ensures r.status == DEFAULT_STATUS && r.contentType == JSON_CONTENT_TYPE
    ensures r.body.JsonBody? && r.body.payload.StateListsObject?
    ensures r.body.payload.properties == properties && r.body.payload.actions == actions
    ensures r.body.payload.events == events && r.body.payload.relationships == relationships
  {
    Response(DEFAULT_STATUS, JSON_CONTENT_TYPE, JsonBody(StateListsObject(properties, actions, events, relationships)))
  }

  /**
   * `createGetDigitalTwinStateChangeListHandler`: 500 with plain text when the
   * list is absent or serialising it throws (`toJsonThrows`), each with its own
   * message; otherwise the list as JSON.
   */
  function ChangeListResponse(changes: Option<seq<StateChange>>, toJsonThrows: bool): (r: Response)
    ensures r.status == 500 <==> changes.None? || toJsonThrows
    ensures r.status == 500 ==> r.contentType == TEXT_CONTENT_TYPE
    ensures changes.None? ==> r.body == Text(STATE_UNAVAILABLE_MESSAGE)
    ensures changes.Some? && toJsonThrows ==> r.body == Text(CHANGE_LIST_ERROR_MESSAGE)
    ensures changes.Some? && !toJsonThrows ==>
              r.status == DEFAULT_STATUS && r.contentType == JSON_CONTENT_TYPE && r.body == JsonBody(ChangeListArray(changes.value))
  {
    if changes.None? then Response(500, TEXT_CONTENT_TYPE, Text(STATE_UNAVAILABLE_MESSAGE))
    else if toJsonThrows then Response(500, TEXT_CONTENT_TYPE, Text(CHANGE_LIST_ERROR_MESSAGE))
    else Response(DEFAULT_STATUS, JSON_CONTENT_TYPE, JsonBody(ChangeListArray(changes.value)))
  }

  /** `createGetComponentsListHandler`: whatever the supplier gives, as JSON; no status is set. */
  function ComponentsListResponse(components: Payload): (r: Response)
    ensures r.status == DEFAULT_STATUS && r.contentType == JSON_CONTENT_TYPE
    ensures r.body.JsonBody? && r.body.payload == components
  {
    Response(DEFAULT_STATUS, JSON_CONTENT_TYPE, JsonBody(components))
  }

  /**
   * `createGetComponentHandler`: the component as JSON, or the literal not-found
   * text exactly when the producer gives nothing; never an error status.
   */
  function ComponentResponse(component: Option<Payload>): (r: Response)
    ensures r.status == DEFAULT_STATUS && r.contentType == JSON_CONTENT_TYPE
    ensures r.body == Text(NOT_FOUND_BODY) <==> component.None?
    ensures component.Some? ==> r.body == JsonBody(component.value)
  {
    match component
    case Some(c) => Response(DEFAULT_STATUS, JSON_CONTENT_TYPE, JsonBody(c))
    case None => Response(DEFAULT_STATUS, JSON_CONTENT_TYPE, Text(NOT_FOUND_BODY))
  }

  /**
   * `createReadPropertyValueHandler`: always plain text and no status of its
   * own; the value verbatim, or the fixed "not readable" text.
   */
  function ReadPropertyValueResponse(propertyValue: Option<string>): (r: Response)
    ensures r.status == DEFAULT_STATUS && r.contentType == TEXT_CONTENT_TYPE
    ensures propertyValue.Some? ==> r.body == Text(propertyValue.value)
    ensures propertyValue.None? ==> r.body == Text(NOT_READABLE_MESSAGE)
  {
    Response(DEFAULT_STATUS, TEXT_CONTENT_TYPE,
             Text(if propertyValue.Some? then propertyValue.value else NOT_READABLE_MESSAGE))
  }

  /**
   * `createInvokeActionHandler`: the status is what the action function returned
   * for (path key, request body), passed through verbatim; JSON content type, no body.
   */
  function InvokeActionResponse(actionStatus: int): (r: Response)
    ensures r.status == actionStatus && r.contentType == JSON_CONTENT_TYPE && r.body == NoBody
  {
    Response(actionStatus, JSON_CONTENT_TYPE, NoBody)
  }

  // ------------------------------------------------------------ route table

  datatype HttpMethod = GET | POST

  datatype StateSource = CurrentState | PreviousState

  datatype ListSource = Properties | Actions | Events | EventNotifications | Relationships

  datatype ItemSource = PropertyItem | ActionItem | EventItem | RelationshipItem | RelationshipInstances

  /** Which factory method built the handler, and which listener method feeds it. */
  datatype Handler =
    | InstanceHandler
    | StateHandler(state: StateSource)
    | StateChangeListHandler
    | ComponentsListHandler(list: ListSource)
    | ComponentHandler(item: ItemSource)
    | ReadPropertyValueHandler
    | InvokeActionHandler

  /**
   * The path templates the routing handler registers; `{key}` is a path
   * parameter. `UnregisteredPath` stands for every path that matches none of them.
   */
  datatype PathTemplate =
    | InstancePath | StatePath | PreviousStatePath | StateChangesPath
    | PropertiesPath | PropertyPath | PropertyValuePath
    | ActionsPath | ActionPath
    | EventsPath | EventPath | EventNotificationsPath
    | RelationshipsPath | RelationshipPath | RelationshipInstancesPath
    | UnregisteredPath
  {
    function Text(): string
      requires !UnregisteredPath?
    {
      match this
      case InstancePath => "/instance"
      case StatePath => "/state"
      case PreviousStatePath => "/state/previous"
      case StateChangesPath => "/state/changes"
      case PropertiesPath => "/state/properties"
      case PropertyPath => "/state/properties/{key}"
      case PropertyValuePath => "/state/properties/{key}/value"
      case ActionsPath => "/state/actions"
      case ActionPath => "/state/actions/{key}"
      case EventsPath => "/state/events"
      case EventPath => "/state/events/{key}"
      case EventNotificationsPath => "/state/events/notifications"
      case RelationshipsPath => "/state/relationships"
      case RelationshipPath => "/state/relationships/{key}"
      case RelationshipInstancesPath => "/state/relationships/{key}/instances"
    }
  }

  datatype Route = Route(verb: HttpMethod, pattern: PathTemplate, handler: Handler)

  /** The routes `createDefaultRoutingHandler` registers, in order. */
  function DefaultRoutingTable(): seq<Route> {
    [ Route(GET, InstancePath, InstanceHandler),
      Route(GET, StatePath, StateHandler(CurrentState)),
      Route(GET, PreviousStatePath, StateHandler(PreviousState)),
      Route(GET, StateChangesPath, StateChangeListHandler),
      Route(GET, PropertiesPath, ComponentsListHandler(Properties)),
      Route(GET, PropertyPath, ComponentHandler(PropertyItem)),
      Route(GET, PropertyValuePath, ReadPropertyValueHandler),
      Route(GET, ActionsPath, ComponentsListHandler(Actions)),
      Route(GET, ActionPath, ComponentHandler(ActionItem)),
      Route(POST, ActionPath, InvokeActionHandler),
      Route(GET, EventsPath, ComponentsListHandler(Events)),
      Route(GET, EventPath, ComponentHandler(EventItem)),
      Route(GET, EventNotificationsPath, ComponentsListHandler(EventNotifications)),
      Route(GET, RelationshipsPath, ComponentsListHandler(Relationships)),
      Route(GET, RelationshipPath, ComponentHandler(RelationshipItem)),
      Route(GET, RelationshipInstancesPath, ComponentHandler(RelationshipInstances)) ]
  }

  /** Where a request goes: a registered handler, or the fallback error page handler. */
  datatype Dispatch = Handled(handler: Handler) | Fallback

  predicate Matches(route: Route, verb: HttpMethod, pattern: PathTemplate) {
    route.verb == verb && route.pattern == pattern
  }

  /**
   * The index of the first route registered for (verb, pattern), or `|table|`
   * when there is none.
   */
  function FirstMatch(table: seq<Route>, verb: HttpMethod, pattern: PathTemplate): (i: nat)
    ensures i <= |table|
    ensures i < |table| ==> Matches(table[i], verb, pattern)
    ensures forall j | 0 <= j < i :: !Matches(table[j], verb, pattern)
    decreases |table|
  {
    if table == [] || Matches(table[0], verb, pattern) then 0
    else
      var i := FirstMatch(table[1..], verb, pattern);
      assert forall j | 1 <= j < i + 1 :: table[j] == table[1..][j - 1];
      i + 1
  }

  /**
   * The handler of the route registered for (verb, pattern), or the fallback
   * when none is. Matching a concrete path against the `{key}` templates is the
   * server library's and is not modelled.
   */
  function FindRoute(table: seq<Route>, verb: HttpMethod, pattern: PathTemplate): (r: Dispatch)
    ensures r.Handled? ==> Route(verb, pattern, r.handler) in table
    ensures r.Fallback? <==> forall j | 0 <= j < |table| :: !Matches(table[j], verb, pattern)
  {
    var i := FirstMatch(table, verb, pattern);
    if i < |table| then Handled(table[i].handler) else Fallback
  }

  /** No two routes of a table share both method and pattern. */
  ghost predicate DistinctRoutes(table: seq<Route>) {
    forall i, j | 0 <= i < j < |table| :: !Matches(table[j], table[i].verb, table[i].pattern)
  }

  /**
   * The default table has sixteen routes, no two with the same method and
   * pattern; `/state/actions/{key}` is registered for both GET (describe the
   * action) and POST (invoke it).
   */
  lemma DefaultRoutingTableIsDistinct()
    ensures |DefaultRoutingTable()| == 16
    ensures DistinctRoutes(DefaultRoutingTable())
    ensures Route(GET, ActionPath, ComponentHandler(ActionItem)) in DefaultRoutingTable()
    ensures Route(POST, ActionPath, InvokeActionHandler) in DefaultRoutingTable()
  {
    var t := DefaultRoutingTable();
    assert t[8] == Route(GET, ActionPath, ComponentHandler(ActionItem));
    assert t[9] == Route(POST, ActionPath, InvokeActionHandler);
  }

  /** In a table without duplicates, every registered route reaches its own handler. */
  lemma DistinctTableDispatchesEachRoute(table: seq<Route>, i: nat)
    requires DistinctRoutes(table) && i < |table|
    ensures FirstMatch(table, table[i].verb, table[i].pattern) == i
    ensures FindRoute(table, table[i].verb, table[i].pattern) == Handled(table[i].handler)
  {
    var k := FirstMatch(table, table[i].verb, table[i].pattern);
    assert !(k < i);
  }

  /** Every route of the default table reaches the handler registered for it. */
  lemma DefaultRouteDispatches(routes: seq<Route>, i: nat)
    requires routes == DefaultRoutingTable() && i < |routes|
    ensures FindRoute(routes, routes[i].verb, routes[i].pattern) == Handled(routes[i].handler)
  {
    DefaultRoutingTableIsDistinct();
    DistinctTableDispatchesEachRoute(routes, i);
  }

  // ------------------------------------------- routes wired to the gateway

  /** The payload a single-component producer gives, if any. */
  function ComponentOf(current: Option<DigitalTwinState>, item: ItemSource, key: Key): Option<Payload> {
    match item
    case PropertyItem =>
      (match PropertyGet(current, key) case Some(p) => Some(PropertyObject(p)) case None => None)
    case ActionItem =>
      (match ActionGet(current, key) case Some(a) => Some(ActionObject(a)) case None => None)
    case EventItem =>
      (match EventGet(current, key) case Some(e) => Some(EventObject(e)) case None => None)
    case RelationshipItem =>
      (match RelationshipGet(current, key) case Some(rel) => Some(RelationshipObject(rel)) case None => None)
    case RelationshipInstances =>
      (match RelationshipInstancesGet(current, key) case Some(l) => Some(InstanceList(l)) case None => None)
  }

  /** The payload a list supplier gives. */
  function ListOf(g: GatewayState, list: ListSource): Payload {
    match list
    case Properties => PropertyList(PropertiesGet(g.current))
    case Actions => ActionList(ActionsGet(g.current))
    case Events => EventList(EventsGet(g.current))
    case EventNotifications => NotificationList(g.notifications)
    case Relationships => RelationshipList(RelationshipsGet(g.current))
  }

  /** An HTTP request: its method, the route pattern it matched, the `{key}` path value and the body. */
  datatype Request = Request(verb: HttpMethod, pattern: PathTemplate, key: Key, body: string)

  datatype Served = Answered(response: Response) | FallbackErrorPage

  /**
   * One handler run against the adapter of `g`, with the listener methods that
   * `createDefaultRoutingHandler` wires to it. Only the action handler changes the
   * gateway state. `publishFails` and `toJsonThrows` say whether the twin's event
   * bus or the serialiser throws during this request.
   */
  function Respond(g: GatewayState, instance: TwinDescription, handler: Handler, key: Key, body: string,
                   publishFails: bool, toJsonThrows: bool): (GatewayState, Response)
  {
    match handler
    case InstanceHandler => (g, InstanceResponse(instance))
    case StateHandler(source) => (g, StateResponse(if source == CurrentState then g.current else g.previous))
    case StateChangeListHandler => (g, ChangeListResponse(g.changes, toJsonThrows))
    case ComponentsListHandler(list) => (g, ComponentsListResponse(ListOf(g, list)))
    case ComponentHandler(item) => (g, ComponentResponse(ComponentOf(g.current, item, key)))
    case ReadPropertyValueHandler => (g, ReadPropertyValueResponse(ReadProperty(g.current, key)))
    case InvokeActionHandler =>
      (Step(g, ActionRequest(key, body, publishFails)), InvokeActionResponse(ActionStatus(g.current, key, publishFails)))
  }

  /** A request through the routing handler built from `routes`, the error page handler as fallback. */
  function Serve(routes: seq<Route>, g: GatewayState, instance: TwinDescription, request: Request,
                 publishFails: bool, toJsonThrows: bool): (GatewayState, Served)
  {
    match FindRoute(routes, request.verb, request.pattern)
    case Fallback => (g, FallbackErrorPage)
    case Handled(h) =>
      var handled := Respond(g, instance, h, request.key, request.body, publishFails, toJsonThrows);
      (handled.0, Answered(handled.1))
  }

  /** A request for a registered route is answered by the handler registered for it. */
  lemma ServeRegisteredRoute(routes: seq<Route>, g: GatewayState, instance: TwinDescription, request: Request,
                             handler: Handler, publishFails: bool, toJsonThrows: bool, i: nat)
    requires routes == DefaultRoutingTable()
    requires i < |routes| && routes[i] == Route(request.verb, request.pattern, handler)
    ensures var handled := Respond(g, instance, handler, request.key, request.body, publishFails, toJsonThrows);
            Serve(routes, g, instance, request, publishFails, toJsonThrows) == (handled.0, Answered(handled.1))
  {
    DefaultRouteDispatches(routes, i);
  }

  /** The only POST route of the default table is the action route. */
  lemma DefaultPostRoutes(routes: seq<Route>)
    requires routes == DefaultRoutingTable()
    ensures forall j | 0 <= j < |routes| :: routes[j].verb == POST ==> routes[j].pattern == ActionPath
  {
  }

  /**
   * POST is registered for `/state/actions/{key}` only: any other POST goes to
   * the fallback error page handler.
   */
  lemma OnlyActionsAcceptPost(routes: seq<Route>, pattern: PathTemplate)
    requires routes == DefaultRoutingTable()
    ensures FindRoute(routes, POST, pattern) == if pattern == ActionPath then Handled(InvokeActionHandler) else Fallback
  {
    if pattern == ActionPath {
      DefaultRouteDispatches(routes, 9);
    } else {
      DefaultPostRoutes(routes);
    }
  }

  /** Every handler except the action handler only reads the gateway state. */
  lemma OnlyInvokeActionChangesState(g: GatewayState, instance: TwinDescription, handler: Handler, key: Key, body: string,
                                     publishFails: bool, toJsonThrows: bool)
    ensures Respond(g, instance, handler, key, body, publishFails, toJsonThrows).0 == g
            <==> handler != InvokeActionHandler || Step(g, ActionRequest(key, body, publishFails)) == g
  {
  }

  /** Every GET route of the default table is wired to a handler that only reads. */
  lemma DefaultGetRoutes(routes: seq<Route>)
    requires routes == DefaultRoutingTable()
    ensures forall j | 0 <= j < |routes| :: routes[j].verb == GET ==> routes[j].handler != InvokeActionHandler
  {
  }

  /** No route of the default table is registered for a path outside the sixteen templates. */
  lemma DefaultRoutesAreRegisteredPaths(routes: seq<Route>)
    requires routes == DefaultRoutingTable()
    ensures forall j | 0 <= j < |routes| :: routes[j].pattern != UnregisteredPath
  {
  }

  /** A request for any other path, GET or POST, goes to the fallback error page handler. */
  lemma UnregisteredPathFallsBack(routes: seq<Route>, g: GatewayState, instance: TwinDescription, request: Request,
                                  publishFails: bool, toJsonThrows: bool)
    requires routes == DefaultRoutingTable()
    requires request.pattern == UnregisteredPath
    ensures FindRoute(routes, request.verb, request.pattern) == Fallback
    ensures Serve(routes, g, instance, request, publishFails, toJsonThrows) == (g, FallbackErrorPage)
  {
    DefaultRoutesAreRegisteredPaths(routes);
  }

  /** Only a POST can change the gateway state; every GET leaves it as it was. */
  lemma GetRequestsChangeNothing(routes: seq<Route>, g: GatewayState, instance: TwinDescription, request: Request,
                                 publishFails: bool, toJsonThrows: bool)
    requires routes == DefaultRoutingTable()
    requires request.verb == GET
    ensures Serve(routes, g, instance, request, publishFails, toJsonThrows).0 == g
  {
    var i := FirstMatch(routes, request.verb, request.pattern);
    if i < |routes| {
      DefaultGetRoutes(routes);
      OnlyInvokeActionChangesState(g, instance, routes[i].handler, request.key, request.body, publishFails, toJsonThrows);
    }
  }

  /**
   * The invoke-action handler answers 202 and forwards (key, body) exactly once
   * when the current snapshot has the action and publishing succeeds, and
   * otherwise answers 400 and forwards nothing. The snapshots and the
   * notification log are untouched.
   */
  lemma InvokeActionForwardsOnceOrRejects(g: GatewayState, instance: TwinDescription, key: Key, body: string,
                                          publishFails: bool, toJsonThrows: bool)
    ensures var handled := Respond(g, instance, InvokeActionHandler, key, body, publishFails, toJsonThrows);
            && handled.1.body == NoBody
            && (handled.1.status == 202 <==> ActionAccepted(g.current, key) && !publishFails)
            && (handled.1.status == 202 || handled.1.status == 400)
            && handled.0 == g.(forwarded := g.forwarded + if handled.1.status == 202 then [ActionCall(key, body)] else [])
  {
  }

  /**
   * Before any state update or sync: the state, previous-state and change-list
   * handlers answer 500, while the property list is an empty JSON list, a single
   * property is "not found", its value is "not readable" and an action request
   * is refused with 400 and changes nothing.
   */
  lemma BeforeAnyUpdate(instance: TwinDescription, key: Key, body: string, publishFails: bool, toJsonThrows: bool)
    ensures Respond(Initial(), instance, StateHandler(CurrentState), key, body, publishFails, toJsonThrows).1.status == 500
    ensures Respond(Initial(), instance, StateHandler(PreviousState), key, body, publishFails, toJsonThrows).1.status == 500
    ensures Respond(Initial(), instance, StateChangeListHandler, key, body, publishFails, toJsonThrows).1.status == 500
    ensures Respond(Initial(), instance, ComponentsListHandler(Properties), key, body, publishFails, toJsonThrows).1
              == Response(DEFAULT_STATUS, JSON_CONTENT_TYPE, JsonBody(PropertyList({})))
    ensures Respond(Initial(), instance, ComponentHandler(PropertyItem), key, body, publishFails, toJsonThrows).1
              == Response(DEFAULT_STATUS, JSON_CONTENT_TYPE, Text(NOT_FOUND_BODY))
    ensures Respond(Initial(), instance, ReadPropertyValueHandler, key, body, publishFails, toJsonThrows).1
              == Response(DEFAULT_STATUS, TEXT_CONTENT_TYPE, Text(NOT_READABLE_MESSAGE))
    ensures Respond(Initial(), instance, InvokeActionHandler, key, body, publishFails, toJsonThrows)
              == (Initial(), Response(400, JSON_CONTENT_TYPE, NoBody))
  {
  }
}
