# HTTP digital adapter for WLDT: gateway state, filters and routes

The HTTP digital adapter sits between a WLDT digital twin and HTTP clients.
The twin engine calls the adapter back:

- with each new state snapshot (`onStateUpdate`, `onDigitalTwinSync`);
- with each event notification.

The adapter caches the latest snapshot, the previous snapshot the engine passed along, and the last change list. It also keeps every notification in arrival order. An Undertow routing handler exposes this cache over sixteen fixed routes. POST `/state/actions/{key}` forwards an action request to the twin when the current snapshot declares that action.

This project models three parts of the adapter:

- **The adapter object** (`DigitalAdapter.HttpDigitalAdapter`).
  - It is a class whose fields are the source's fields: three optional snapshots and a notification sequence.
  - Ghost fields record the calls it makes into the twin and every callback it has received.
  - Its invariant `Valid()` says that the fields are what `Gateway.Run` computes from that callback trace. So each reader method can promise what the trace lemmas of `Gateway` prove, for example "the previous snapshot is the argument of the last `onStateUpdate`".
- **The configuration** (`Configuration.HttpDigitalAdapterConfiguration`).
  - It holds an id, a host and a port, plus four whitelist filters that start empty and only grow.
  - The eight adders reject a null or empty argument with the source's message and change nothing in that case. Otherwise they append in order, keeping duplicates.
  - `ComponentFilter` holds the whitelist rule itself. It also holds the root-package `handleComponent`, the one place where the rule is applied.
- **The handler factory** (`Handlers`).
  - Each `create*Handler` is a function from what its supplier returned to a `Response(status, contentType, body)`.
  - `createDefaultRoutingHandler` is a sequence of sixteen routes. A lookup returns the route registered for a (method, path template) pair, or the fallback error page. A path that matches none of the templates is `UnregisteredPath`.
  - `Respond` and `Serve` wire each handler to the adapter reader it calls.

`Scenarios` drives the adapter class end to end:

- Temperature 21, then 23, with the previous snapshot still showing 21.
- Nothing published yet.
- Action requests before and after a sync.

The repository holds each piece twice. The current version lives under `adapter/` and `server/`; an older one lives in the root package. The two are the same code apart from three differences, and each piece is modelled once:

- The root adapter lacks `onStateGet`, `onPreviousStateGet` and `onStateChangesListGet`, although the root listener interface declares them (`src/main/java/it/wldt/adapter/http/digital/HttpDigitalAdapterRequestListener.java:12-16`).
- The root adapter adds the private, never-called `handleComponent` (`ComponentFilter.HandleComponent`).
- The root factory adds a four-supplier state handler (`Handlers.StateListsResponse`).

Java `null` and `Optional` become `Option`. A thrown configuration exception becomes `Outcome.Fail`. Snapshots are maps from key to component, and the list getters return the set of a map's values. Two boolean parameters stand for the collaborators that can throw:

- `publishFails`: publishing an action to the twin's event bus throws.
- `toJsonThrows`: serialising a change list throws.

## Model

| member | source | states |
|---|---|---|
| TwinState.Lookup | src/main/java/it/wldt/adapter/http/digital/adapter/HttpDigitalAdapter.java:277-289 | A component lookup is present exactly when the snapshot has that kind of list and the key is in it, and then it is the stored component. |
| TwinState.ListOrEmpty | src/main/java/it/wldt/adapter/http/digital/server/HttpDigitalAdapterHandlersFactory.java:146-149 | An absent component list reads as empty. Otherwise the result holds exactly the components stored in the snapshot. |
| ComponentFilter.Included | src/main/java/it/wldt/adapter/http/digital/HttpDigitalAdapter.java:107 | The whitelist test: the filter is empty or lists the key. `IncludedMeansListedOrUnrestricted`, `FilteredPut` and `HandleEachAddsExactlyIncluded` state what it admits. |
| ComponentFilter.IncludedMeansListedOrUnrestricted | src/main/java/it/wldt/adapter/http/digital/HttpDigitalAdapter.java:107 | An empty filter lets every key through; a non-empty filter lets through exactly the keys it lists. |
| ComponentFilter.FilteredPut | src/main/java/it/wldt/adapter/http/digital/HttpDigitalAdapter.java:103-110 | The component is stored under its key if and only if the key passes the filter. A key that fails leaves the map unchanged. The key set grows by that key alone, and every other entry keeps its value. |
| ComponentFilter.HandleComponent | src/main/java/it/wldt/adapter/http/digital/HttpDigitalAdapter.java:103-110 | The caller's map object is updated in place to `FilteredPut` of its old contents. |
| ComponentFilter.HandleEachAddsExactlyIncluded | src/main/java/it/wldt/adapter/http/digital/HttpDigitalAdapter.java:103-110 | After any sequence of `handleComponent` calls, the new keys are exactly the keys that passed the filter. Entries under other keys are unchanged. With a non-empty filter, every added key is listed in the filter. |
| Configuration.HttpDigitalAdapterConfiguration.constructor | src/main/java/it/wldt/adapter/http/digital/adapter/HttpDigitalAdapterConfiguration.java:66-74 | Id, host and port are the given ones, and all four filters start empty. |
| Configuration.HttpDigitalAdapterConfiguration.AddFilter | src/main/java/it/wldt/adapter/http/digital/adapter/HttpDigitalAdapterConfiguration.java:233-238 | The target filter becomes its old contents followed by the keys, in order and with duplicates. The other three filters are unchanged, and no filter loses a prefix. |
| Configuration.HttpDigitalAdapterConfiguration.AddKey | src/main/java/it/wldt/adapter/http/digital/adapter/HttpDigitalAdapterConfiguration.java:82-85 | A null or empty key fails with the given message and changes nothing. Any other key is appended to exactly the target filter. |
| Configuration.HttpDigitalAdapterConfiguration.AddKeys | src/main/java/it/wldt/adapter/http/digital/adapter/HttpDigitalAdapterConfiguration.java:93-96 | A null or empty collection fails with the given message and changes nothing. Otherwise all its keys are appended, in order, to exactly the target filter; empty-string elements are accepted. |
| Configuration.HttpDigitalAdapterConfiguration.AddPropertyFilter | src/main/java/it/wldt/adapter/http/digital/adapter/HttpDigitalAdapterConfiguration.java:82-85 | A null or empty key gives "Cannot use null or empty property key as filter" and no change. Otherwise the property filter becomes old + [key] and the others are unchanged. |
| Configuration.HttpDigitalAdapterConfiguration.AddPropertiesFilter | src/main/java/it/wldt/adapter/http/digital/adapter/HttpDigitalAdapterConfiguration.java:93-96 | A null or empty collection gives the property-list message and no change. Otherwise the property filter becomes old + keys and the others are unchanged. |
| Configuration.HttpDigitalAdapterConfiguration.AddActionFilter | src/main/java/it/wldt/adapter/http/digital/adapter/HttpDigitalAdapterConfiguration.java:104-107 | The same as `AddPropertyFilter` for the action filter, with the action-key message. |
| Configuration.HttpDigitalAdapterConfiguration.AddActionsFilter | src/main/java/it/wldt/adapter/http/digital/adapter/HttpDigitalAdapterConfiguration.java:115-118 | The same as `AddPropertiesFilter` for the action filter, with the action-list message. |
| Configuration.HttpDigitalAdapterConfiguration.AddEventFilter | src/main/java/it/wldt/adapter/http/digital/adapter/HttpDigitalAdapterConfiguration.java:126-129 | The same as `AddPropertyFilter` for the event filter, with the event-key message. |
| Configuration.HttpDigitalAdapterConfiguration.AddEventsFilter | src/main/java/it/wldt/adapter/http/digital/adapter/HttpDigitalAdapterConfiguration.java:137-140 | The same as `AddPropertiesFilter` for the event filter, with the event-list message. |
| Configuration.HttpDigitalAdapterConfiguration.AddRelationshipFilter | src/main/java/it/wldt/adapter/http/digital/adapter/HttpDigitalAdapterConfiguration.java:148-151 | The same as `AddPropertyFilter` for the relationship filter, with the relationship-name message. |
| Configuration.HttpDigitalAdapterConfiguration.AddRelationshipsFilter | src/main/java/it/wldt/adapter/http/digital/adapter/HttpDigitalAdapterConfiguration.java:159-162 | The same as `AddPropertiesFilter` for the relationship filter, with the relationship-list message. |
| Configuration.HttpDigitalAdapterConfiguration.GetPropertyFilter | src/main/java/it/wldt/adapter/http/digital/adapter/HttpDigitalAdapterConfiguration.java:169-170 | Reads back the property whitelist, the filter that `AddPropertyFilter` and `AddPropertiesFilter` append to. |
| Configuration.HttpDigitalAdapterConfiguration.GetActionFilter | src/main/java/it/wldt/adapter/http/digital/adapter/HttpDigitalAdapterConfiguration.java:178-179 | Reads back the action whitelist, the filter that `AddActionFilter` and `AddActionsFilter` append to. |
| Configuration.HttpDigitalAdapterConfiguration.GetEventFilter | src/main/java/it/wldt/adapter/http/digital/adapter/HttpDigitalAdapterConfiguration.java:187-188 | Reads back the event whitelist, the filter that `AddEventFilter` and `AddEventsFilter` append to. |
| Configuration.HttpDigitalAdapterConfiguration.GetRelationshipFilter | src/main/java/it/wldt/adapter/http/digital/adapter/HttpDigitalAdapterConfiguration.java:196-197 | Reads back the relationship whitelist, the filter that `AddRelationshipFilter` and `AddRelationshipsFilter` append to. |
| Configuration.HttpDigitalAdapterConfiguration.GetHost | src/main/java/it/wldt/adapter/http/digital/adapter/HttpDigitalAdapterConfiguration.java:205-206 | Returns the host given to the constructor. It is a constant, so no adder changes it; `ConfigureExample` reads it back. |
| Configuration.HttpDigitalAdapterConfiguration.GetPort | src/main/java/it/wldt/adapter/http/digital/adapter/HttpDigitalAdapterConfiguration.java:214-215 | Returns the port given to the constructor. It is a constant, so no adder changes it; `ConfigureExample` reads it back. |
| Configuration.HttpDigitalAdapterConfiguration.GetId | src/main/java/it/wldt/adapter/http/digital/adapter/HttpDigitalAdapterConfiguration.java:223-224 | Returns the id given to the constructor. It is a constant, so no adder changes it; `ConfigureExample` reads it back. |
| Configuration.ConfigureExample | src/main/java/it/wldt/adapter/http/digital/adapter/HttpDigitalAdapterConfiguration.java:82-107 | Adding ["temperature", "humidity"] and then "switch" gives exactly those filters. A rejected empty action key leaves no trace, and the event and relationship filters stay empty. |
| Gateway.PropertyGet | src/main/java/it/wldt/adapter/http/digital/adapter/HttpDigitalAdapter.java:277-289 | The result is absent without a current snapshot; otherwise it is the snapshot's own lookup of the key. |
| Gateway.ActionGet | src/main/java/it/wldt/adapter/http/digital/adapter/HttpDigitalAdapter.java:300-312 | The result is absent without a current snapshot; otherwise it is the snapshot's lookup of the action. |
| Gateway.EventGet | src/main/java/it/wldt/adapter/http/digital/adapter/HttpDigitalAdapter.java:323-335 | The result is absent without a current snapshot; otherwise it is the snapshot's lookup of the event. |
| Gateway.RelationshipGet | src/main/java/it/wldt/adapter/http/digital/adapter/HttpDigitalAdapter.java:346-358 | The result is absent without a current snapshot; otherwise it is the snapshot's lookup of the relationship. |
| Gateway.PropertiesGet | src/main/java/it/wldt/adapter/http/digital/adapter/HttpDigitalAdapter.java:368-380 | The result is empty without a snapshot or without a property list. In general it holds exactly the properties that `PropertyGet` returns for some key. |
| Gateway.ActionsGet | src/main/java/it/wldt/adapter/http/digital/adapter/HttpDigitalAdapter.java:390-402 | The result is empty without a snapshot or an action list. In general it holds exactly the actions that `ActionGet` returns for some key. |
| Gateway.EventsGet | src/main/java/it/wldt/adapter/http/digital/adapter/HttpDigitalAdapter.java:412-424 | The result is empty without a snapshot or an event list. In general it holds exactly the events that `EventGet` returns for some key. |
| Gateway.RelationshipsGet | src/main/java/it/wldt/adapter/http/digital/adapter/HttpDigitalAdapter.java:434-446 | The result is empty without a snapshot or a relationship list. In general it holds exactly the relationships that `RelationshipGet` returns for some key. |
| Gateway.ReadProperty | src/main/java/it/wldt/adapter/http/digital/adapter/HttpDigitalAdapter.java:457-470 | A value is present if and only if the current snapshot has the property and its value is not null. The value is then the property value's text. |
| Gateway.RelationshipInstancesGet | src/main/java/it/wldt/adapter/http/digital/adapter/HttpDigitalAdapter.java:492-506 | The list is present if and only if the current snapshot has the relationship and its instance list is not null. The list is then that instance list. |
| Gateway.ActionStatus | src/main/java/it/wldt/adapter/http/digital/adapter/HttpDigitalAdapter.java:518-532 | The status is always 202 or 400. It is 202 exactly when a current snapshot contains the action and publishing does not throw, and 400 whenever there is no snapshot. |
| Gateway.Step | src/main/java/it/wldt/adapter/http/digital/adapter/HttpDigitalAdapter.java:75-153 | The effect of one callback. An update sets current, previous and changes to its arguments. A sync with a state replaces only the current snapshot. A notification is appended to the log. An action request forwards one call exactly when `ActionStatus` is 202. The lemmas below state what every sequence of steps gives. |
| Gateway.Run | src/main/java/it/wldt/adapter/http/digital/adapter/HttpDigitalAdapter.java:34-49 | The gateway state after a trace of callbacks, from the field initialisers. `RunAppend` and the lemmas below state what it holds after any trace. |
| Gateway.RunAppend | src/main/java/it/wldt/adapter/http/digital/adapter/HttpDigitalAdapter.java:75-153 | Callbacks take effect one after another: a longer trace is its prefix followed by one more step. |
| Gateway.CurrentAbsentBeforePublish | src/main/java/it/wldt/adapter/http/digital/adapter/HttpDigitalAdapter.java:34 | Until an update or a non-null sync arrives, there is no current snapshot. |
| Gateway.CurrentIsLastPublished | src/main/java/it/wldt/adapter/http/digital/adapter/HttpDigitalAdapter.java:75-89 | The current snapshot is the one installed by the last update (even a null one) or by the last sync with a state. |
| Gateway.PreviousAndChangesAbsentBeforeUpdate | src/main/java/it/wldt/adapter/http/digital/adapter/HttpDigitalAdapter.java:39-44 | Until an `onStateUpdate` arrives, the previous snapshot and the change list are absent. |
| Gateway.PreviousAndChangesAreLastSupplied | src/main/java/it/wldt/adapter/http/digital/adapter/HttpDigitalAdapter.java:75-89 | The previous snapshot and the change list are the arguments of the last `onStateUpdate`: the previous state the engine passed, not the adapter's own earlier state. |
| Gateway.NotificationsInAppend | src/main/java/it/wldt/adapter/http/digital/adapter/HttpDigitalAdapter.java:97-100 | The notifications of two traces in a row are those of the first followed by those of the second. |
| Gateway.NotificationLogIsArrivalOrder | src/main/java/it/wldt/adapter/http/digital/adapter/HttpDigitalAdapter.java:97-100 | The log holds every received notification in arrival order and nothing else. |
| Gateway.NotificationLogOnlyGrows | src/main/java/it/wldt/adapter/http/digital/adapter/HttpDigitalAdapter.java:49 | Nothing is ever removed from the log: an earlier log is a prefix of any later one. |
| Gateway.ForwardedOnlyWhenRequestedAndAccepted | src/main/java/it/wldt/adapter/http/digital/adapter/HttpDigitalAdapter.java:518-532 | Every action published to the twin came from a request with that key and body whose publish did not throw. The snapshot current at that request declared the action. |
| DigitalAdapter.HttpDigitalAdapter.constructor | src/main/java/it/wldt/adapter/http/digital/adapter/HttpDigitalAdapter.java:62-65 | The adapter id is the configuration's id, and the twin instance is the given one. No snapshot or notification exists yet. |
| DigitalAdapter.HttpDigitalAdapter.OnStateUpdate | src/main/java/it/wldt/adapter/http/digital/adapter/HttpDigitalAdapter.java:75-89 | Current, previous and change list become exactly the three arguments. The notification log and the twin calls are unchanged. |
| DigitalAdapter.HttpDigitalAdapter.OnEventNotificationReceived | src/main/java/it/wldt/adapter/http/digital/adapter/HttpDigitalAdapter.java:97-100 | The log becomes old log + [notification]; the three snapshot fields are unchanged. |
| DigitalAdapter.HttpDigitalAdapter.OnDigitalTwinSync | src/main/java/it/wldt/adapter/http/digital/adapter/HttpDigitalAdapter.java:130-153 | A non-null state replaces only the current snapshot, and its event keys are observed if it has an event list. A null state changes nothing. |
| DigitalAdapter.HttpDigitalAdapter.OnStateGet | src/main/java/it/wldt/adapter/http/digital/adapter/HttpDigitalAdapter.java:210-222 | The result is empty before any update or non-null sync. After that it is the snapshot the last such callback installed. |
| DigitalAdapter.HttpDigitalAdapter.OnPreviousStateGet | src/main/java/it/wldt/adapter/http/digital/adapter/HttpDigitalAdapter.java:232-244 | The result is empty before any update; after that it is the previous state passed to the last `onStateUpdate`. |
| DigitalAdapter.HttpDigitalAdapter.OnStateChangesListGet | src/main/java/it/wldt/adapter/http/digital/adapter/HttpDigitalAdapter.java:254-266 | The result is empty before any update; after that it is the change list passed to the last `onStateUpdate`. |
| DigitalAdapter.HttpDigitalAdapter.OnPropertyGet | src/main/java/it/wldt/adapter/http/digital/adapter/HttpDigitalAdapter.java:277-289 | The result is `PropertyGet` of the current snapshot. |
| DigitalAdapter.HttpDigitalAdapter.OnActionGet | src/main/java/it/wldt/adapter/http/digital/adapter/HttpDigitalAdapter.java:300-312 | The result is `ActionGet` of the current snapshot. |
| DigitalAdapter.HttpDigitalAdapter.OnEventGet | src/main/java/it/wldt/adapter/http/digital/adapter/HttpDigitalAdapter.java:323-335 | The result is `EventGet` of the current snapshot. |
| DigitalAdapter.HttpDigitalAdapter.OnRelationshipGet | src/main/java/it/wldt/adapter/http/digital/adapter/HttpDigitalAdapter.java:346-358 | The result is `RelationshipGet` of the current snapshot. |
| DigitalAdapter.HttpDigitalAdapter.OnPropertiesGet | src/main/java/it/wldt/adapter/http/digital/adapter/HttpDigitalAdapter.java:368-380 | The result is `PropertiesGet` of the current snapshot: empty without one, and never failing. |
| DigitalAdapter.HttpDigitalAdapter.OnActionsGet | src/main/java/it/wldt/adapter/http/digital/adapter/HttpDigitalAdapter.java:390-402 | The result is `ActionsGet` of the current snapshot. |
| DigitalAdapter.HttpDigitalAdapter.OnEventsGet | src/main/java/it/wldt/adapter/http/digital/adapter/HttpDigitalAdapter.java:412-424 | The result is `EventsGet` of the current snapshot. |
| DigitalAdapter.HttpDigitalAdapter.OnRelationshipsGet | src/main/java/it/wldt/adapter/http/digital/adapter/HttpDigitalAdapter.java:434-446 | The result is `RelationshipsGet` of the current snapshot. |
| DigitalAdapter.HttpDigitalAdapter.OnReadProperty | src/main/java/it/wldt/adapter/http/digital/adapter/HttpDigitalAdapter.java:457-470 | The result is `ReadProperty` of the current snapshot. |
| DigitalAdapter.HttpDigitalAdapter.OnEventNotificationGet | src/main/java/it/wldt/adapter/http/digital/adapter/HttpDigitalAdapter.java:479-481 | The result is the log itself, which equals every notification received so far, in arrival order. |
| DigitalAdapter.HttpDigitalAdapter.OnRelationshipInstancesGet | src/main/java/it/wldt/adapter/http/digital/adapter/HttpDigitalAdapter.java:492-506 | The result is `RelationshipInstancesGet` of the current snapshot. |
| DigitalAdapter.HttpDigitalAdapter.OnActionRequest | src/main/java/it/wldt/adapter/http/digital/adapter/HttpDigitalAdapter.java:518-532 | The status is `ActionStatus` of the snapshot current before the call. On 202 exactly one (key, body) call is forwarded; on 400 none. Nothing else changes. |
| DigitalAdapter.HttpDigitalAdapter.OnInstanceRequest | src/main/java/it/wldt/adapter/http/digital/adapter/HttpDigitalAdapter.java:541-543 | The result is the twin instance given at construction. |
| Handlers.InstanceResponse | src/main/java/it/wldt/adapter/http/digital/server/HttpDigitalAdapterHandlersFactory.java:113-125 | The response is JSON with the twin id, its digitalized assets and its physical and digital adapter ids. |
| Handlers.StateResponse | src/main/java/it/wldt/adapter/http/digital/server/HttpDigitalAdapterHandlersFactory.java:133-170 | The status is 500 if and only if there is no state. The 500 response is text/plain with the fixed message. Otherwise the response is JSON with the evaluation instant and the four lists the list routes would give, absent lists as empty. |
| Handlers.StateListsResponse | src/main/java/it/wldt/adapter/http/digital/HttpDigitalAdapterHandlersFactory.java:88-102 | The four-supplier overload never sets an error status and always sends all four lists as JSON. |
| Handlers.ChangeListResponse | src/main/java/it/wldt/adapter/http/digital/server/HttpDigitalAdapterHandlersFactory.java:178-207 | The status is 500 if and only if the list is absent or serialising it throws; each case has its own plain-text message. Otherwise the list is sent as JSON with the default status. |
| Handlers.ComponentsListResponse | src/main/java/it/wldt/adapter/http/digital/server/HttpDigitalAdapterHandlersFactory.java:81-86 | Whatever the supplier returns is sent as JSON with the default status. |
| Handlers.ComponentResponse | src/main/java/it/wldt/adapter/http/digital/server/HttpDigitalAdapterHandlersFactory.java:95-105 | The not-found literal is sent if and only if the producer gives nothing; otherwise the component is sent. The status is never an error, and the content type is always JSON. |
| Handlers.ReadPropertyValueResponse | src/main/java/it/wldt/adapter/http/digital/server/HttpDigitalAdapterHandlersFactory.java:215-225 | The response is always text/plain with the default status: the value verbatim, or "Property not is readable". |
| Handlers.InvokeActionResponse | src/main/java/it/wldt/adapter/http/digital/server/HttpDigitalAdapterHandlersFactory.java:63-72 | The status is the action function's result, passed through verbatim, with the JSON content type and no body. |
| Handlers.DefaultRoutingTable | src/main/java/it/wldt/adapter/http/digital/server/HttpDigitalAdapterHandlersFactory.java:37-53 | The sixteen routes of `createDefaultRoutingHandler`, each with the listener method it is wired to. `DefaultRoutingTableIsDistinct`, `DefaultPostRoutes`, `DefaultGetRoutes` and `DefaultRoutesAreRegisteredPaths` state its shape. |
| Handlers.FindRoute | src/main/java/it/wldt/adapter/http/digital/server/HttpDigitalAdapterHandlersFactory.java:36-55 | A handler is found only if the table registers that handler for the method and template. The fallback is used if and only if no route matches. |
| Handlers.FirstMatch | src/main/java/it/wldt/adapter/http/digital/server/HttpDigitalAdapterHandlersFactory.java:37-54 | The result is the index of a route registered for the method and template, and no earlier route matches. Past the end means no route matches. The default table has no duplicates, so the index is that of the only such route. |
| Handlers.DefaultRoutingTableIsDistinct | src/main/java/it/wldt/adapter/http/digital/server/HttpDigitalAdapterHandlersFactory.java:37-54 | There are sixteen routes, no two with the same method and template. `/state/actions/{key}` is registered for both GET and POST. |
| Handlers.DistinctTableDispatchesEachRoute | src/main/java/it/wldt/adapter/http/digital/server/HttpDigitalAdapterHandlersFactory.java:37-54 | In a table without duplicates, each route is the one found for its own method and template. |
| Handlers.DefaultRouteDispatches | src/main/java/it/wldt/adapter/http/digital/server/HttpDigitalAdapterHandlersFactory.java:37-53 | Each of the sixteen default routes reaches the handler registered with it. |
| Handlers.Respond | src/main/java/it/wldt/adapter/http/digital/server/HttpDigitalAdapterHandlersFactory.java:37-53 | Runs the handler a route is wired to, on what its listener method returns. `OnlyInvokeActionChangesState`, `InvokeActionForwardsOnceOrRejects` and `BeforeAnyUpdate` state its behaviour. |
| Handlers.Serve | src/main/java/it/wldt/adapter/http/digital/server/HttpDigitalAdapterHandlersFactory.java:36-55 | One request through the routing handler, or the error page fallback. `ServeRegisteredRoute`, `UnregisteredPathFallsBack` and `GetRequestsChangeNothing` state its behaviour. |
| Handlers.ServeRegisteredRoute | src/main/java/it/wldt/adapter/http/digital/server/HttpDigitalAdapterHandlersFactory.java:37-53 | A request on a registered route is answered by that route's handler, fed by the listener method wired to it. |
| Handlers.DefaultPostRoutes | src/main/java/it/wldt/adapter/http/digital/server/HttpDigitalAdapterHandlersFactory.java:47 | The only POST route is `/state/actions/{key}`. |
| Handlers.OnlyActionsAcceptPost | src/main/java/it/wldt/adapter/http/digital/server/HttpDigitalAdapterHandlersFactory.java:47-54 | A POST to `/state/actions/{key}` reaches the invoke-action handler. Any other POST goes to the fallback error page. |
| Handlers.OnlyInvokeActionChangesState | src/main/java/it/wldt/adapter/http/digital/server/HttpDigitalAdapterHandlersFactory.java:63-225 | A handler leaves the adapter's state as it was if and only if it is not the invoke-action handler, or the action request it makes changes nothing. |
| Handlers.DefaultGetRoutes | src/main/java/it/wldt/adapter/http/digital/server/HttpDigitalAdapterHandlersFactory.java:37-53 | No GET route of the default table is wired to the invoke-action handler. |
| Handlers.DefaultRoutesAreRegisteredPaths | src/main/java/it/wldt/adapter/http/digital/server/HttpDigitalAdapterHandlersFactory.java:37-53 | Every default route is registered for one of the sixteen templates; none covers an unregistered path. |
| Handlers.UnregisteredPathFallsBack | src/main/java/it/wldt/adapter/http/digital/server/HttpDigitalAdapterHandlersFactory.java:54 | A GET or POST request for a path outside the templates goes to the fallback error page and leaves the state as it was. |
| Handlers.GetRequestsChangeNothing | src/main/java/it/wldt/adapter/http/digital/server/HttpDigitalAdapterHandlersFactory.java:37-54 | No GET request, registered or not, changes the adapter's state. |
| Handlers.InvokeActionForwardsOnceOrRejects | src/main/java/it/wldt/adapter/http/digital/server/HttpDigitalAdapterHandlersFactory.java:63-72 | The action route answers 202 exactly when the action is declared and publishing succeeds, and then forwards (key, body) once. Otherwise it answers 400 and forwards nothing, with no body. |
| Handlers.BeforeAnyUpdate | src/main/java/it/wldt/adapter/http/digital/server/HttpDigitalAdapterHandlersFactory.java:133-225 | Before any snapshot, the state, previous and changes routes answer 500. The property list is an empty JSON list, a single property is "not found", its value is "not readable", and an action request answers 400. |
| Scenarios.TemperatureReadings | src/main/java/it/wldt/adapter/http/digital/adapter/HttpDigitalAdapter.java:75-89 | After temperature 21 the value route answers "21"; after 23 it answers "23". The previous-state route then lists temperature 21. |
| Scenarios.NothingPublished | src/main/java/it/wldt/adapter/http/digital/adapter/HttpDigitalAdapter.java:210-222 | With nothing published, `/state` answers 500 with the fixed message and `/state/properties` answers an empty JSON list. |
| Scenarios.SwitchRequests | src/main/java/it/wldt/adapter/http/digital/adapter/HttpDigitalAdapter.java:518-532 | An action request before any snapshot gives 400. After a sync declaring the action it gives 202; an undeclared action still gives 400. |

## Left out

- The Undertow server lifecycle (`onAdapterStart`, `onAdapterStop`, binding host and port) is not modelled. It is I/O in a foreign library.
- Matching a concrete path against the `{key}` templates is not modelled; a request carries the template it matched, or `UnregisteredPath` when it matches none. For example, which of `/state/events/{key}` and `/state/events/notifications` wins for `/state/events/notifications` is decided inside the library.
- The fallback `SimpleErrorPageHandler` is the `FallbackErrorPage` outcome; its status and page are the library's.
- Gson serialisation and the custom relationship-instance serialiser are not modelled: a JSON body carries the value that would be serialised.
- StateResponse: assumes that serialisation and reading the evaluation instant never throw. The state handler has no catch, so such an exception would reach the server's own error handling, which is not modelled.
- StateListsResponse: assumes serialisation never throws, for the same reason.
- ComponentsListResponse: assumes serialisation never throws; the list handler has no catch.
- ComponentResponse: assumes serialisation never throws; the component handler has no catch.
- InstanceResponse: assumes serialisation never throws; the instance handler has no catch.
- FirstMatch: a table that registers the same method and template twice is out of scope. The model takes the first such route, while the server library's own rule for duplicates is not modelled. The default table has no duplicates (`DefaultRoutingTableIsDistinct`).
- The `evaluation_instant_date` field of the state response is left out. It formats the instant with the system time zone, which depends on the environment.
- Concurrency is not modelled: engine callbacks and HTTP workers touch the fields without synchronisation. For the same reason the state handler's two calls of its supplier are modelled as one.
- Storage and query requests are not modelled. They appear only as interface declarations (`src/main/java/it/wldt/adapter/http/digital/server/HttpDigitalAdapterRequestListener.java:146-153`), with no route and no implementation.
- The empty lifecycle callbacks (`onDigitalTwinCreate`, `onDigitalTwinStart`, `onDigitalTwinStop`, `onDigitalTwinDestroy`, `onDigitalTwinUnSync`) are left out; they have no logic.
- WLDT's `DigitalTwinState` is a snapshot datatype with maps from key to component, and its list getters give the set of a map's values. Collection order is therefore not modelled, and neither are null elements inside a collection.
- A publish that throws counts as nothing forwarded. Whether the event bus delivered anything before throwing is not modelled.
- An exception thrown while observing event notifications during a sync is not modelled. It is caught and only printed.
- The configuration getters return the stored lists themselves, so a caller could alias and mutate them. The model returns values.
- The `actualFilter == null` branch of `addFilter` cannot be reached, since every filter is created in the constructor. It is not modelled.
- AddKeys: a collection that contains `null` cannot be represented. The source accepts such a collection: `[null]` is non-empty, yet it lists no real key, so `handleComponent` would then admit nothing of that kind. Filters are sequences of strings.
- AddPropertiesFilter: a collection with a `null` element cannot be represented (see `AddKeys`).
- AddActionsFilter: a collection with a `null` element cannot be represented (see `AddKeys`).
- AddEventsFilter: a collection with a `null` element cannot be represented (see `AddKeys`).
- AddRelationshipsFilter: a collection with a `null` element cannot be represented (see `AddKeys`).
- The port is an unbounded `int`; the source's nullable `Integer` is not modelled.
- OnEventNotificationGet: returns the log as a value. The source returns the live `LinkedList`, which a caller could mutate.
