/**
 * End-to-end uses of the adapter: the twin engine's callbacks drive an
 * `HttpDigitalAdapter`, and what its readers return is turned into the HTTP
 * responses the handlers of the default routing table would send.
 */
module Scenarios {
  import opened Wrappers
  import opened TwinState
  import opened Gateway
  import opened Handlers
  import Configuration
  import DigitalAdapter

  function Temperature(reading: string): Property {
    Property("temperature", "Double", Value(reading))
  }

  function TemperatureSnapshot(instant: int, reading: string): DigitalTwinState {
    DigitalTwinState(instant, Some(map["temperature" := Temperature(reading)]), None, None, None)
  }

  function LampInstance(): TwinDescription {
    TwinDescription("lamp", ["lamp-physical"], ["lamp-pa"], ["http-da"])
  }

  /**
   * A snapshot with `temperature = 21` is published: the property value route
   * answers the text "21". A second snapshot with `temperature = 23` follows,
   * the engine passing the first one as previous: the value route now answers
   * "23" and the previous-state route lists `temperature = 21`.
   */
  method TemperatureReadings() returns (first: Response, second: Response, previous: Response)
    ensures first == Response(DEFAULT_STATUS, TEXT_CONTENT_TYPE, Text("21"))
    ensures second == Response(DEFAULT_STATUS, TEXT_CONTENT_TYPE, Text("23"))
    ensures previous.status == DEFAULT_STATUS && previous.body.JsonBody? && previous.body.payload.StateObject?
    ensures previous.body.payload.properties == {Temperature("21")}
  {
    var config := new Configuration.HttpDigitalAdapterConfiguration("http-da", "localhost", 3000);
    var adapter := new DigitalAdapter.HttpDigitalAdapter(config, LampInstance());
    var s1 := TemperatureSnapshot(1000, "21");
    adapter.OnStateUpdate(Some(s1), None, Some([StateChange(Add, "temperature")]));
    var reading := adapter.OnReadProperty("temperature");
    first := ReadPropertyValueResponse(reading);
    var s2 := TemperatureSnapshot(2000, "23");
    adapter.OnStateUpdate(Some(s2), Some(s1), Some([StateChange(Update, "temperature")]));
    reading := adapter.OnReadProperty("temperature");
    second := ReadPropertyValueResponse(reading);
    var before := adapter.OnPreviousStateGet();
    previous := StateResponse(before);
    assert forall p :: p in ListOrEmpty(s1.properties) <==> p == Temperature("21");
  }

  /**
   * No snapshot was ever published: the state route answers 500 and the
   * property list route an empty JSON list.
   */
  method NothingPublished() returns (state: Response, properties: Response)
    ensures state.status == 500 && state.body == Text(STATE_UNAVAILABLE_MESSAGE)
    ensures properties == Response(DEFAULT_STATUS, JSON_CONTENT_TYPE, JsonBody(PropertyList({})))
  {
    var config := new Configuration.HttpDigitalAdapterConfiguration("http-da", "localhost", 3000);
    var adapter := new DigitalAdapter.HttpDigitalAdapter(config, LampInstance());
    var current := adapter.OnStateGet();
    state := StateResponse(current);
    var listed := adapter.OnPropertiesGet();
    properties := ComponentsListResponse(PropertyList(listed));
  }

  /**
   * An action request before any snapshot is refused; once a synced snapshot
   * declares the action, the same request is accepted and forwarded once,
   * while a request naming an undeclared action is still refused.
   */
  method SwitchRequests() returns (early: int, accepted: int, unknown: int)
    ensures early == 400 && accepted == 202 && unknown == 400
  {
    var config := new Configuration.HttpDigitalAdapterConfiguration("http-da", "localhost", 3000);
    var adapter := new DigitalAdapter.HttpDigitalAdapter(config, LampInstance());
    early := adapter.OnActionRequest("switch", "on", false);
    var s := DigitalTwinState(1000, None, Some(map["switch" := Action("switch", "Boolean", "text/plain")]), None, None);
    adapter.OnDigitalTwinSync(Some(s));
    accepted := adapter.OnActionRequest("switch", "on", false);
    assert adapter.forwardedActions == [ActionCall("switch", "on")];
    unknown := adapter.OnActionRequest("dim", "50", false);
    assert adapter.forwardedActions == [ActionCall("switch", "on")];
  }
}
