/** The six handlers of `TripOrchestrator`, each of which decodes a payload, stores the id and
    fires its callback. The callbacks build a command, which the handler pushes. */
module TripOrchestration {
  import opened Wrappers
  import opened Commands
  import opened Float64
  import opened Json
  import opened Inbound
  import Streams
  import opened StreamService

  /** The parameter orders are those of the callback types. */
  datatype TripCallbacks = TripCallbacks(
    onTripInit: Option<(string, int, real, real, real, real) -> GatewayCommand>,
    onTripMove: Option<(string, int, real, real) -> GatewayCommand>,
    onTripPark: Option<(string, real, real) -> GatewayCommand>,
    onOrderUpdateLocation: Option<string -> GatewayCommand>,
    onOrderUpdateStatus: Option<string -> GatewayCommand>,
    onTripCancel: Option<(string, int) -> GatewayCommand>)

  datatype Outcome = Returned | Threw

  class TripOrchestrator {
    const vin: string
    const stream: CommandStream
    var callbacks: TripCallbacks
    var tripId: int
    var requestId: int

    ghost predicate Valid()
      reads stream, stream.handlers
    {
      stream.Valid()
    }

    /** The values behind the objects. */
    ghost function View(): System
      reads this, stream
    {
      System(tripId, requestId, stream.model)
    }

    constructor (vin: string, stream: CommandStream)
      requires stream.Valid()
      ensures Valid() && this.stream == stream && this.vin == vin
      ensures View() == System(0, 0, stream.model)
      ensures callbacks == TripCallbacks(None, None, None, None, None, None)
    {
      this.vin := vin;
      this.stream := stream;
      callbacks := TripCallbacks(None, None, None, None, None, None);
      tripId := 0;
      requestId := 0;
    }

    method SetCallbacks(callbacks: TripCallbacks)
      modifies this`callbacks
      ensures this.callbacks == callbacks
    {
      this.callbacks := callbacks;
    }

    method HandleTripInit(p: Payload) returns (outcome: Outcome)
      requires Valid()
      modifies this`requestId, stream`pendingCommands, stream`model, stream.handlers
      ensures Valid()
      ensures outcome == (if WellFormed(TOPIC_TRIP_INIT, p) then Returned else Threw)
      ensures outcome == Threw ==> View() == old(View())
      ensures outcome == Returned ==>
        && requestId == ToDouble(Int64At(p, "requestId"))
        && (callbacks.onTripInit == None ==> stream.model == old(stream.model))
        && (callbacks.onTripInit.Some? ==>
            stream.model == Streams.PushStep(old(stream.model), callbacks.onTripInit.value(
              StringAt(p, "vinNumber"), Int64At(p, "requestId"),
              DoubleAt(p, "startLat"), DoubleAt(p, "startLong"),
              DoubleAt(p, "endLat"), DoubleAt(p, "endLong"))))
    {
      var vin := GetString(At(p, "vinNumber"));
      if vin == None { return Threw; }
      var request := GetInt64(At(p, "requestId"));
      if request == None { return Threw; }
      var startLon := GetDouble(At(p, "startLong"));
      if startLon == None { return Threw; }
      var startLat := GetDouble(At(p, "startLat"));
      if startLat == None { return Threw; }
      var endLon := GetDouble(At(p, "endLong"));
      if endLon == None { return Threw; }
      var endLat := GetDouble(At(p, "endLat"));
      if endLat == None { return Threw; }

      requestId := ToDouble(request.value);

      if callbacks.onTripInit.Some? {
        stream.PushCommand(callbacks.onTripInit.value(
          vin.value, request.value, startLat.value, startLon.value, endLat.value, endLon.value));
      }
      return Returned;
    }

    method HandleTripMove(p: Payload) returns (outcome: Outcome)
      requires Valid()
      modifies this`tripId, stream`pendingCommands, stream`model, stream.handlers
      ensures Valid()
      ensures outcome == (if WellFormed(TOPIC_TRIP_MOVE, p) then Returned else Threw)
      ensures outcome == Threw ==> View() == old(View())
      ensures outcome == Returned ==>
        && tripId == Int64At(p, "tripId")
        && (callbacks.onTripMove == None ==> stream.model == old(stream.model))
        && (callbacks.onTripMove.Some? ==>
            stream.model == Streams.PushStep(old(stream.model), callbacks.onTripMove.value(
              StringAt(p, "vinNumber"), Int64At(p, "tripId"),
              DoubleAt(p, "latitude"), DoubleAt(p, "longitude"))))
    {
      var vin := GetString(At(p, "vinNumber"));
      if vin == None { return Threw; }
      var trip := GetInt64(At(p, "tripId"));
      if trip == None { return Threw; }
      var lon := GetDouble(At(p, "longitude"));
      if lon == None { return Threw; }
      var lat := GetDouble(At(p, "latitude"));
      if lat == None { return Threw; }

      tripId := trip.value;

      if callbacks.onTripMove.Some? {
        stream.PushCommand(
          callbacks.onTripMove.value(vin.value, trip.value, lat.value, lon.value));
      }
      return Returned;
    }

    method HandleTripPark(p: Payload) returns (outcome: Outcome)
      requires Valid()
      modifies stream`pendingCommands, stream`model, stream.handlers
      ensures Valid()
      ensures outcome == (if WellFormed(TOPIC_TRIP_PARK, p) then Returned else Threw)
      ensures outcome == Threw || callbacks.onTripPark == None ==> View() == old(View())
      ensures outcome == Returned && callbacks.onTripPark.Some? ==>
        stream.model == Streams.PushStep(old(stream.model), callbacks.onTripPark.value(
          StringAt(p, "vinNumber"), DoubleAt(p, "longitude"), DoubleAt(p, "latitude")))
    {
      var vin := GetString(At(p, "vinNumber"));
      if vin == None { return Threw; }
      var lon := GetDouble(At(p, "longitude"));
      if lon == None { return Threw; }
      var lat := GetDouble(At(p, "latitude"));
      if lat == None { return Threw; }

      if callbacks.onTripPark.Some? {
        stream.PushCommand(callbacks.onTripPark.value(vin.value, lon.value, lat.value));
      }
      return Returned;
    }

    method HandleOrderUpdateLocation(p: Payload) returns (outcome: Outcome)
      requires Valid()
      modifies stream`pendingCommands, stream`model, stream.handlers
      ensures Valid()
      ensures outcome == (if WellFormed(TOPIC_ORDER_UPDATE_LOCATION, p) then Returned else Threw)
      ensures outcome == Threw || callbacks.onOrderUpdateLocation == None ==>
        View() == old(View())
      ensures outcome == Returned && callbacks.onOrderUpdateLocation.Some? ==>
        stream.model == Streams.PushStep(old(stream.model),
          callbacks.onOrderUpdateLocation.value(StringAt(p, "vinNumber")))
    {
      var vin := GetString(At(p, "vinNumber"));
      if vin == None { return Threw; }
      if callbacks.onOrderUpdateLocation.Some? {
        stream.PushCommand(callbacks.onOrderUpdateLocation.value(vin.value));
      }
      return Returned;
    }

    method HandleOrderUpdateStatus(p: Payload) returns (outcome: Outcome)
      requires Valid()
      modifies stream`pendingCommands, stream`model, stream.handlers
      ensures Valid()
      ensures outcome == (if WellFormed(TOPIC_ORDER_UPDATE_STATUS, p) then Returned else Threw)
      ensures outcome == Threw || callbacks.onOrderUpdateStatus == None ==> View() == old(View())
      ensures outcome == Returned && callbacks.onOrderUpdateStatus.Some? ==>
        stream.model == Streams.PushStep(old(stream.model),
          callbacks.onOrderUpdateStatus.value(StringAt(p, "vinNumber")))
    {
      var vin := GetString(At(p, "vinNumber"));
      if vin == None { return Threw; }
      if callbacks.onOrderUpdateStatus.Some? {
        stream.PushCommand(callbacks.onOrderUpdateStatus.value(vin.value));
      }
      return Returned;
    }

    method HandleTripCancel(p: Payload) returns (outcome: Outcome)
      requires Valid()
      modifies stream`pendingCommands, stream`model, stream.handlers
      ensures Valid()
      ensures outcome == (if WellFormed(TOPIC_TRIP_CANCEL, p) then Returned else Threw)
      ensures outcome == Threw || callbacks.onTripCancel == None ==> View() == old(View())
      ensures outcome == Returned && callbacks.onTripCancel.Some? ==>
        stream.model == Streams.PushStep(old(stream.model), callbacks.onTripCancel.value(
          StringAt(p, "vinNumber"), Int64At(p, "requestId")))
    {
      var vin := GetString(At(p, "vinNumber"));
      if vin == None { return Threw; }
      var request := GetInt64(At(p, "requestId"));
      if request == None { return Threw; }
      if callbacks.onTripCancel.Some? {
        stream.PushCommand(callbacks.onTripCancel.value(vin.value, request.value));
      }
      return Returned;
    }

    /** The integer that `request_id_.load()` converts to. */
    method ActiveRequestId() returns (id: int)
      ensures id == Inbound.ActiveRequestId(View())
    {
      id := DoubleToInt64(requestId as real);
    }

    method SetTripId(id: int)
      modifies this`tripId
      ensures View() == old(View()).(tripId := id)
    {
      tripId := id;
    }
  }
}
