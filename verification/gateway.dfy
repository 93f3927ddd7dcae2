/** `main`: the router, the callbacks that turn decoded messages into commands, and the six
    registrations that join them. */
module Gateway {
  import opened Wrappers
  import opened Commands
  import opened Inbound
  import opened StreamService
  import opened TripOrchestration

  /** The lambdas of the registrations, by the handler they call. */
  datatype Route = ToTripInit | ToTripMove | ToTripPark | ToOrderUpdateLocation
                 | ToOrderUpdateStatus | ToTripCancel

  /** The callbacks that `main` installs. */
  function MainCallbacks(): TripCallbacks {
    TripCallbacks(
      Some((vin, reqId, sLat, sLon, eLat, eLon) =>
        TripInit(vin := vin, requestId := reqId, startLat := sLat, startLong := sLon,
                 endLat := eLat, endLong := eLon)),
      Some((vin, tripId, lat, lon) =>
        TripMove(vin := vin, tripId := tripId, latitude := lat, longitude := lon)),
      Some((vin, lon, lat) => TripPark(vin := vin, latitude := lat, longitude := lon)),
      Some(vin => OrderUpdateLocation(vin)),
      Some(vin => OrderUpdateStatus(vin)),
      Some((vin, requestId) => TripCancel(vin := vin, requestId := requestId)))
  }

  /** What the router must hold for every topic. */
  function RouteOf(topic: string): Option<Route> {
    if topic == TOPIC_TRIP_INIT then Some(ToTripInit)
    else if topic == TOPIC_TRIP_MOVE then Some(ToTripMove)
    else if topic == TOPIC_TRIP_PARK then Some(ToTripPark)
    else if topic == TOPIC_ORDER_UPDATE_LOCATION then Some(ToOrderUpdateLocation)
    else if topic == TOPIC_ORDER_UPDATE_STATUS then Some(ToOrderUpdateStatus)
    else if topic == TOPIC_TRIP_CANCEL then Some(ToTripCancel)
    else None
  }

  lemma RouteMeans(topic: string)
    ensures RouteOf(topic) == None ==> forall p :: !WellFormed(topic, p)
    ensures RouteOf(topic).Some? ==> topic == TopicOf(RouteOf(topic).value)
  {
  }

  function TopicOf(route: Route): string {
    match route
    case ToTripInit => TOPIC_TRIP_INIT
    case ToTripMove => TOPIC_TRIP_MOVE
    case ToTripPark => TOPIC_TRIP_PARK
    case ToOrderUpdateLocation => TOPIC_ORDER_UPDATE_LOCATION
    case ToOrderUpdateStatus => TOPIC_ORDER_UPDATE_STATUS
    case ToTripCancel => TOPIC_TRIP_CANCEL
  }

  class MqttRouter {
    var handlers: map<string, Route>

    ghost predicate Registered()
      reads this
    {
      forall topic :: RouteOf(topic) == At(topic)
    }

    function At(topic: string): Option<Route>
      reads this
    {
      if topic in handlers then Some(handlers[topic]) else None
    }

    constructor ()
      ensures handlers == map[]
    {
      handlers := map[];
    }

    /** A second registration for a topic replaces the first. */
    method On(topic: string, handler: Route)
      modifies this
      ensures handlers == old(handlers)[topic := handler]
    {
      handlers := handlers[topic := handler];
    }

    /** The registrations of `main`. */
    method RegisterAll()
      requires handlers == map[]
      modifies this
      ensures Registered()
    {
      On(TOPIC_TRIP_INIT, ToTripInit);
      On(TOPIC_TRIP_MOVE, ToTripMove);
      On(TOPIC_TRIP_PARK, ToTripPark);
      On(TOPIC_ORDER_UPDATE_LOCATION, ToOrderUpdateLocation);
      On(TOPIC_ORDER_UPDATE_STATUS, ToOrderUpdateStatus);
      On(TOPIC_TRIP_CANCEL, ToTripCancel);
    }
  }

  class Application {
    const router: MqttRouter
    const orchestrator: TripOrchestrator

    ghost predicate Valid()
      reads this, router, orchestrator, orchestrator.stream, orchestrator.stream.handlers
    {
      Wired() && router.Registered()
    }

    ghost predicate Wired()
      reads this, orchestrator, orchestrator.stream, orchestrator.stream.handlers
    {
      orchestrator.Valid() && orchestrator.callbacks == MainCallbacks()
    }

    constructor (vin: string, stream: CommandStream)
      requires stream.Valid()
      ensures Valid() && fresh(router) && fresh(orchestrator) && orchestrator.stream == stream
      ensures orchestrator.View() == System(0, 0, stream.model)
    {
      var o := new TripOrchestrator(vin, stream);
      o.SetCallbacks(MainCallbacks());
      var r := new MqttRouter();
      r.RegisterAll();
      router := r;
      orchestrator := o;
    }

    method OnTripInit(p: Payload)
      requires Wired()
      modifies orchestrator`requestId, orchestrator.stream`pendingCommands,
               orchestrator.stream`model, orchestrator.stream.handlers
      ensures Wired()
      ensures orchestrator.View() == Receive(old(orchestrator.View()), TOPIC_TRIP_INIT, p)
    {
      var _ := orchestrator.HandleTripInit(p);
    }

    method OnTripMove(p: Payload)
      requires Wired()
      modifies orchestrator`tripId, orchestrator.stream`pendingCommands,
               orchestrator.stream`model, orchestrator.stream.handlers
      ensures Wired()
      ensures orchestrator.View() == Receive(old(orchestrator.View()), TOPIC_TRIP_MOVE, p)
    {
      var _ := orchestrator.HandleTripMove(p);
    }

    method OnTripPark(p: Payload)
      requires Wired()
      modifies orchestrator.stream`pendingCommands,
               orchestrator.stream`model, orchestrator.stream.handlers
      ensures Wired()
      ensures orchestrator.View() == Receive(old(orchestrator.View()), TOPIC_TRIP_PARK, p)
    {
      var _ := orchestrator.HandleTripPark(p);
    }

    method OnOrderUpdateLocation(p: Payload)
      requires Wired()
      modifies orchestrator.stream`pendingCommands,
               orchestrator.stream`model, orchestrator.stream.handlers
      ensures Wired()
      ensures orchestrator.View() == Receive(old(orchestrator.View()), TOPIC_ORDER_UPDATE_LOCATION, p)
    {
      var _ := orchestrator.HandleOrderUpdateLocation(p);
    }

    method OnOrderUpdateStatus(p: Payload)
      requires Wired()
      modifies orchestrator.stream`pendingCommands,
               orchestrator.stream`model, orchestrator.stream.handlers
      ensures Wired()
      ensures orchestrator.View() == Receive(old(orchestrator.View()), TOPIC_ORDER_UPDATE_STATUS, p)
    {
      var _ := orchestrator.HandleOrderUpdateStatus(p);
    }

    method OnTripCancel(p: Payload)
      requires Wired()
      modifies orchestrator.stream`pendingCommands,
               orchestrator.stream`model, orchestrator.stream.handlers
      ensures Wired()
      ensures orchestrator.View() == Receive(old(orchestrator.View()), TOPIC_TRIP_CANCEL, p)
    {
      var _ := orchestrator.HandleTripCancel(p);
    }

    /** Calls the registered handler; what it throws goes no further. */
    method Dispatch(topic: string, p: Payload)
      requires Valid()
      modifies orchestrator`tripId, orchestrator`requestId, orchestrator.stream`pendingCommands,
               orchestrator.stream`model, orchestrator.stream.handlers
      ensures Valid()
      ensures orchestrator.View() == Receive(old(orchestrator.View()), topic, p)
    {
      RouteMeans(topic);
      assert router.At(topic) == RouteOf(topic);
      if topic !in router.handlers { return; }
      match router.handlers[topic]
      case ToTripInit => OnTripInit(p);
      case ToTripMove => OnTripMove(p);
      case ToTripPark => OnTripPark(p);
      case ToOrderUpdateLocation => OnOrderUpdateLocation(p);
      case ToOrderUpdateStatus => OnOrderUpdateStatus(p);
      case ToTripCancel => OnTripCancel(p);
    }
  }
}
