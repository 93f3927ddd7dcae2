/** What the six messages mean, from their documents: each value arrives in the field of its name,
    and a document that lacks a member, or has one of the wrong kind, leads to no command. */
module Messages {
  import opened Wrappers
  import opened Commands
  import opened Float64
  import opened Json
  import opened Inbound

  predicate HoldsText(p: Payload, key: string, s: string) {
    Member(p, key, Str(s))
  }

  ghost predicate HoldsWhole(p: Payload, key: string, id: int) {
    exists v :: Member(p, key, v) && HoldsId(v, id)
  }

  ghost predicate HoldsReal(p: Payload, key: string, x: real) {
    exists v :: Member(p, key, v) && HoldsNumber(v, x)
  }

  lemma TextIff(p: Payload, key: string)
    ensures HasString(p, key) <==> exists s :: HoldsText(p, key, s)
    ensures forall s :: HoldsText(p, key, s) <==> HasString(p, key) && StringAt(p, key) == s
  {
    forall s ensures HoldsText(p, key, s) <==> HasString(p, key) && StringAt(p, key) == s {
      StringIff(p, key, s);
    }
    if HasString(p, key) { assert HoldsText(p, key, StringAt(p, key)); }
  }

  lemma WholeIff(p: Payload, key: string)
    ensures HasInt64(p, key) <==> exists id :: HoldsWhole(p, key, id)
    ensures forall id :: HoldsWhole(p, key, id) <==> HasInt64(p, key) && Int64At(p, key) == id
  {
    forall id ensures HoldsWhole(p, key, id) <==> HasInt64(p, key) && Int64At(p, key) == id {
      Int64Iff(p, key, id);
    }
    if HasInt64(p, key) { assert HoldsWhole(p, key, Int64At(p, key)); }
  }

  lemma RealIff(p: Payload, key: string)
    ensures HasDouble(p, key) <==> exists x :: HoldsReal(p, key, x)
    ensures forall x :: HoldsReal(p, key, x) <==> HasDouble(p, key) && DoubleAt(p, key) == x
  {
    forall x ensures HoldsReal(p, key, x) <==> HasDouble(p, key) && DoubleAt(p, key) == x {
      DoubleIff(p, key, x);
    }
    if HasDouble(p, key) { assert HoldsReal(p, key, DoubleAt(p, key)); }
  }

  /** A message on this topic is an init exactly as the document says, member by member. */
  lemma TripInitIff(p: Payload, cmd: GatewayCommand)
    ensures Decode("topic/trip/init", p) == Some(cmd) <==>
      && cmd.TripInit?
      && HoldsText(p, "vinNumber", cmd.vin) && HoldsWhole(p, "requestId", cmd.requestId)
      && HoldsReal(p, "startLong", cmd.startLong) && HoldsReal(p, "startLat", cmd.startLat)
      && HoldsReal(p, "endLong", cmd.endLong) && HoldsReal(p, "endLat", cmd.endLat)
  {
    TextIff(p, "vinNumber");
    WholeIff(p, "requestId");
    RealIff(p, "startLong");
    RealIff(p, "startLat");
    RealIff(p, "endLong");
    RealIff(p, "endLat");
  }

  lemma TripMoveIff(p: Payload, cmd: GatewayCommand)
    ensures Decode("topic/trip/move", p) == Some(cmd) <==>
      && cmd.TripMove?
      && HoldsText(p, "vinNumber", cmd.vin) && HoldsWhole(p, "tripId", cmd.tripId)
      && HoldsReal(p, "longitude", cmd.longitude) && HoldsReal(p, "latitude", cmd.latitude)
  {
    TextIff(p, "vinNumber");
    WholeIff(p, "tripId");
    RealIff(p, "longitude");
    RealIff(p, "latitude");
  }

  lemma TripParkIff(p: Payload, cmd: GatewayCommand)
    ensures Decode("topic/trip/park", p) == Some(cmd) <==>
      && cmd.TripPark?
      && HoldsText(p, "vinNumber", cmd.vin)
      && HoldsReal(p, "longitude", cmd.longitude) && HoldsReal(p, "latitude", cmd.latitude)
  {
    TextIff(p, "vinNumber");
    RealIff(p, "longitude");
    RealIff(p, "latitude");
  }

  lemma OrderUpdateLocationIff(p: Payload, cmd: GatewayCommand)
    ensures Decode("topic/update_location/order", p) == Some(cmd) <==>
      cmd.OrderUpdateLocation? && HoldsText(p, "vinNumber", cmd.vin)
  {
    TextIff(p, "vinNumber");
  }

  lemma OrderUpdateStatusIff(p: Payload, cmd: GatewayCommand)
    ensures Decode("topic/update_status/order", p) == Some(cmd) <==>
      cmd.OrderUpdateStatus? && HoldsText(p, "vinNumber", cmd.vin)
  {
    TextIff(p, "vinNumber");
  }

  lemma TripCancelIff(p: Payload, cmd: GatewayCommand)
    ensures Decode("topic/trip/cancel", p) == Some(cmd) <==>
      && cmd.TripCancel?
      && HoldsText(p, "vinNumber", cmd.vin) && HoldsWhole(p, "requestId", cmd.requestId)
  {
    TextIff(p, "vinNumber");
    WholeIff(p, "requestId");
  }

  /** No other topic leads to a command. */
  lemma OtherTopics(topic: string, p: Payload)
    requires topic != "topic/trip/init" && topic != "topic/trip/move"
    requires topic != "topic/trip/park" && topic != "topic/trip/cancel"
    requires topic != "topic/update_location/order" && topic != "topic/update_status/order"
    ensures Decode(topic, p) == None
  {
  }

  // ---------------------------------------------------------------- documents of the usual form

  /** A coordinate as JSON text has it: with a fraction, or without. */
  predicate Writes(v: Json, x: real) {
    match v
    case Float(y) => y == x
    case Integer(n) => Abs(n) <= 0x20_0000_0000_0000 && x == n as real
    case _ => false
  }

  lemma WrittenIsRead(p: Payload, key: string, v: Json, x: real)
    requires Member(p, key, v) && Writes(v, x)
    ensures HoldsReal(p, key, x)
  {
    if v.Integer? { SmallIdsAreExact(v.n); }
    assert HoldsNumber(v, x);
  }

  lemma IdIsRead(p: Payload, key: string, id: int)
    requires Member(p, key, Integer(id)) && IsInt64(id)
    ensures HoldsWhole(p, key, id)
  {
    assert HoldsId(Integer(id), id);
  }

  /** An init with an id of 64 bits and coordinates that a double can hold arrives unchanged,
      whatever else the document has. */
  lemma TripInitArrives(p: Payload, vin: string, id: int, sLong: Json, sLat: Json, eLong: Json,
                        eLat: Json, x: real, y: real, z: real, u: real)
    requires HoldsText(p, "vinNumber", vin)
    requires Member(p, "requestId", Integer(id)) && IsInt64(id)
    requires Member(p, "startLong", sLong) && Writes(sLong, x)
    requires Member(p, "startLat", sLat) && Writes(sLat, y)
    requires Member(p, "endLong", eLong) && Writes(eLong, z)
    requires Member(p, "endLat", eLat) && Writes(eLat, u)
    ensures Decode("topic/trip/init", p)
         == Some(TripInit(vin := vin, requestId := id, startLong := x, startLat := y,
                          endLong := z, endLat := u))
  {
    IdIsRead(p, "requestId", id);
    WrittenIsRead(p, "startLong", sLong, x);
    WrittenIsRead(p, "startLat", sLat, y);
    WrittenIsRead(p, "endLong", eLong, z);
    WrittenIsRead(p, "endLat", eLat, u);
    TripInitIff(p, TripInit(vin, id, x, y, z, u));
  }

  /** The members that a message on a topic must have. */
  function MembersOf(topic: string): set<string> {
    if topic == "topic/trip/init" then
      {"vinNumber", "requestId", "startLong", "startLat", "endLong", "endLat"}
    else if topic == "topic/trip/move" then {"vinNumber", "tripId", "longitude", "latitude"}
    else if topic == "topic/trip/park" then {"vinNumber", "longitude", "latitude"}
    else if topic == "topic/trip/cancel" then {"vinNumber", "requestId"}
    else {"vinNumber"}
  }

  /** Without one of its members a message is rejected, on every topic. */
  lemma MissingMember(topic: string, p: Payload, key: string)
    requires key in MembersOf(topic) && forall v :: !Member(p, key, v)
    ensures Decode(topic, p) == None
  {
    if Decode(topic, p).Some? {
      var cmd := Decode(topic, p).value;
      if topic == "topic/trip/init" { TripInitIff(p, cmd); }
      else if topic == "topic/trip/move" { TripMoveIff(p, cmd); }
      else if topic == "topic/trip/park" { TripParkIff(p, cmd); }
      else if topic == "topic/trip/cancel" { TripCancelIff(p, cmd); }
      else if topic == "topic/update_location/order" { OrderUpdateLocationIff(p, cmd); }
      else if topic == "topic/update_status/order" { OrderUpdateStatusIff(p, cmd); }
      else { OtherTopics(topic, p); }
    }
  }
}
