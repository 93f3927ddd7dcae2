/** The inbound command path as the messages see it: what each MQTT message means, and what a
    whole run of messages and stream tags leads to. */
module Inbound {
  import opened Wrappers
  import opened Commands
  import opened Float64
  import opened Json
  import Streams
  import StreamTheorems

  const TOPIC_TRIP_INIT: string := "topic/trip/init"
  const TOPIC_TRIP_MOVE: string := "topic/trip/move"
  const TOPIC_TRIP_PARK: string := "topic/trip/park"
  const TOPIC_ORDER_UPDATE_LOCATION: string := "topic/update_location/order"
  const TOPIC_ORDER_UPDATE_STATUS: string := "topic/update_status/order"
  const TOPIC_TRIP_CANCEL: string := "topic/trip/cancel"

  /** A payload, parsed; `None` for text that is not JSON. */
  type Payload = Option<Json>

  // ---------------------------------------------------------------- the meaning of a message

  predicate HasString(p: Payload, key: string) {
    GetString(At(p, key)).Some?
  }

  predicate HasInt64(p: Payload, key: string) {
    GetInt64(At(p, key)).Some?
  }

  predicate HasDouble(p: Payload, key: string) {
    GetDouble(At(p, key)).Some?
  }

  /** The messages that lead to a command: those on a registered topic that have every member
      the topic demands, of the right kind. */
  predicate WellFormed(topic: string, p: Payload) {
    && HasString(p, "vinNumber")
    && if topic == TOPIC_TRIP_INIT then
         && HasInt64(p, "requestId")
         && HasDouble(p, "startLong") && HasDouble(p, "startLat")
         && HasDouble(p, "endLong") && HasDouble(p, "endLat")
       else if topic == TOPIC_TRIP_MOVE then
         HasInt64(p, "tripId") && HasDouble(p, "longitude") && HasDouble(p, "latitude")
       else if topic == TOPIC_TRIP_PARK then
         HasDouble(p, "longitude") && HasDouble(p, "latitude")
       else if topic == TOPIC_TRIP_CANCEL then
         HasInt64(p, "requestId")
       else
         topic == TOPIC_ORDER_UPDATE_LOCATION || topic == TOPIC_ORDER_UPDATE_STATUS
  }

  function StringAt(p: Payload, key: string): string
    requires HasString(p, key)
  {
    GetString(At(p, key)).value
  }

  function Int64At(p: Payload, key: string): int
    requires HasInt64(p, key)
  {
    GetInt64(At(p, key)).value
  }

  function DoubleAt(p: Payload, key: string): real
    requires HasDouble(p, key)
  {
    GetDouble(At(p, key)).value
  }

  /** The command that a well-formed message stands for: each member of the document goes to
      the protobuf field of its name. */
  function Meaning(topic: string, p: Payload): GatewayCommand
    requires WellFormed(topic, p)
  {
    var vin := StringAt(p, "vinNumber");
    if topic == TOPIC_TRIP_INIT then
      TripInit(vin := vin, requestId := Int64At(p, "requestId"),
               startLong := DoubleAt(p, "startLong"), startLat := DoubleAt(p, "startLat"),
               endLong := DoubleAt(p, "endLong"), endLat := DoubleAt(p, "endLat"))
    else if topic == TOPIC_TRIP_MOVE then
      TripMove(vin := vin, tripId := Int64At(p, "tripId"),
               longitude := DoubleAt(p, "longitude"), latitude := DoubleAt(p, "latitude"))
    else if topic == TOPIC_TRIP_PARK then
      TripPark(vin := vin, longitude := DoubleAt(p, "longitude"),
               latitude := DoubleAt(p, "latitude"))
    else if topic == TOPIC_ORDER_UPDATE_LOCATION then OrderUpdateLocation(vin)
    else if topic == TOPIC_ORDER_UPDATE_STATUS then OrderUpdateStatus(vin)
    else TripCancel(vin := vin, requestId := Int64At(p, "requestId"))
  }

  function Decode(topic: string, p: Payload): Option<GatewayCommand> {
    if WellFormed(topic, p) then Some(Meaning(topic, p)) else None
  }

  // ---------------------------------------------------------------- the gateway as a state

  /** The fields of `TripOrchestrator` and the command stream. `requestId` is the value of a
      `double`. */
  datatype System = System(tripId: int, requestId: int, stream: Streams.State)

  datatype Input =
    | Message(topic: string, payload: Payload)
    | Tag(event: Streams.Event)

  /** What a message that decodes to `decoded` does. */
  function Deliver(s: System, decoded: Option<GatewayCommand>): System {
    match decoded
    case None => s
    case Some(cmd) =>
      s.(tripId := if cmd.TripMove? then cmd.tripId else s.tripId,
         requestId := if cmd.TripInit? then ToDouble(cmd.requestId) else s.requestId,
         stream := Streams.PushStep(s.stream, cmd))
  }

  function Receive(s: System, topic: string, p: Payload): System {
    Deliver(s, Decode(topic, p))
  }

  predicate Enabled(s: System, i: Input) {
    i.Message? || (!i.event.Push? && Streams.Enabled(s.stream, i.event))
  }

  function Step(s: System, i: Input): System
    requires Enabled(s, i)
  {
    match i
    case Message(topic, p) => Receive(s, topic, p)
    case Tag(e) => s.(stream := Streams.Step(s.stream, e))
  }

  function Start(): System {
    System(0, 0, Streams.Init())
  }

  ghost predicate IsRun(inputs: seq<Input>) {
    inputs == [] || (IsRun(inputs[..|inputs| - 1])
                     && Enabled(After(inputs[..|inputs| - 1]), inputs[|inputs| - 1]))
  }

  ghost function After(inputs: seq<Input>): System
    decreases |inputs|
  {
    if inputs == [] then Start()
    else
      var before := After(inputs[..|inputs| - 1]);
      if Enabled(before, inputs[|inputs| - 1]) then Step(before, inputs[|inputs| - 1]) else before
  }

  // ---------------------------------------------------------------- what a run leads to

  /** The command that an input brings, if any. */
  function CommandIn(i: Input): Option<GatewayCommand> {
    match i
    case Message(topic, p) => Decode(topic, p)
    case Tag(_) => None
  }

  function Append<T>(xs: seq<T>, x: Option<T>): seq<T> {
    match x
    case None => xs
    case Some(v) => xs + [v]
  }

  /** The commands of the well-formed messages, in order. */
  function CommandsOf(inputs: seq<Input>): seq<GatewayCommand>
    decreases |inputs|
  {
    if inputs == [] then []
    else Append(CommandsOf(inputs[..|inputs| - 1]), CommandIn(inputs[|inputs| - 1]))
  }

  function LastTripId(cmds: seq<GatewayCommand>): int
    decreases |cmds|
  {
    if cmds == [] then 0
    else if cmds[|cmds| - 1].TripMove? then cmds[|cmds| - 1].tripId
    else LastTripId(cmds[..|cmds| - 1])
  }

  function LastRequestId(cmds: seq<GatewayCommand>): int
    decreases |cmds|
  {
    if cmds == [] then 0
    else if cmds[|cmds| - 1].TripInit? then cmds[|cmds| - 1].requestId
    else LastRequestId(cmds[..|cmds| - 1])
  }

  /** What the command stream sees of an input. */
  ghost function StreamEvent(i: Input): Option<Streams.Event> {
    match i
    case Message(topic, p) =>
      (match Decode(topic, p) case None => None case Some(cmd) => Some(Streams.Push(cmd)))
    case Tag(e) => Some(e)
  }

  /** The run of the command stream inside a run of the gateway. */
  ghost function StreamEvents(inputs: seq<Input>): seq<Streams.Event>
    decreases |inputs|
  {
    if inputs == [] then []
    else Append(StreamEvents(inputs[..|inputs| - 1]), StreamEvent(inputs[|inputs| - 1]))
  }

  lemma StreamSnoc(es: seq<Streams.Event>, s: Streams.State, e: Streams.Event)
    requires StreamTheorems.LeadsTo(es, s) && Streams.Enabled(s, e)
    ensures StreamTheorems.LeadsTo(es + [e], Streams.Step(s, e))
  {
    assert (es + [e])[..|es + [e]| - 1] == es;
  }

  lemma PushesSnoc(es: seq<Streams.Event>, e: Streams.Event)
    ensures StreamTheorems.Pushes(es + [e])
         == StreamTheorems.Pushes(es) + (if e.Push? then [e.cmd] else [])
  {
    assert (es + [e])[..|es + [e]| - 1] == es;
  }

  lemma LastOfSnoc(cmds: seq<GatewayCommand>, cmd: GatewayCommand)
    ensures LastTripId(cmds + [cmd]) == if cmd.TripMove? then cmd.tripId else LastTripId(cmds)
    ensures LastRequestId(cmds + [cmd])
         == if cmd.TripInit? then cmd.requestId else LastRequestId(cmds)
  {
    assert (cmds + [cmd])[..|cmds + [cmd]| - 1] == cmds;
  }

  /** The gateway in state `s` has received `cmds`, and its stream has seen `es`. */
  ghost predicate Projects(s: System, es: seq<Streams.Event>, cmds: seq<GatewayCommand>) {
    && StreamTheorems.LeadsTo(es, s.stream) && StreamTheorems.Pushes(es) == cmds
    && s.tripId == LastTripId(cmds)
    && s.requestId == ToDouble(LastRequestId(cmds))
  }

  lemma DeliverProjects(s: System, es: seq<Streams.Event>, cmds: seq<GatewayCommand>,
                        cmd: GatewayCommand)
    requires Projects(s, es, cmds)
    ensures Projects(Deliver(s, Some(cmd)), es + [Streams.Push(cmd)], cmds + [cmd])
  {
    StreamSnoc(es, s.stream, Streams.Push(cmd));
    PushesSnoc(es, Streams.Push(cmd));
    LastOfSnoc(cmds, cmd);
  }

  lemma TagProjects(s: System, es: seq<Streams.Event>, cmds: seq<GatewayCommand>,
                    e: Streams.Event)
    requires Projects(s, es, cmds) && !e.Push? && Streams.Enabled(s.stream, e)
    ensures Projects(s.(stream := Streams.Step(s.stream, e)), es + [e], cmds)
  {
    StreamSnoc(es, s.stream, e);
    PushesSnoc(es, e);
  }

  lemma InputProjects(s: System, es: seq<Streams.Event>, cmds: seq<GatewayCommand>, i: Input)
    requires Projects(s, es, cmds) && Enabled(s, i)
    ensures Projects(Step(s, i), Append(es, StreamEvent(i)), Append(cmds, CommandIn(i)))
  {
    match i
    case Tag(e) => TagProjects(s, es, cmds, e);
    case Message(topic, p) =>
      match Decode(topic, p)
      case None =>
      case Some(cmd) => DeliverProjects(s, es, cmds, cmd);
  }

  lemma {:induction false} RunProjects(inputs: seq<Input>)
    requires IsRun(inputs)
    ensures Projects(After(inputs), StreamEvents(inputs), CommandsOf(inputs))
    decreases |inputs|
  {
    if inputs == [] {
      SmallIdsAreExact(0);
    } else {
      var front := inputs[..|inputs| - 1];
      RunProjects(front);
      InputProjects(After(front), StreamEvents(front), CommandsOf(front), inputs[|inputs| - 1]);
    }
  }

  /** End to end: whatever MQTT messages arrive and however clients connect and disconnect in
      between, the in-order meaning of the well-formed messages is, stream by stream in accept
      order, what was submitted to Write and what is still queued, then the pending commands;
      the trip id is that of the last valid move, and the request id is the double nearest to
      that of the last valid init. */
  lemma EndToEnd(inputs: seq<Input>, s: System)
    requires IsRun(inputs) && s == After(inputs)
    ensures
      && (forall k :: 0 <= k < |s.stream.accepted| ==>
          s.stream.accepted[k] == k < |s.stream.handlers|)
      && CommandsOf(inputs)
         == Streams.Record(s.stream.handlers, s.stream.accepted) + s.stream.pending
      && s.tripId == LastTripId(CommandsOf(inputs))
      && s.requestId == ToDouble(LastRequestId(CommandsOf(inputs)))
  {
    RunProjects(inputs);
    StreamTheorems.Ordering(StreamEvents(inputs), s.stream);
  }

  /** A message that is malformed, or on a topic without handler, changes nothing at all. */
  lemma RejectedMessageIsIgnored(s: System, topic: string, p: Payload)
    requires !WellFormed(topic, p)
    ensures Receive(s, topic, p) == s
  {
  }

  /** A message that is malformed, or on a topic without handler. */
  predicate Rejected(i: Input) {
    i.Message? && CommandIn(i) == None
  }

  /** The inputs without the rejected messages. */
  function Accepted(inputs: seq<Input>): seq<Input>
    decreases |inputs|
  {
    if inputs == [] then []
    else
      var front, last := inputs[..|inputs| - 1], inputs[|inputs| - 1];
      if Rejected(last) then Accepted(front) else Accepted(front) + [last]
  }

  /** Rejected messages leave no trace: the run without them leads to the same state, ids, streams
      and pending commands included, and the same inputs stay possible. */
  lemma {:induction false} RejectedLeaveNoTrace(inputs: seq<Input>)
    requires IsRun(inputs)
    ensures IsRun(Accepted(inputs)) && After(Accepted(inputs)) == After(inputs)
    decreases |inputs|
  {
    if inputs != [] {
      var front, last := inputs[..|inputs| - 1], inputs[|inputs| - 1];
      RejectedLeaveNoTrace(front);
      if Rejected(last) {
        RejectedMessageIsIgnored(After(front), last.topic, last.payload);
      } else {
        assert Accepted(inputs)[..|Accepted(inputs)| - 1] == Accepted(front);
      }
    }
  }

  /** `active_request_id()`: the stored double, converted back. */
  function ActiveRequestId(s: System): int {
    DoubleToInt64(s.requestId as real)
  }

  /** `r` is `id`, or close to it: equal up to 2^53, and the double nearest to it, within 512, below
      2^63 - 512. */
  ghost predicate ReadsBack(id: int, r: int) {
    && (Abs(id) <= TWO_53 ==> r == id)
    && (id < INT64_MAX - 511 ==> r == ToDouble(id) && Abs(r - id) <= 512)
  }

  lemma StoredIdReadsBack(s: System, id: int)
    requires IsInt64(id) && s.requestId == ToDouble(id)
    ensures ReadsBack(id, ActiveRequestId(s))
  {
    IdsStayInRange(id);
    if Abs(id) <= TWO_53 { SmallIdsAreExact(id); }
    assert Truncate(ToDouble(id) as real) == ToDouble(id);
  }

  lemma StoredRequestId(inputs: seq<Input>)
    requires IsRun(inputs)
    ensures After(inputs).requestId == ToDouble(LastRequestId(CommandsOf(inputs)))
  {
    RunProjects(inputs);
  }

  /** After any run the request id that is read back is exactly the one of the last valid init
      up to 2^53, and within 512 of it for every id below 2^63 - 512. */
  lemma RequestIdReadBack(inputs: seq<Input>, s: System, id: int)
    requires IsRun(inputs) && s == After(inputs) && id == LastRequestId(CommandsOf(inputs))
    ensures IsInt64(id) && ReadsBack(id, ActiveRequestId(s))
  {
    StoredRequestId(inputs);
    RequestIdsAreInt64(inputs);
    StoredIdReadsBack(s, id);
  }

  lemma DecodedIdIsInt64(i: Input)
    requires CommandIn(i).Some? && CommandIn(i).value.TripInit?
    ensures IsInt64(CommandIn(i).value.requestId)
  {
    assert WellFormed(i.topic, i.payload);
    assert CommandIn(i).value == Meaning(i.topic, i.payload);
    assert i.topic == TOPIC_TRIP_INIT;
  }

  lemma AppendedIdIsInt64(cmds: seq<GatewayCommand>, next: Option<GatewayCommand>)
    requires IsInt64(LastRequestId(cmds))
    requires next.Some? && next.value.TripInit? ==> IsInt64(next.value.requestId)
    ensures IsInt64(LastRequestId(Append(cmds, next)))
  {
    if next.Some? { LastOfSnoc(cmds, next.value); }
  }

  lemma {:induction false} RequestIdsAreInt64(inputs: seq<Input>)
    ensures IsInt64(LastRequestId(CommandsOf(inputs)))
    decreases |inputs|
  {
    if inputs != [] {
      var front := inputs[..|inputs| - 1];
      var last := inputs[|inputs| - 1];
      RequestIdsAreInt64(front);
      if CommandIn(last).Some? && CommandIn(last).value.TripInit? { DecodedIdIsInt64(last); }
      AppendedIdIsInt64(CommandsOf(front), CommandIn(last));
    }
  }
}
