/** The class behind `Mqtt`: `MqttClient` with its flags, its vector of pending topics, and the
    work posted to its io_context. Each method is proved to take the step of the model. */
module MqttClients {
  import opened Mqtt

  class MqttClient {
    var started: bool
    var stopped: bool
    var client: bool
    var pendingTopics: seq<string>
    var posted: seq<Callback>
    ghost var receives: nat
    ghost var sent: seq<string>
    ghost var calls: Calls

    ghost function View(): State
      reads this
    {
      State(started, stopped, client, pendingTopics, posted, receives, sent, calls)
    }

    constructor ()
      ensures View() == Init()
    {
      started := false;
      stopped := false;
      client := false;
      pendingTopics := [];
      posted := [];
      receives := 0;
      sent := [];
      calls := Calls([], [], []);
    }

    method Start()
      modifies this
      ensures View() == StartStep(old(View()))
    {
      if started { return; }
      started := true;
      stopped := false;
      client := true;
      sent := [];
      calls := Calls(pendingTopics, [], []);
      posted := [FlushPending];
      receives := 1;
    }

    method BeginStop()
      modifies this
      ensures View() == BeginStopStep(old(View()))
    {
      if !started { return; }
      started := false;
      stopped := true;
    }

    method FinishStop()
      modifies this
      ensures View() == FinishStopStep(old(View()))
    {
      client := false;
      posted := [];
      receives := 0;
      sent := [];
      calls := Calls(pendingTopics, [], []);
    }

    method Subscribe(topic: string)
      modifies this
      ensures View() == SubscribeStep(old(View()), topic)
    {
      pendingTopics := pendingTopics + [topic];
      if started && client {
        posted := posted + [Callback.Subscribe(topic)];
        calls := calls.(after := calls.after + [topic]);
      } else if client {
        calls := calls.(late := calls.late + [topic]);
      } else {
        calls := calls.(before := calls.before + [topic]);
      }
    }

    /** `do_subscribe`. */
    method DoSubscribe(topic: string)
      requires client
      modifies this`sent
      ensures sent == old(sent) + [topic]
    {
      sent := sent + [topic];
    }

    /** The loop over the pending topics, which are cleared after it. */
    method FlushPendingTopics()
      requires client
      modifies this`sent, this`pendingTopics
      ensures View() == Flush(old(View()))
    {
      var i := 0;
      while i < |pendingTopics|
        invariant 0 <= i <= |pendingTopics| && pendingTopics == old(pendingTopics)
        invariant sent == old(sent) + pendingTopics[..i]
      {
        DoSubscribe(pendingTopics[i]);
        i := i + 1;
      }
      pendingTopics := [];
    }

    /** The io_context runs a posted callback. */
    method RunPosted(i: nat)
      requires i < |posted| && client
      modifies this
      ensures View() == RunStep(old(View()), i)
    {
      var cb := posted[i];
      posted := posted[..i] + posted[i + 1..];
      match cb
      case FlushPending => FlushPendingTopics();
      case Subscribe(topic) => DoSubscribe(topic);
    }

    /** The callback of `async_receive`; the message itself goes on to the router. */
    method OnReceive(ok: bool)
      requires receives > 0 && client
      modifies this
      ensures View() == ReceiveStep(old(View()), ok)
    {
      receives := receives - 1;
      if !ok {
        if !stopped { receives := receives + 1; }
        return;
      }
      if pendingTopics != [] { FlushPendingTopics(); }
      if !stopped { receives := receives + 1; }
    }
  }
}
