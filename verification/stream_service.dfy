/** The classes behind `Streams`: the handler objects with their real queues and flags, and the
    static members they share. Each method is proved to take the step of the model. */
module StreamService {
  import opened Wrappers
  import opened Commands
  import opened Phases
  import opened Streams

  /** The object view of a gRPC stream is ghost: the code sees neither the tags it is owed nor
      the commands it has handed over. */
  class VehicleStreamHandler {
    var state: Phase
    var writeQueue: seq<GatewayCommand>
    var writing: bool
    ghost const id: nat
    ghost var mainOps: seq<MainOp>
    ghost var writesInFlight: nat
    ghost var submitted: seq<GatewayCommand>
    ghost var tally: Tally

    ghost function View(): Handler
      reads this
    {
      Handler(state, writeQueue, writing, mainOps, writesInFlight, submitted, tally)
    }

    /** The constructor runs `Proceed(true)` in CREATE, which asks for the next connection. */
    constructor (ghost id: nat)
      ensures View() == NewHandler() && this.id == id
    {
      this.id := id;
      state := Accepting;
      writeQueue := [];
      writing := false;
      mainOps := [AcceptOp];
      writesInFlight := 0;
      submitted := [];
      tally := Tally(0, 0, 0, 0, 0);
    }

    ghost method Write(cmd: GatewayCommand)
      modifies this`submitted, this`writesInFlight, this`tally
      ensures submitted == old(submitted) + [cmd] && writesInFlight == old(writesInFlight) + 1
      ensures tally == if state == Finishing
                       then old(tally).(lateWrites := old(tally).lateWrites + 1) else old(tally)
    {
      submitted := submitted + [cmd];
      writesInFlight := writesInFlight + 1;
      if state == Finishing { tally := tally.(lateWrites := tally.lateWrites + 1); }
    }

    method FlushWriteQueueLocked()
      modifies this
      ensures View() == Flush(old(View()))
    {
      if writeQueue == [] || writing { return; }
      writing := true;
      Write(writeQueue[0]);
      writeQueue := writeQueue[1..];
    }

    method Enqueue(cmd: GatewayCommand)
      modifies this
      ensures View() == Streams.Enqueue(old(View()), cmd)
    {
      writeQueue := writeQueue + [cmd];
      if !writing { FlushWriteQueueLocked(); }
    }

    /** `stream_.Read(&incoming_, this)`. */
    ghost method StartRead()
      modifies this`mainOps
      ensures View() == Streams.StartRead(old(View()))
    {
      mainOps := mainOps + [ReadOp];
    }

    /** `stream_.Finish(Status::OK, this)`. */
    ghost method Finish()
      modifies this`mainOps, this`tally
      ensures mainOps == old(mainOps) + [FinishOp]
      ensures tally == old(tally).(finishes := old(tally).finishes + 1)
    {
      mainOps := mainOps + [FinishOp];
      tally := tally.(finishes := tally.finishes + 1);
    }

    method FinishStream()
      modifies this
      ensures View() == StartFinish(old(View()))
    {
      state := Finishing;
      Finish();
    }

    /** `delete this`. */
    method Destroy()
      modifies this
      ensures View() == Delete(old(View()))
    {
      state := Deleted;
      tally := tally.(deletions := tally.deletions + 1);
    }

    /** The completion queue hands this handler back as the tag of operation `op`. */
    ghost method TakeTag(op: MainOp)
      requires op in mainOps
      modifies this`mainOps
      ensures View() == TakeMainTag(old(View()), op)
    {
      mainOps := WithoutOne(mainOps, op);
    }

    /** The caller has taken the writer tag back. */
    method OnWriteDone(ok: bool)
      modifies this
      ensures View() == Streams.OnWriteDone(old(View()), ok)
    {
      if !ok {
        writing := false;
        tally := tally.(failedWrites := tally.failedWrites + 1);
        return;
      }
      writing := false;
      tally := tally.(okWrites := tally.okWrites + 1);
      FlushWriteQueueLocked();
    }
  }

  /** The static members of `VehicleStreamHandler`, and all handlers ever constructed. `model` is
      the state of `Streams` that `Valid` ties to the objects. */
  class CommandStream {
    var active: VehicleStreamHandler?
    var pendingCommands: seq<GatewayCommand>
    ghost var handlers: seq<VehicleStreamHandler>
    ghost var model: State

    ghost predicate Valid()
      reads this, handlers
    {
      && |model.handlers| == |handlers|
      && (forall i :: 0 <= i < |handlers| ==> handlers[i].id == i)
      && (forall i :: 0 <= i < |handlers| ==> handlers[i].View() == model.handlers[i])
      && (active != null ==> Owns(active))
      && model.active == (if active == null then None else Some(active.id))
      && model.pending == pendingCommands
    }

    ghost predicate Owns(h: VehicleStreamHandler)
      reads this
    {
      h.id < |handlers| && handlers[h.id] == h
    }

    /** `handlers` continues `before` with objects allocated since. */
    twostate predicate OnlyNewHandlers(before: seq<VehicleStreamHandler>)
      reads this
    {
      && before <= handlers
      && forall i :: |before| <= i < |handlers| ==> fresh(handlers[i])
    }

    /** `GrpcServer::start` constructs the first handler. */
    constructor ()
      ensures Valid() && model == Init() && fresh(handlers)
    {
      var h := new VehicleStreamHandler(0);
      active := null;
      pendingCommands := [];
      handlers := [h];
      model := Init();
    }

    method PushCommand(cmd: GatewayCommand)
      requires Valid()
      modifies this`pendingCommands, this`model, handlers
      ensures Valid() && model == PushStep(old(model), cmd)
    {
      var h := active;
      model := PushStep(model, cmd);
      if h == null {
        pendingCommands := pendingCommands + [cmd];
        return;
      }
      h.Enqueue(cmd);
    }

    /** `flush_pending(h)`, while the model still stands before the step. */
    method FlushPending(h: VehicleStreamHandler)
      modifies this`pendingCommands, h
      ensures pendingCommands == []
      ensures h.View() == EnqueueAll(old(h.View()), old(pendingCommands))
    {
      while pendingCommands != []
        invariant EnqueueAll(h.View(), pendingCommands)
               == EnqueueAll(old(h.View()), old(pendingCommands))
        decreases |pendingCommands|
      {
        h.Enqueue(pendingCommands[0]);
        pendingCommands := pendingCommands[1..];
      }
    }

    /** `active_.compare_exchange_strong(h, nullptr)`. */
    method ExchangeActive(h: VehicleStreamHandler)
      modifies this`active
      ensures active == if old(active) == h then null else old(active)
    {
      if active == h { active := null; }
    }

    /** The ACCEPTING branch of `Proceed` when a client has connected. */
    method Accept(h: VehicleStreamHandler, ghost op: MainOp)
      requires Valid() && Owns(h) && op in h.mainOps && h.state == Accepting
      modifies this, h
      ensures Valid() && OnlyNewHandlers(old(handlers))
      ensures model == ProceedStep(old(model), h.id, op, true)
    {
      h.TakeTag(op);
      model := AcceptStep(model, h.id, h.View());
      var sibling := new VehicleStreamHandler(|handlers|);
      handlers := handlers + [sibling];
      active := h;
      OpenStream(h);
    }

    /** The rest of that branch, from `flush_pending` to the first Read. */
    method OpenStream(h: VehicleStreamHandler)
      modifies this`pendingCommands, h
      ensures pendingCommands == []
      ensures h.View() == Accepted(old(h.View()), old(pendingCommands))
    {
      FlushPending(h);
      h.state := Reading;
      h.StartRead();
    }

    /** The READING branch. */
    method Read(h: VehicleStreamHandler, ghost op: MainOp, ok: bool)
      requires Valid() && Owns(h) && op in h.mainOps && h.state == Reading
      modifies this`active, this`model, h
      ensures Valid() && model == ProceedStep(old(model), h.id, op, ok)
    {
      model := ProceedStep(model, h.id, op, ok);
      h.TakeTag(op);
      if !ok {
        ExchangeActive(h);
        h.FinishStream();
        return;
      }
      h.StartRead();
    }

    /** `Proceed(ok)` of handler `h`, which the completion queue hands back for `op`. */
    method Proceed(h: VehicleStreamHandler, ghost op: MainOp, ok: bool)
      requires Valid() && Owns(h) && op in h.mainOps
      modifies this, h
      ensures Valid() && OnlyNewHandlers(old(handlers))
      ensures model == ProceedStep(old(model), h.id, op, ok)
    {
      if h.state == Accepting && ok {
        Accept(h, op);
      } else if h.state == Reading {
        Read(h, op, ok);
      } else {
        model := ProceedStep(model, h.id, op, ok);
        h.TakeTag(op);
        if h.state == Finishing { ExchangeActive(h); }
        if h.state != Deleted { h.Destroy(); }
      }
    }

    /** `StreamWriter::Proceed(ok)` of the writer that handler `h` owns. */
    method WriterProceed(h: VehicleStreamHandler, ok: bool)
      requires Valid() && Owns(h) && h.writesInFlight > 0
      modifies this`model, h
      ensures Valid() && model == WriteDoneStep(old(model), h.id, ok)
    {
      model := WriteDoneStep(model, h.id, ok);
      h.writesInFlight := h.writesInFlight - 1;
      if h.state != Deleted { h.OnWriteDone(ok); }
    }
  }
}
