/** The client object that keeps the state machine of `WorkerModel`. */
module WorkerClients {
  import opened Messages
  import opened WorkerModel

  /** The client object.  `connected`: the control pipe and result queue exist; `running`: a process was
      spawned and is not known to be gone. */
  class WorkerClient {
    var state: WorkerState
    var activeId: Option<RequestId>
    var connected: bool
    var running: bool

    ghost predicate Valid()
      reads this
    {
      && (state in {Starting, WorkerState.Ready, Busy, Stopping} ==> connected)
      && (state.Busy? ==> activeId.Some?)
      && (state.Created? || state.Starting? ==> !running)
      && (state.Created? || state.Stopped? ==> !connected)
    }

    function View(): Worker
      reads this
    {
      Worker(state, activeId)
    }

    constructor ()
      ensures Valid() && View() == Worker(Created, None)
    {
      state, activeId, connected, running := Created, None, false, false;
    }

    // Succeeds only on the worker's own ready notice.
    method Start(startup: Startup) returns (ok: bool)
      requires Valid()
      modifies this
      ensures Valid()
      ensures View() == WorkerModel.Start(old(View()), startup)
      ensures ok <==> old(state).Created? && state.Ready?
      ensures old(state).Created? && startup.FirstRead? ==>
        && (state.Ready? <==> startup.read.Got? && startup.read.message.kind.WorkerReady?)
        && (state.Ready? || state.Failed?) && running == state.Ready?
      ensures old(state).Created? && startup.SpawnFails? ==> state.Starting? && !running
    {
      if !state.Created? { return false; }
      state, connected := Starting, true;
      if startup.SpawnFails? { return false; }
      running := true;
      match startup.read {
        case Got(m) =>
          if m.kind.WorkerReady? {
            state := WorkerState.Ready;
            return true;
          }
        case _ =>
      }
      state := WorkerState.Failed;
      TerminateAndJoin();
      ok := false;
    }

    method Submit(id: RequestId, pipeOpen: bool) returns (sent: Sent)
      requires Valid()
      modifies this
      ensures Valid()
      ensures (View(), sent) == Send(old(View()), id, pipeOpen)
    {
      if !state.Ready? { return NotReady; }
      if !pipeOpen {
        state := WorkerState.Failed;
        return PipeBroken;
      }
      activeId, state := Some(id), Busy;
      sent := Accepted;
    }

    method Receive(read: Read) returns (received: Received)
      requires Valid()
      modifies this
      ensures Valid()
      ensures (View(), received) == WorkerModel.Receive(old(View()), read)
    {
      if !state.Busy? && !state.Stopping? { return NotBusy; }
      match read {
        case Nothing(alive) =>
          if alive { return TimedOut; }
          state, running := WorkerState.Failed, false;
          return Broke(WorkerExited);
        case Unreadable =>
          state := WorkerState.Failed;
          return Broke(WorkerTransportFailed);
        case Foreign =>
          state := WorkerState.Failed;
          return Broke(InvalidWorkerMessage);
        case Got(m) =>
          if m.requestId.Some? && activeId.Some? && m.requestId != activeId {
            state := WorkerState.Failed;
            return Broke(RequestIdMismatch);
          }
          if Terminal(m.kind) {
            activeId := None;
            if !state.Stopping? { state := WorkerState.Ready; }
          }
          received := Delivered(m);
      }
    }

    method CancelActive() returns (cancelled: Option<RequestId>)
      requires Valid()
      modifies this
      ensures Valid()
      ensures (View(), cancelled) == WorkerModel.CancelActive(old(View()))
      ensures cancelled.Some? ==> !connected && !running
    {
      if !state.Busy? || activeId.None? { return None; }
      cancelled := activeId;
      TerminateAndJoin();
      activeId, state := None, Stopped;
      connected := false;
    }

    // `ack` is the read that follows the shutdown command, if that can be sent.  Whatever happens, the worker
    // ends up stopped; its process is gone unless the command could not be sent.  Between calls a worker is starting
    // only if its process could not be spawned; joining it raises.
    method Shutdown(pipeOpen: bool, ack: Read) returns (raised: bool)
      requires Valid()
      modifies this
      ensures Valid()
      ensures View() == WorkerModel.Shutdown(old(View())) && state.Stopped? && !connected
      ensures raised == ShutdownRaises(old(View()), pipeOpen)
      ensures raised <==> old(state).Starting? || (!pipeOpen && (old(state).Ready? || old(state).Stopping?))
      ensures running ==> (raised && !old(state).Starting?) || old(state).Stopped?
      ensures old(state).Stopped? ==> running == old(running)
    {
      raised := false;
      if state.Stopped? { return; }
      if state.Created? {
        state := Stopped;
        return;
      }
      if state.Busy? {
        var cancelled := CancelActive();
        return;
      }
      if state.Failed? {
        TerminateAndJoin();
        connected := false;
        state := Stopped;
        return;
      }
      var spawned := !state.Starting?;
      state := Stopping;
      if !pipeOpen || !spawned {
        raised := true;
      } else if ack.Got? && ack.message.kind.ShutdownAck? {
        running := false;
      } else {
        TerminateAndJoin();
      }
      state, connected := Stopped, false;
    }

    method TerminateAndJoin()
      modifies `running
      ensures !running
    {
      running := false;
    }
  }
}
