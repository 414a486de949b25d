/** The parent's handle on one worker process, as a state machine on values. */
module WorkerModel {
  import opened Messages

  datatype WorkerState = Created | Starting | Ready | Busy | Stopping | Stopped | Failed

  // What the scheduler can observe of a client.
  datatype Worker = Worker(state: WorkerState, activeId: Option<RequestId>)

  // What one read of the result queue yields.  `Nothing` is an elapsed timeout, after which the
  // client looks at the process; `Unreadable` is a transport error; `Foreign` is not a WorkerMessage.
  datatype Read = Got(message: Message) | Nothing(alive: bool) | Unreadable | Foreign

  // How `receive` ends: a message, a timeout, a failure that marks the worker failed, or a state error.
  datatype Received = Delivered(message: Message) | TimedOut | Broke(code: Code) | NotBusy

  datatype Sent = Accepted | PipeBroken | NotReady

  // What happens to a spawned process before its first message, or that first read.
  datatype Startup = SpawnFails | FirstRead(read: Read)

  function Send(w: Worker, id: RequestId, pipeOpen: bool): (Worker, Sent) {
    if !w.state.Ready? then (w, NotReady)
    else if !pipeOpen then (w.(state := Failed), PipeBroken)
    else (Worker(Busy, Some(id)), Accepted)
  }

  function Receive(w: Worker, read: Read): (Worker, Received) {
    if !w.state.Busy? && !w.state.Stopping? then (w, NotBusy)
    else match read
      case Nothing(alive) => if alive then (w, TimedOut) else (w.(state := Failed), Broke(WorkerExited))
      case Unreadable => (w.(state := Failed), Broke(WorkerTransportFailed))
      case Foreign => (w.(state := Failed), Broke(InvalidWorkerMessage))
      case Got(m) =>
        if m.requestId.Some? && w.activeId.Some? && m.requestId != w.activeId then
          (w.(state := Failed), Broke(RequestIdMismatch))
        else if Terminal(m.kind) then
          (Worker(if w.state.Stopping? then Stopping else Ready, None), Delivered(m))
        else (w, Delivered(m))
  }

  function CancelActive(w: Worker): (Worker, Option<RequestId>) {
    if w.state.Busy? && w.activeId.Some? then (Worker(Stopped, None), w.activeId) else (w, None)
  }

  function Shutdown(w: Worker): Worker {
    if w.state.Stopped? then w
    else if w.state.Busy? then CancelActive(w).0
    else w.(state := Stopped)
  }

  // The shutdown command of a worker that is up does not go through, or the worker's process could not be started, so
  // that it cannot be joined either: `shutdown` raises, with the worker stopped.
  predicate ShutdownRaises(w: Worker, pipeOpen: bool) {
    w.state.Starting? || (w.state in {Ready, Stopping} && !pipeOpen)
  }

  function Start(w: Worker, startup: Startup): Worker {
    if !w.state.Created? then w
    else match startup
      case SpawnFails => w.(state := Starting)
      case FirstRead(Got(m)) => if m.kind.WorkerReady? then w.(state := Ready) else w.(state := Failed)
      case FirstRead(_) => w.(state := Failed)
  }
}
