/** The scheduler as a function of its state: what each operation does, for every behaviour of the
    clock, the pipes and the worker processes.  The class in `Schedulers` is proved against it. */
module SchedulerSpec {
  import opened Messages
  import opened WorkerModel

  datatype Request = Request(id: RequestId, stream: bool, payload: int)

  datatype Pending = Pending(request: Request, enqueuedAt: real)

  datatype Config = Config(
    maxPending: nat,
    queueTimeout: Option<real>,
    maxInference: Option<real>,
    maxConcurrent: Option<nat>)

  // The history of a run.  `admitted`: accepted ids in order, `queued` those that had to wait;
  // `dispatched`: ids sent to a worker in order, `dequeued` those that had waited;
  // `reports`: every message ever queued as an event or returned by `cancel`;
  // `dropped`: ids that left the scheduler without a report.
  datatype Log = Log(
    admitted: seq<RequestId>,
    queued: seq<RequestId>,
    dispatched: seq<RequestId>,
    dequeued: seq<RequestId>,
    reports: seq<Message>,
    dropped: seq<RequestId>)

  datatype State = State(
    config: Config,
    workers: seq<Worker>,
    pending: seq<Pending>,
    active: map<nat, RequestId>,
    started: map<nat, real>,
    submitted: set<RequestId>,
    events: seq<Message>,
    closed: bool,
    log: Log)

  // What one visit of the poll loop to a worker meets: the read, the clock afterwards, and the
  // workers whose control pipe rejects a send at that time.
  datatype Reply = Reply(read: Read, at: real, broken: set<nat>)

  datatype Reason = SchedulerClosed | DuplicateRequestId | QueueFull | NoHealthy | SendFailed | RequestNotFound

  datatype Submitted = Dispatched | Queued | Rejected(reason: Reason)

  datatype Polled = Events(events: seq<Message>) | PollRaised

  datatype CancelResult = CancelEvent(event: Message) | CancelRejected(reason: Reason)

  /* ---- Small steps: each moves one request from one place to another ---- */

  function Emit(s: State, m: Message): State {
    s.(events := s.events + [m], log := s.log.(reports := s.log.reports + [m]))
  }

  // The oldest queued request leaves the queue with the report `m`.
  function RetireHead(s: State, m: Message): State
    requires s.pending != []
  {
    Emit(s.(pending := s.pending[1..]), m)
  }

  // A send to worker `i` failed.
  function Break(s: State, i: nat): State
    requires i < |s.workers|
  {
    s.(workers := s.workers[i := s.workers[i].(state := Failed)])
  }

  // Worker `i` gives up its request and becomes `w`.
  function Release(s: State, i: nat, w: Worker): State
    requires i < |s.workers|
  {
    s.(workers := s.workers[i := w], active := s.active - {i}, started := s.started - {i})
  }

  function Assign(s: State, i: nat, id: RequestId, now: real): State
    requires i < |s.workers|
  {
    s.(workers := s.workers[i := Worker(Busy, Some(id))],
       active := s.active[i := id],
       started := s.started[i := now],
       log := s.log.(dispatched := s.log.dispatched + [id]))
  }

  function AssignHead(s: State, i: nat, now: real): State
    requires i < |s.workers| && s.pending != []
  {
    var id := s.pending[0].request.id;
    var s1 := Assign(s.(pending := s.pending[1..]), i, id, now);
    s1.(log := s1.log.(dequeued := s1.log.dequeued + [id]))
  }

  // The queue's head was taken out and its send failed: the request is in no collection any more.
  function LoseHead(s: State, i: nat): State
    requires i < |s.workers| && s.pending != []
  {
    s.(pending := s.pending[1..],
       workers := s.workers[i := s.workers[i].(state := Failed)],
       log := s.log.(dropped := s.log.dropped + [s.pending[0].request.id]))
  }

  // Only an admission or `close` changes these, and the queue does not grow.
  predicate Continues(s: State, r: State) {
    && r.config == s.config && r.submitted == s.submitted && r.closed == s.closed
    && |r.workers| == |s.workers|
    && |r.pending| <= |s.pending|
    && r.log.admitted == s.log.admitted && r.log.queued == s.log.queued
  }

  /* ---- Queries ---- */

  predicate Healthy(w: Worker) {
    !w.state.Failed? && !w.state.Stopped? && !w.state.Stopping?
  }

  predicate AnyHealthy(ws: seq<Worker>) {
    exists i :: 0 <= i < |ws| && Healthy(ws[i])
  }

  // The position of the first ready worker, or the number of workers.
  function FirstReady(ws: seq<Worker>): (r: nat)
    ensures r <= |ws|
    ensures r < |ws| ==> ws[r].state.Ready?
    ensures forall i :: 0 <= i < r ==> !ws[i].state.Ready?
  {
    if ws == [] || ws[0].state.Ready? then 0 else 1 + FirstReady(ws[1..])
  }

  predicate BelowCap(s: State) {
    s.config.maxConcurrent.None? || |s.active| < s.config.maxConcurrent.value
  }

  predicate Overdue(p: Pending, now: real, timeout: real) {
    now - p.enqueuedAt >= timeout
  }

  // The position of a queued request, or the length of the queue.
  function IndexOf(pending: seq<Pending>, id: RequestId): (r: nat)
    ensures r <= |pending|
    ensures r < |pending| ==> pending[r].request.id == id
    ensures forall k :: 0 <= k < r ==> pending[k].request.id != id
  {
    if pending == [] || pending[0].request.id == id then 0 else 1 + IndexOf(pending[1..], id)
  }

  // The first worker from `i` on that is running `id`, or the number of workers.
  function HolderFrom(s: State, i: nat, id: RequestId): (r: nat)
    requires i <= |s.workers|
    ensures i <= r <= |s.workers|
    ensures r < |s.workers| ==> r in s.active && s.active[r] == id
    ensures forall k :: i <= k < r ==> !(k in s.active && s.active[k] == id)
    decreases |s.workers| - i
  {
    if i == |s.workers| || (i in s.active && s.active[i] == id) then i else HolderFrom(s, i + 1, id)
  }

  /* ---- Expiry and failure of requests ---- */

  function ExpireHeads(s: State, now: real, timeout: real): (r: State)
    ensures Continues(s, r) && r.workers == s.workers
    decreases |s.pending|
  {
    if s.pending != [] && Overdue(s.pending[0], now, timeout) then
      ExpireHeads(RetireHead(s, Failure(FromScheduler, s.pending[0].request.id, QueueTimeout)), now, timeout)
    else s
  }

  function ExpirePending(s: State, now: real): (r: State)
    ensures Continues(s, r) && r.workers == s.workers
  {
    if s.config.queueTimeout.None? then s else ExpireHeads(s, now, s.config.queueTimeout.value)
  }

  function FailHeads(s: State): (r: State)
    ensures Continues(s, r) && r.workers == s.workers
    decreases |s.pending|
  {
    if s.pending == [] then s
    else FailHeads(RetireHead(s, Failure(FromScheduler, s.pending[0].request.id, NoHealthyWorker)))
  }

  function FailPendingWithoutHealthy(s: State): (r: State)
    ensures Continues(s, r) && r.workers == s.workers
  {
    if AnyHealthy(s.workers) then s else FailHeads(s)
  }

  function ExpireWorker(s: State, i: nat, now: real, timeout: real): State
    requires i < |s.workers|
  {
    if i !in s.active || i !in s.started || now - s.started[i] < timeout then s
    else Emit(Release(s, i, CancelActive(s.workers[i]).0), Failure(FromWorker(i), s.active[i], InferenceTimeout))
  }

  function ExpireActiveFrom(s: State, i: nat, now: real, timeout: real): (r: State)
    requires i <= |s.workers|
    ensures Continues(s, r)
    decreases |s.workers| - i
  {
    if i == |s.workers| then s else ExpireActiveFrom(ExpireWorker(s, i, now, timeout), i + 1, now, timeout)
  }

  function ExpireActive(s: State, now: real): (r: State)
    ensures Continues(s, r)
  {
    if s.config.maxInference.None? then s
    else FailPendingWithoutHealthy(ExpireActiveFrom(s, 0, now, s.config.maxInference.value))
  }

  /* ---- Dispatch ---- */

  // Hands queued requests to ready workers; the flag says that a send failed and an exception escaped.
  function DispatchLoop(s: State, now: real, broken: set<nat>): (r: (State, bool))
    ensures Continues(s, r.0)
    decreases |s.pending|
  {
    if s.pending == [] || !BelowCap(s) then (s, false)
    else
      var i := FirstReady(s.workers);
      if i == |s.workers| then (s, false)
      else if i in broken then (LoseHead(s, i), true)
      else DispatchLoop(AssignHead(s, i, now), now, broken)
  }

  function DispatchPending(s: State, now: real, broken: set<nat>): (r: (State, bool))
    ensures Continues(s, r.0)
  {
    DispatchLoop(ExpirePending(s, now), now, broken)
  }

  /* ---- The public operations ---- */

  function Submit(s: State, request: Request, now: real, broken: set<nat>): (State, Submitted) {
    var i := FirstReady(s.workers);
    if s.closed then (s, Rejected(SchedulerClosed))
    else if request.id in s.submitted then (s, Rejected(DuplicateRequestId))
    else if i < |s.workers| && BelowCap(s) then
      if i in broken then
        (Break(s, i), Rejected(SendFailed))
      else (Assign(Admit(s, request.id), i, request.id, now), Dispatched)
    else if |s.pending| >= s.config.maxPending then (s, Rejected(QueueFull))
    else if !AnyHealthy(s.workers) then (s, Rejected(NoHealthy))
    else
      var s1 := Admit(s, request.id);
      (s1.(pending := s1.pending + [Pending(request, now)],
           log := s1.log.(queued := s1.log.queued + [request.id])), Queued)
  }

  function Admit(s: State, id: RequestId): State {
    s.(submitted := s.submitted + {id}, log := s.log.(admitted := s.log.admitted + [id]))
  }

  // The message of worker `i` ended its request.  An id-less message ends it without naming it.
  function Finish(s: State, i: nat, w: Worker, m: Message): State
    requires i < |s.workers| && i in s.active
  {
    var s1 := Emit(Release(s, i, w), m);
    if m.requestId.Some? then s1 else s1.(log := s1.log.(dropped := s1.log.dropped + [s.active[i]]))
  }

  // One visit of the poll loop to worker `i`; the flag says that an exception escaped.
  function PollWorker(s: State, i: nat, reply: Reply): (r: (State, bool))
    requires i < |s.workers|
    ensures Continues(s, r.0)
  {
    if i !in s.active then (s, false)
    else
      var (w, received) := Receive(s.workers[i], reply.read);
      match received
      case NotBusy => (s, true)
      case TimedOut => (s, false)
      case Broke(code) => (Emit(Release(s, i, w), Failure(FromWorker(i), s.active[i], code)), false)
      case Delivered(m) =>
        if Terminal(m.kind) then DispatchPending(Finish(s, i, w, m), reply.at, reply.broken)
        else (Emit(s.(workers := s.workers[i := w]), m), false)
  }

  function PollFrom(s: State, i: nat, replies: seq<Reply>): (r: (State, bool))
    requires i <= |s.workers| <= |replies|
    ensures Continues(s, r.0)
    decreases |s.workers| - i
  {
    if i == |s.workers| then (s, false)
    else
      var (s1, raised) := PollWorker(s, i, replies[i]);
      if raised then (s1, true) else PollFrom(s1, i + 1, replies)
  }

  function Drain(s: State): State {
    s.(events := [])
  }

  // The part of `poll` before the worker loop.
  function Expire(s: State, now: real): (r: State)
    ensures Continues(s, r)
  {
    ExpirePending(ExpireActive(s, now), now)
  }

  function Poll(s: State, now: real, replies: seq<Reply>): (State, Polled)
    requires |s.workers| <= |replies|
  {
    var s1 := Expire(s, now);
    if s1.events != [] then (Drain(s1), Events(s1.events))
    else
      var (s2, raised) := PollFrom(s1, 0, replies);
      if raised then (s2, PollRaised)
      else
        var s3 := FailPendingWithoutHealthy(s2);
        (Drain(s3), Events(s3.events))
  }

  function Cancel(s: State, id: RequestId): (State, CancelResult) {
    var k := IndexOf(s.pending, id);
    if k < |s.pending| then
      var m := Message(Cancelled, FromScheduler, Some(id), StagePending, 0);
      (Record(s.(pending := s.pending[..k] + s.pending[k + 1..]), m), CancelEvent(m))
    else
      var i := HolderFrom(s, 0, id);
      if i == |s.workers| then (s, CancelRejected(RequestNotFound))
      else
        var (w, cancelled) := CancelActive(s.workers[i]);
        var m := Message(Cancelled, FromWorker(i), cancelled, StageActive, 0);
        (FailPendingWithoutHealthy(Record(Release(s, i, w), m)), CancelEvent(m))
  }

  // `cancel` returns its event to the caller and does not queue it.
  function Record(s: State, m: Message): State {
    s.(log := s.log.(reports := s.log.reports + [m]))
  }

  function CancelHeads(s: State): (r: State)
    ensures Continues(s, r) && r.workers == s.workers && r.active == s.active && r.started == s.started && r.pending == []
    decreases |s.pending|
  {
    if s.pending == [] then s
    else CancelHeads(RetireHead(s, Message(Cancelled, FromScheduler, Some(s.pending[0].request.id), StageShutdown, 0)))
  }

  // `close` shuts worker `i` down; a request it was running gets no report.
  function CloseWorker(s: State, i: nat): State
    requires i < |s.workers|
  {
    var s1 := Release(s, i, Shutdown(s.workers[i]));
    if i in s.active then s1.(log := s1.log.(dropped := s1.log.dropped + [s.active[i]])) else s1
  }

  function CloseWorkersFrom(s: State, i: nat): (r: State)
    requires i <= |s.workers|
    ensures Continues(s, r) && r.pending == s.pending && r.events == s.events
    decreases |s.workers| - i
  {
    if i == |s.workers| then s else CloseWorkersFrom(CloseWorker(s, i), i + 1)
  }

  // `close` when every shutdown command can be sent.
  function Close(s: State): State {
    if s.closed then s
    else
      var s1 := CloseWorkersFrom(CancelHeads(s.(closed := true)), 0);
      s1.(active := map[], started := map[])
  }

  // One turn of the loop of `close`: it leaves the map of active requests alone.
  function StopWorker(s: State, i: nat): State
    requires i < |s.workers|
  {
    var s1 := s.(workers := s.workers[i := Shutdown(s.workers[i])]);
    if i in s.active then s1.(log := s1.log.(dropped := s1.log.dropped + [s.active[i]])) else s1
  }

  // The flag says that a shutdown command could not be sent, to a worker in `broken`: the exception escapes.
  function StopWorkersFrom(s: State, i: nat, broken: set<nat>): (r: (State, bool))
    requires i <= |s.workers|
    ensures |r.0.workers| == |s.workers|
    decreases |s.workers| - i
  {
    if i == |s.workers| then (s, false)
    else if ShutdownRaises(s.workers[i], i !in broken) then (StopWorker(s, i), true)
    else StopWorkersFrom(StopWorker(s, i), i + 1, broken)
  }

  // `close` for every behaviour of the pipes.
  function CloseOrRaise(s: State, broken: set<nat>): (State, bool) {
    if s.closed then (s, false)
    else
      var (s1, raised) := StopWorkersFrom(CancelHeads(s.(closed := true)), 0, broken);
      (if raised then s1 else s1.(active := map[], started := map[]), raised)
  }
}
