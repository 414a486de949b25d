/** The scheduler object, proved to do what `SchedulerSpec` says and to keep the invariant. */
module Schedulers {
  import opened Messages
  import opened WorkerModel
  import opened WorkerClients
  import opened SchedulerSpec
  import opened SchedulerInvariants
  import opened SchedulerClosing
  import opened SchedulerService

  function Views(clients: seq<WorkerClient>): seq<Worker>
    reads clients
  {
    seq(|clients|, i requires 0 <= i < |clients| reads clients => clients[i].View())
  }

  class Scheduler {
    // The clients, ordered by worker id.
    const workers: seq<WorkerClient>
    const config: Config
    var pending: seq<Pending>
    var active: map<nat, RequestId>
    var started: map<nat, real>
    var submitted: set<RequestId>
    var events: seq<Message>
    var closed: bool
    ghost var log: Log

    // The clients are distinct objects, each in order.
    ghost predicate Sound()
      reads this, workers
    {
      && (forall i, j :: 0 <= i < j < |workers| ==> workers[i] != workers[j])
      && (forall i :: 0 <= i < |workers| ==> workers[i].Valid())
    }

    ghost function Abs(): State
      reads this, workers
    {
      State(config, Views(workers), pending, active, started, submitted, events, closed, log)
    }

    ghost predicate Valid()
      reads this, workers
    {
      Sound() && Inv(Abs())
    }

    constructor (clients: seq<WorkerClient>, config: Config)
      requires clients != []
      requires forall i, j :: 0 <= i < j < |clients| ==> clients[i] != clients[j]
      requires forall i :: 0 <= i < |clients| ==> clients[i].Valid() && clients[i].state.Ready?
      requires config.maxPending > 0 && (config.maxConcurrent.Some? ==> config.maxConcurrent.value > 0)
      requires config.queueTimeout.Some? ==> config.queueTimeout.value >= 0.0
      requires config.maxInference.Some? ==> config.maxInference.value > 0.0
      ensures Valid() && Init(Abs()) && workers == clients && this.config == config
    {
      workers := clients;
      this.config := config;
      pending, active, started, submitted, events, closed := [], map[], map[], {}, [], false;
      log := Log([], [], [], [], [], []);
      new;
      InitInv(Abs());
    }

    /* ---- Queries ---- */

    // The position of the first ready worker, or the number of workers.
    method FirstReadyWorker() returns (r: nat)
      requires Sound()
      ensures r == FirstReady(Views(workers))
    {
      r := 0;
      while r < |workers| && !workers[r].state.Ready?
        invariant 0 <= r <= |workers|
        invariant forall i :: 0 <= i < r ==> !workers[i].state.Ready?
      {
        r := r + 1;
      }
      FirstReadyIs(Views(workers), r);
    }

    method HasHealthyWorker() returns (found: bool)
      requires Sound()
      ensures found == AnyHealthy(Views(workers))
    {
      var views := Views(workers);
      for i := 0 to |workers|
        invariant forall k :: 0 <= k < i ==> !Healthy(views[k])
      {
        if !workers[i].state.Failed? && !workers[i].state.Stopped? && !workers[i].state.Stopping? {
          assert Healthy(views[i]);
          return true;
        }
      }
      found := false;
    }

    // The counts of `snapshot`.
    method Snapshot() returns (ready: nat, busy: nat, failed: nat, stopped: nat)
      requires Valid()
      ensures ready == CountState(Views(workers), WorkerState.Ready) && busy == CountState(Views(workers), Busy)
      ensures failed == CountState(Views(workers), WorkerState.Failed) && stopped == CountState(Views(workers), Stopped)
      ensures busy == |active| && ready + busy + failed + stopped == |workers|
    {
      ready, busy, failed, stopped := 0, 0, 0, 0;
      var views := Views(workers);
      for i := 0 to |workers|
        invariant ready == CountState(views[..i], WorkerState.Ready) && busy == CountState(views[..i], Busy)
        invariant failed == CountState(views[..i], WorkerState.Failed) && stopped == CountState(views[..i], Stopped)
      {
        assert views[..i + 1] == views[..i] + [views[i]];
        CountOne(views[..i], views[i]);
        match workers[i].state {
          case Ready => ready := ready + 1;
          case Busy => busy := busy + 1;
          case Failed => failed := failed + 1;
          case Stopped => stopped := stopped + 1;
          case _ =>
        }
      }
      assert views[..|workers|] == views;
      CountsSum(views);
      CountBusy(views, active.Keys);
    }

    /* ---- Expiry and failure ---- */

    method EmitEvent(m: Message)
      requires Sound()
      modifies this
      ensures Sound() && Abs() == Emit(old(Abs()), m)
    {
      events := events + [m];
      log := log.(reports := log.reports + [m]);
    }

    method ExpirePendingRequests(now: real)
      requires Sound()
      modifies this
      ensures Sound() && Abs() == ExpirePending(old(Abs()), now)
    {
      if config.queueTimeout.None? { return; }
      var timeout := config.queueTimeout.value;
      while pending != [] && now - pending[0].enqueuedAt >= timeout
        invariant Sound()
        invariant ExpireHeads(Abs(), now, timeout) == ExpireHeads(old(Abs()), now, timeout)
        decreases |pending|
      {
        var request := pending[0].request;
        pending := pending[1..];
        EmitEvent(Failure(FromScheduler, request.id, QueueTimeout));
      }
    }

    method FailPendingIfNoneHealthy()
      requires Sound()
      modifies this
      ensures Sound() && Abs() == FailPendingWithoutHealthy(old(Abs()))
    {
      var healthy := HasHealthyWorker();
      if healthy { return; }
      while pending != []
        invariant Sound() && FailHeads(Abs()) == FailHeads(old(Abs()))
        decreases |pending|
      {
        var request := pending[0].request;
        pending := pending[1..];
        EmitEvent(Failure(FromScheduler, request.id, NoHealthyWorker));
      }
    }

    // Forget the request of worker `i`, whose client has already changed state.
    method Forget(i: nat)
      requires Sound() && i < |workers|
      modifies this
      ensures Sound()
      ensures Abs() == old(Abs()).(active := old(active) - {i}, started := old(started) - {i})
    {
      active := active - {i};
      started := started - {i};
    }

    method ExpireActiveWorkers(now: real)
      requires Sound()
      modifies this, workers
      ensures Sound() && Abs() == ExpireActive(old(Abs()), now)
    {
      if config.maxInference.None? { return; }
      var timeout := config.maxInference.value;
      for i := 0 to |workers|
        invariant Sound()
        invariant ExpireActiveFrom(Abs(), i, now, timeout) == ExpireActiveFrom(old(Abs()), 0, now, timeout)
      {
        ghost var before := Abs();
        if i in active && i in started && now - started[i] >= timeout { Terminate(i); }
        assert Abs() == ExpireWorker(before, i, now, timeout);
      }
      FailPendingIfNoneHealthy();
    }

    // Worker `i` has run its request for too long.
    method Terminate(i: nat)
      requires Sound() && i < |workers| && i in active
      modifies this, workers
      ensures Sound()
      ensures var s := old(Abs());
        Abs() == Emit(Release(s, i, WorkerModel.CancelActive(s.workers[i]).0), Failure(FromWorker(i), s.active[i], InferenceTimeout))
    {
      ghost var before := Abs();
      var id := active[i];
      var cancelled := workers[i].CancelActive();
      assert Views(workers) == before.workers[i := WorkerModel.CancelActive(before.workers[i]).0];
      Forget(i);
      EmitEvent(Failure(FromWorker(i), id, InferenceTimeout));
    }

    /* ---- Dispatch ---- */

    // Send `id` to ready worker `i`; on success it is on record as running there.
    method Hand(i: nat, id: RequestId, now: real, pipeOpen: bool) returns (ok: bool)
      requires Sound() && i < |workers| && workers[i].state.Ready?
      modifies this, workers
      ensures Sound() && ok == pipeOpen
      ensures Abs() == if pipeOpen then Assign(old(Abs()), i, id, now) else Break(old(Abs()), i)
      ensures pending == old(pending) && log.admitted == old(log).admitted
    {
      ghost var before := Abs();
      var sent := workers[i].Submit(id, pipeOpen);
      assert Views(workers) == before.workers[i := Send(before.workers[i], id, pipeOpen).0];
      ok := sent.Accepted?;
      if ok {
        active := active[i := id];
        started := started[i := now];
        log := log.(dispatched := log.dispatched + [id]);
      }
    }

    // `broken` holds the workers whose pipes reject a send; the result says that such an error escapes.
    method DispatchPendingRequests(now: real, broken: set<nat>) returns (raised: bool)
      requires Sound()
      modifies this, workers
      ensures Sound() && (Abs(), raised) == DispatchPending(old(Abs()), now, broken)
    {
      ExpirePendingRequests(now);
      raised := false;
      while pending != []
        invariant Sound() && !raised
        invariant DispatchLoop(Abs(), now, broken) == DispatchPending(old(Abs()), now, broken)
        decreases |pending|
      {
        if config.maxConcurrent.Some? && |active| >= config.maxConcurrent.value { return; }
        var i := FirstReadyWorker();
        if i == |workers| { return; }
        ghost var before := Abs();
        raised := DispatchHead(i, now, broken);
        assert DispatchLoop(before, now, broken)
            == if i in broken then (LoseHead(before, i), true) else DispatchLoop(AssignHead(before, i, now), now, broken);
        if raised { return; }
      }
    }

    // The queue's head is taken out before it is sent.
    method DispatchHead(i: nat, now: real, broken: set<nat>) returns (raised: bool)
      requires Sound() && pending != [] && i < |workers| && workers[i].state.Ready?
      modifies this, workers
      ensures Sound() && raised == (i in broken)
      ensures Abs() == if i in broken then LoseHead(old(Abs()), i) else AssignHead(old(Abs()), i, now)
    {
      var head := pending[0];
      pending := pending[1..];
      var ok := Hand(i, head.request.id, now, i !in broken);
      raised := !ok;
      if ok {
        log := log.(dequeued := log.dequeued + [head.request.id]);
      } else {
        log := log.(dropped := log.dropped + [head.request.id]);
      }
    }

    /* ---- The public operations ---- */

    method Submit(request: Request, now: real, broken: set<nat>) returns (outcome: Submitted)
      requires Valid()
      modifies this, workers
      ensures Valid() && (Abs(), outcome) == SchedulerSpec.Submit(old(Abs()), request, now, broken)
    {
      SubmitKeeps(Abs(), request, now, broken);
      outcome := Place(request, now, broken);
    }

    method Place(request: Request, now: real, broken: set<nat>) returns (outcome: Submitted)
      requires Sound()
      modifies this, workers
      ensures Sound() && (Abs(), outcome) == SchedulerSpec.Submit(old(Abs()), request, now, broken)
    {
      if closed { return Rejected(SchedulerClosed); }
      if request.id in submitted { return Rejected(DuplicateRequestId); }
      var i := FirstReadyWorker();
      var canDispatch := config.maxConcurrent.None? || |active| < config.maxConcurrent.value;
      if i < |workers| && canDispatch {
        var ok := Hand(i, request.id, now, i !in broken);
        if !ok { return Rejected(SendFailed); }
        submitted := submitted + {request.id};
        log := log.(admitted := log.admitted + [request.id]);
        return Dispatched;
      }
      if |pending| >= config.maxPending { return Rejected(QueueFull); }
      var healthy := HasHealthyWorker();
      if !healthy { return Rejected(NoHealthy); }
      Enqueue(request, now);
      outcome := Queued;
    }

    method Enqueue(request: Request, now: real)
      requires Sound()
      modifies this
      ensures Sound()
      ensures var s := Admit(old(Abs()), request.id);
        Abs() == s.(pending := s.pending + [Pending(request, now)], log := s.log.(queued := s.log.queued + [request.id]))
    {
      pending := pending + [Pending(request, now)];
      submitted := submitted + {request.id};
      log := log.(admitted := log.admitted + [request.id], queued := log.queued + [request.id]);
    }

    // One visit to worker `i`.
    method VisitWorker(i: nat, reply: Reply) returns (raised: bool)
      requires Sound() && i < |workers|
      modifies this, workers
      ensures Sound() && (Abs(), raised) == PollWorker(old(Abs()), i, reply)
    {
      ghost var before := Abs();
      if i !in active { return false; }
      var id := active[i];
      var received := workers[i].Receive(reply.read);
      ghost var w := WorkerModel.Receive(before.workers[i], reply.read).0;
      assert Views(workers) == before.workers[i := w];
      match received {
        case NotBusy =>
          assert before.workers[i := w] == before.workers;
          return true;
        case TimedOut =>
          assert before.workers[i := w] == before.workers;
          return false;
        case Broke(code) =>
          Forget(i);
          EmitEvent(Failure(FromWorker(i), id, code));
          return false;
        case Delivered(m) =>
          if !Terminal(m.kind) {
            EmitEvent(m);
            return false;
          }
          EndRequest(i, m);
          assert Abs() == Finish(before, i, w, m);
          raised := DispatchPendingRequests(reply.at, reply.broken);
      }
    }

    // The message `m` ended the request of worker `i`.
    method EndRequest(i: nat, m: Message)
      requires Sound() && i < |workers| && i in active
      modifies this
      ensures Sound()
      ensures var s := old(Abs());
        var t := Emit(s.(active := s.active - {i}, started := s.started - {i}), m);
        Abs() == if m.requestId.Some? then t else t.(log := t.log.(dropped := t.log.dropped + [s.active[i]]))
    {
      if m.requestId.None? { log := log.(dropped := log.dropped + [active[i]]); }
      EmitEvent(m);
      Forget(i);
    }

    method Poll(now: real, replies: seq<Reply>) returns (outcome: Polled)
      requires Valid() && |workers| <= |replies|
      modifies this, workers
      ensures Valid() && (Abs(), outcome) == SchedulerSpec.Poll(old(Abs()), now, replies)
    {
      PollKeeps(Abs(), now, replies);
      ExpireActiveWorkers(now);
      ExpirePendingRequests(now);
      if events != [] {
        outcome := DrainEvents();
        return;
      }
      ghost var start := Abs();
      for i := 0 to |workers|
        invariant Sound() && PollFrom(Abs(), i, replies) == PollFrom(start, 0, replies)
      {
        var raised := VisitWorker(i, replies[i]);
        if raised { return PollRaised; }
      }
      FailPendingIfNoneHealthy();
      outcome := DrainEvents();
    }

    method DrainEvents() returns (outcome: Polled)
      requires Sound()
      modifies this
      ensures Sound() && Abs() == Drain(old(Abs())) && outcome == Events(old(events))
    {
      outcome := Events(events);
      events := [];
    }

    // The position of a queued request, or the length of the queue.
    method FindPending(id: RequestId) returns (k: nat)
      ensures k == IndexOf(pending, id)
    {
      k := 0;
      while k < |pending| && pending[k].request.id != id
        invariant 0 <= k <= |pending|
        invariant forall j :: 0 <= j < k ==> pending[j].request.id != id
      {
        k := k + 1;
      }
      IndexOfIs(pending, id, k);
    }

    // The first worker running the request, or the number of workers.
    method FindHolder(id: RequestId) returns (i: nat)
      requires Sound()
      ensures i == HolderFrom(Abs(), 0, id)
    {
      i := 0;
      while i < |workers| && !(i in active && active[i] == id)
        invariant 0 <= i <= |workers|
        invariant HolderFrom(Abs(), i, id) == HolderFrom(Abs(), 0, id)
      {
        i := i + 1;
      }
    }

    method Cancel(id: RequestId) returns (outcome: CancelResult)
      requires Valid()
      modifies this, workers
      ensures Valid() && (Abs(), outcome) == SchedulerSpec.Cancel(old(Abs()), id)
    {
      CancelKeeps(Abs(), id);
      outcome := Withdraw(id);
    }

    method Withdraw(id: RequestId) returns (outcome: CancelResult)
      requires Sound()
      modifies this, workers
      ensures Sound() && (Abs(), outcome) == SchedulerSpec.Cancel(old(Abs()), id)
    {
      var k := FindPending(id);
      if k < |pending| {
        pending := pending[..k] + pending[k + 1..];
        var m := Message(Cancelled, FromScheduler, Some(id), StagePending, 0);
        log := log.(reports := log.reports + [m]);
        return CancelEvent(m);
      }
      var i := FindHolder(id);
      if i == |workers| { return CancelRejected(RequestNotFound); }
      var m := StopHolder(i);
      FailPendingIfNoneHealthy();
      outcome := CancelEvent(m);
    }

    // Terminate worker `i` and report its request as cancelled.
    method StopHolder(i: nat) returns (m: Message)
      requires Sound() && i < |workers|
      modifies this, workers
      ensures Sound()
      ensures var (w, cancelled) := WorkerModel.CancelActive(old(Abs()).workers[i]);
        && m == Message(Cancelled, FromWorker(i), cancelled, StageActive, 0)
        && Abs() == Record(Release(old(Abs()), i, w), m)
    {
      ghost var before := Abs();
      var cancelled := workers[i].CancelActive();
      assert Views(workers) == before.workers[i := WorkerModel.CancelActive(before.workers[i]).0];
      Forget(i);
      m := Message(Cancelled, FromWorker(i), cancelled, StageActive, 0);
      log := log.(reports := log.reports + [m]);
    }

    // `acks` are the reads that follow the shutdown commands; those to the workers in `broken` cannot be sent.
    method Close(acks: seq<Read>, broken: set<nat>) returns (raised: bool)
      requires Valid() && |workers| <= |acks|
      modifies this, workers
      ensures Sound() && (Abs(), raised) == CloseOrRaise(old(Abs()), broken)
      ensures !raised ==> Valid() && Abs() == SchedulerSpec.Close(old(Abs()))
    {
      CloseRaisesIff(Abs(), broken);
      CloseKeeps(Abs());
      raised := StopAll(acks, broken);
    }

    method StopAll(acks: seq<Read>, broken: set<nat>) returns (raised: bool)
      requires Sound() && |workers| <= |acks|
      modifies this, workers
      ensures Sound() && (Abs(), raised) == CloseOrRaise(old(Abs()), broken)
    {
      if closed { return false; }
      ghost var before := Abs();
      closed := true;
      CancelQueue();
      raised := ShutDownWorkers(acks, broken);
      if raised { return; }
      active := map[];
      started := map[];
      assert Abs() == CloseOrRaise(before, broken).0;
    }

    method CancelQueue()
      requires Sound()
      modifies this
      ensures Sound() && Abs() == CancelHeads(old(Abs()))
    {
      while pending != []
        invariant Sound() && CancelHeads(Abs()) == CancelHeads(old(Abs()))
        decreases |pending|
      {
        var request := pending[0].request;
        pending := pending[1..];
        EmitEvent(Message(Cancelled, FromScheduler, Some(request.id), StageShutdown, 0));
      }
    }

    method ShutDownWorkers(acks: seq<Read>, broken: set<nat>) returns (raised: bool)
      requires Sound() && |workers| <= |acks|
      modifies this, workers
      ensures Sound() && (Abs(), raised) == StopWorkersFrom(old(Abs()), 0, broken)
    {
      for i := 0 to |workers|
        invariant Sound()
        invariant StopWorkersFrom(Abs(), i, broken) == StopWorkersFrom(old(Abs()), 0, broken)
      {
        raised := ShutDownWorker(i, acks[i], i !in broken);
        if raised { return; }
      }
      raised := false;
    }

    method ShutDownWorker(i: nat, ack: Read, pipeOpen: bool) returns (raised: bool)
      requires Sound() && i < |workers|
      modifies this, workers
      ensures Sound() && Abs() == StopWorker(old(Abs()), i)
      ensures raised == ShutdownRaises(old(Abs()).workers[i], pipeOpen)
    {
      ghost var before := Abs();
      raised := workers[i].Shutdown(pipeOpen, ack);
      assert Views(workers) == before.workers[i := WorkerModel.Shutdown(before.workers[i])];
      if i in active { log := log.(dropped := log.dropped + [active[i]]); }
    }
  }

  lemma CountOne(ws: seq<Worker>, w: Worker)
    ensures forall state: WorkerState :: CountState(ws + [w], state) == CountState(ws, state) + if w.state == state then 1 else 0
  {
    forall state: WorkerState ensures CountState(ws + [w], state) == CountState(ws, state) + if w.state == state then 1 else 0 {
      CountAppend(ws, w, state);
    }
  }

  lemma {:induction false} FirstReadyIs(ws: seq<Worker>, r: nat)
    requires r <= |ws| && (forall i :: 0 <= i < r ==> !ws[i].state.Ready?) && (r < |ws| ==> ws[r].state.Ready?)
    ensures FirstReady(ws) == r
  {
    if r > 0 { FirstReadyIs(ws[1..], r - 1); }
  }

  lemma {:induction false} IndexOfIs(pending: seq<Pending>, id: RequestId, k: nat)
    requires k <= |pending| && (forall j :: 0 <= j < k ==> pending[j].request.id != id)
    requires k < |pending| ==> pending[k].request.id == id
    ensures IndexOf(pending, id) == k
  {
    if k > 0 { IndexOfIs(pending[1..], id, k - 1); }
  }
}
